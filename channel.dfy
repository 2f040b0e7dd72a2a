/**
 * How the secure-channel subscription reacts to one received frame
 * (`secureChannelMessage` and `gotSecureChannelMessage`, src/Javascript/Main.js:184-225).
 * There is no envelope tag: a payload that `JSON.parse` rejects is tried as an
 * encrypted envelope, with the topic DID as the passphrase.
 */
module Channel {
  import opened Wrappers
  import opened Json
  import opened Envelope

  const Ping: string := "PING"
  const Pong: string := "PONG"

  /** What a frame leads to. */
  datatype Reaction =
    | Ignore                                  // our own publication echoed back
    | Reply(text: string)                     // publish on the same topic
    | Opened                                  // clear the heartbeat, send `secureChannelOpened`
    | Deliver(message: map<string, Json>)     // send `gotSecureChannelMessage`
    | Drop                                    // neither JSON nor a decryptable JSON envelope

  /** The message port event for a parsed payload. */
  function Message(j: Json, from: string, now: nat): map<string, Json> {
    Augment(Spread(j), from, now)
  }

  /** The payload branch: JSON first, then decryption with the topic DID and JSON again. */
  function DecodePayload(json: JsonCodec, crypto: Crypto, topic: string, from: string, text: string, now: nat): Option<map<string, Json>> {
    match json.parse(text)
    case Some(j) => Some(Message(j, from, now))
    case None =>
      match Decrypt(crypto, text, topic)
      case None => None
      case Some(plain) =>
        match json.parse(plain)
        case None => None
        case Some(j) => Some(Message(j, from, now))
  }

  function React(peerId: string, json: JsonCodec, crypto: Crypto, topic: string, from: string, text: string, now: nat): Reaction {
    if from == peerId then Ignore
    else if text == Ping then Reply(Pong)
    else if text == Pong then Opened
    else
      match DecodePayload(json, crypto, topic, from, text, now)
      case None => Drop
      case Some(m) => Deliver(m)
  }

  /** A frame from this node itself is ignored whatever it holds, `PING` and `PONG` included. */
  lemma SelfEchoIgnored(peerId: string, json: JsonCodec, crypto: Crypto, topic: string, text: string, now: nat)
    ensures React(peerId, json, crypto, topic, peerId, text, now) == Ignore
  {}

  /** Any other peer's `PING` is answered with `PONG`, whatever this side's own state. */
  lemma PingAnswered(peerId: string, json: JsonCodec, crypto: Crypto, topic: string, from: string, now: nat)
    requires from != peerId
    ensures React(peerId, json, crypto, topic, from, Ping, now) == Reply(Pong)
  {}

  /** Every `PONG` from another peer opens the channel; there is no guard against a repeat. */
  lemma PongOpens(peerId: string, json: JsonCodec, crypto: Crypto, topic: string, from: string, now: nat)
    requires from != peerId
    ensures React(peerId, json, crypto, topic, from, Pong, now) == Opened
  {}

  /**
   * A payload that parses as JSON is delivered as it is, never decrypted: its
   * fields come through, except that `from` and `timestamp` are overridden.
   */
  lemma PlainPayloadDelivered(peerId: string, json: JsonCodec, crypto: Crypto, topic: string, from: string, text: string, now: nat, j: Json)
    requires from != peerId && text != Ping && text != Pong
    requires json.parse(text) == Some(j)
    ensures React(peerId, json, crypto, topic, from, text, now).Deliver?
    ensures var m := React(peerId, json, crypto, topic, from, text, now).message;
      && m.Keys == Spread(j).Keys + {"from", "timestamp"}
      && m["from"] == JString(from)
      && m["timestamp"] == JNumber(now as real)
      && forall k :: k in Spread(j) && k != "from" && k != "timestamp" ==> m[k] == Spread(j)[k]
  {}

  /** A payload that is neither JSON nor an envelope that opens to JSON under the topic DID is dropped. */
  lemma UndecodableDropped(peerId: string, json: JsonCodec, crypto: Crypto, topic: string, from: string, text: string, now: nat)
    requires from != peerId && text != Ping && text != Pong
    requires json.parse(text).None?
    requires Decrypt(crypto, text, topic).None? || json.parse(Decrypt(crypto, text, topic).value).None?
    ensures React(peerId, json, crypto, topic, from, text, now) == Drop
  {}

  /**
   * A JSON text encrypted with the topic DID as the passphrase is delivered
   * decrypted, provided the envelope itself does not parse as JSON (otherwise
   * it would be taken as a plain payload) and AES-GCM opens what it sealed.
   */
  lemma EncryptedPayloadDelivered(
    peerId: string, json: JsonCodec, crypto: Crypto, topic: string, from: string,
    plain: string, iv: Base64.Bytes, now: nat, j: Json)
    requires |iv| == IvLength
    requires from != peerId
    requires var key := KeyFromPassphrase(crypto, topic);
      var pt := crypto.utf8Encode(plain);
      crypto.aesGcmDecrypt(key, iv, TagLength, crypto.aesGcmEncrypt(key, iv, TagLength, pt)) == Some(pt)
    requires crypto.utf8Decode(crypto.utf8Encode(plain)) == plain
    requires json.parse(Encrypt(crypto, plain, topic, iv)).None?
    requires json.parse(plain) == Some(j)
    ensures React(peerId, json, crypto, topic, from, Encrypt(crypto, plain, topic, iv), now) == Deliver(Message(j, from, now))
  {
    var env := Encrypt(crypto, plain, topic, iv);
    EnvelopeFormat(crypto, plain, topic, iv);
    assert env != Ping && env != Pong by {
      assert |env| >= IvChars;
    }
    DecryptEncrypt(crypto, plain, topic, iv);
  }
}
