/**
 * The module state of the lobby script (src/Javascript/Main.js): the globals
 * `rootDidCache` and `pingInterval`, and, as logs, the effects the script has on
 * its IPFS node (subscriptions, live `setInterval` timers, published frames)
 * and on the Elm ports (events sent).
 */
module Lobby {
  import opened Wrappers
  import opened Json
  import opened Envelope
  import opened Resolver
  import opened Channel
  import opened Payload

  /** One `ipfs.pubsub.publish(topic, text)`. */
  datatype Publication = Publication(topic: string, text: string)

  /** One message sent to Elm. */
  datatype PortEvent = SecureChannelOpened | GotSecureChannelMessage(message: map<string, Json>)

  /** The frames a reaction publishes on its topic. */
  function Replies(r: Reaction, topic: string): seq<Publication> {
    if r.Reply? then [Publication(topic, r.text)] else []
  }

  /** The port events a reaction sends. */
  function Sent(r: Reaction): seq<PortEvent> {
    match r
    case Opened => [SecureChannelOpened]
    case Deliver(m) => [GotSecureChannelMessage(m)]
    case _ => []
  }

  /** How many times `topic` was subscribed to: the number of handlers a frame on it reaches. */
  function Handlers(subscriptions: seq<string>, topic: string): (n: nat)
    ensures n <= |subscriptions|
  {
    if subscriptions == [] then 0
    else
      var last := |subscriptions| - 1;
      assert subscriptions == subscriptions[..last] + [subscriptions[last]];
      Handlers(subscriptions[..last], topic) + (if subscriptions[last] == topic then 1 else 0)
  }

  lemma HandlersStep(subscriptions: seq<string>, i: nat, topic: string)
    requires i < |subscriptions|
    ensures Handlers(subscriptions[..i + 1], topic)
      == Handlers(subscriptions[..i], topic) + (if subscriptions[i] == topic then 1 else 0)
  {
    assert subscriptions[..i + 1][..i] == subscriptions[..i];
  }

  /** A frame reaches some handler exactly when its topic was subscribed to. */
  lemma {:induction false} HandlersZero(subscriptions: seq<string>, topic: string)
    ensures Handlers(subscriptions, topic) == 0 <==> topic !in subscriptions
  {
    if subscriptions != [] {
      var last := |subscriptions| - 1;
      assert subscriptions == subscriptions[..last] + [subscriptions[last]];
      HandlersZero(subscriptions[..last], topic);
    }
  }

  /** One more handler run appends one more copy of its effects. */
  lemma AppendRepeat<T>(prefix: seq<T>, s: seq<T>, n: nat)
    ensures prefix + Repeat(s, n) + s == prefix + Repeat(s, n + 1)
  {}

  lemma RemoveTwice<K, V>(m: map<K, V>, k: K)
    ensures m - {k} - {k} == m - {k}
  {}

  /** `s` repeated `n` times: the effects of `n` handler runs that react alike. */
  function Repeat<T>(s: seq<T>, n: nat): (r: seq<T>)
    ensures |r| == n * |s|
  {
    if n == 0 then [] else Repeat(s, n - 1) + s
  }

  class Lobby {
    const sources: Sources
    /** `(await ipfs.id()).id`. */
    const peerId: string
    const json: JsonCodec
    const crypto: Crypto
    /** The keystore's `sign`. */
    const sign: map<string, Json> -> string

    /** `rootDidCache`. */
    var rootDidCache: Option<string>
    /** The lookup sources consulted so far, in order. */
    ghost var consulted: seq<Source>
    /** `pingInterval`: the handle of the last heartbeat started, if any. */
    var pingInterval: Option<nat>
    /** The `setInterval` timers still running: handle to topic. */
    var timers: map<nat, string>
    /** The handle the next `setInterval` returns. */
    var nextHandle: nat
    /** Topics subscribed to, in order. */
    var subscriptions: seq<string>
    var outbox: seq<Publication>
    var events: seq<PortEvent>

    /** Handles are never reused, and every heartbeat pings a subscribed topic. */
    ghost predicate Valid()
      reads this
    {
      && (forall h :: h in timers ==> h < nextHandle && timers[h] in subscriptions)
      && (pingInterval.Some? ==> pingInterval.value < nextHandle)
    }

    constructor (sources: Sources, peerId: string, json: JsonCodec, crypto: Crypto, sign: map<string, Json> -> string)
      ensures Valid()
      ensures this.sources == sources && this.peerId == peerId && this.json == json
      ensures this.crypto == crypto && this.sign == sign
      ensures rootDidCache == None && consulted == [] && pingInterval == None
      ensures timers == map[] && nextHandle == 0 && subscriptions == [] && outbox == [] && events == []
    {
      this.sources := sources;
      this.peerId := peerId;
      this.json := json;
      this.crypto := crypto;
      this.sign := sign;
      rootDidCache := None;
      consulted := [];
      pingInterval := None;
      timers := map[];
      nextHandle := 0;
      subscriptions := [];
      outbox := [];
      events := [];
    }

    /** `rootDid(maybeUsername)` (src/Javascript/Main.js:85-99). */
    method RootDid(maybeUsername: Option<string>) returns (did: Option<string>)
      requires Valid()
      modifies this`rootDidCache, this`consulted
      ensures Valid()
      ensures var step := ResolveStep(sources, old(rootDidCache), maybeUsername);
        && rootDidCache == step.cache
        && consulted == old(consulted) + (if step.consulted.Some? then [step.consulted.value] else [])
      ensures did == rootDidCache
      ensures Truthy(old(rootDidCache)) ==> did == old(rootDidCache) && consulted == old(consulted)
    {
      if Truthy(rootDidCache) {
      } else if Truthy(maybeUsername) {
        var name := DnsName(maybeUsername.value);
        rootDidCache := sources.lookupTxtRecord(name);
        consulted := consulted + [DnsTxt(name)];
      } else if Truthy(sources.storedUcan) {
        rootDidCache := Some(sources.ucanRootIssuer(sources.storedUcan.value));
        consulted := consulted + [UcanIssuer(sources.storedUcan.value)];
      } else {
        rootDidCache := Some(sources.deviceDid);
        consulted := consulted + [Device];
      }
      did := rootDidCache;
    }

    /**
     * `openSecureChannel(maybeUsername)` (src/Javascript/Main.js:166-181): subscribe on
     * the root DID and, when a username is given, start a heartbeat and store its
     * handle in `pingInterval`. A heartbeat already there is overwritten, not cleared.
     */
    method OpenSecureChannel(maybeUsername: Option<string>)
      requires Valid()
      modifies this
      ensures Valid()
      ensures var step := ResolveStep(sources, old(rootDidCache), maybeUsername);
        && rootDidCache == step.cache
        && consulted == old(consulted) + (if step.consulted.Some? then [step.consulted.value] else [])
      ensures outbox == old(outbox) && events == old(events)
      ensures rootDidCache.None? ==>
        subscriptions == old(subscriptions) && timers == old(timers) && pingInterval == old(pingInterval)
      ensures rootDidCache.Some? ==> subscriptions == old(subscriptions) + [rootDidCache.value]
      ensures nextHandle == if rootDidCache.Some? && Truthy(maybeUsername) then old(nextHandle) + 1 else old(nextHandle)
      ensures rootDidCache.Some? && Truthy(maybeUsername) ==>
        && old(nextHandle) !in old(timers)
        && timers == old(timers)[old(nextHandle) := rootDidCache.value]
        && pingInterval == Some(old(nextHandle))
      ensures rootDidCache.Some? && !Truthy(maybeUsername) ==>
        timers == old(timers) && pingInterval == old(pingInterval)
    {
      var did := RootDid(maybeUsername);
      if did.None? {
        return;
      }
      var topic := did.value;
      subscriptions := subscriptions + [topic];
      if Truthy(maybeUsername) {
        timers := timers[nextHandle := topic];
        pingInterval := Some(nextHandle);
        nextHandle := nextHandle + 1;
      }
    }

    /** One 500 ms tick of a running heartbeat: publish `PING` on its topic. */
    method HeartbeatTick(handle: nat)
      requires Valid()
      requires handle in timers
      modifies this`outbox
      ensures Valid()
      ensures outbox == old(outbox) + [Publication(timers[handle], Ping)]
    {
      outbox := outbox + [Publication(timers[handle], Ping)];
    }

    /**
     * The subscription handler for `topic` receiving `text` from `from` at time `now`
     * (src/Javascript/Main.js:184-214).
     */
    method SecureChannelMessage(topic: string, from: string, text: string, now: nat)
      requires Valid()
      requires topic in subscriptions
      modifies this`outbox, this`timers, this`events
      ensures Valid()
      ensures var r := React(peerId, json, crypto, topic, from, text, now);
        && outbox == old(outbox) + Replies(r, topic)
        && events == old(events) + Sent(r)
        && timers == (if r.Opened? && pingInterval.Some? then old(timers) - {pingInterval.value} else old(timers))
      ensures from == peerId ==> outbox == old(outbox) && events == old(events) && timers == old(timers)
      ensures from != peerId && text == Pong ==>
        && outbox == old(outbox)
        && events == old(events) + [SecureChannelOpened]
        && (pingInterval.None? || pingInterval.value !in timers)
    {
      var r := React(peerId, json, crypto, topic, from, text, now);
      Apply(r, topic);
    }

    /** Carry out one handler's reaction on `topic`: reply, clear the heartbeat, or notify Elm. */
    method Apply(r: Reaction, topic: string)
      requires Valid()
      modifies this`outbox, this`timers, this`events
      ensures Valid()
      ensures outbox == old(outbox) + Replies(r, topic)
      ensures events == old(events) + Sent(r)
      ensures timers == (if r.Opened? && pingInterval.Some? then old(timers) - {pingInterval.value} else old(timers))
    {
      match r {
        case Ignore =>
        case Reply(t) =>
          outbox := outbox + [Publication(topic, t)];
        case Opened =>
          if pingInterval.Some? {
            timers := timers - {pingInterval.value};
          }
          events := events + [SecureChannelOpened];
        case Deliver(m) =>
          events := events + [GotSecureChannelMessage(m)];
        case Drop =>
      }
    }

    /**
     * A frame arriving on `topic`: IPFS runs every handler subscribed to that
     * topic, in subscription order. Each `openSecureChannel` registered its own
     * handler (src/Javascript/Main.js:170-173), so a topic opened twice hears
     * each frame twice.
     */
    method FrameArrives(topic: string, from: string, text: string, now: nat)
      requires Valid()
      modifies this`outbox, this`timers, this`events
      ensures Valid()
      ensures var r := React(peerId, json, crypto, topic, from, text, now);
        var n := Handlers(subscriptions, topic);
        && outbox == old(outbox) + Repeat(Replies(r, topic), n)
        && events == old(events) + Repeat(Sent(r), n)
        && timers == (if r.Opened? && n > 0 && pingInterval.Some? then old(timers) - {pingInterval.value} else old(timers))
    {
      var r := React(peerId, json, crypto, topic, from, text, now);
      Dispatch(r, topic);
    }

    /** Run, in subscription order, every handler subscribed to `topic`; each reacts with `r`. */
    method Dispatch(r: Reaction, topic: string)
      requires Valid()
      modifies this`outbox, this`timers, this`events
      ensures Valid()
      ensures var n := Handlers(subscriptions, topic);
        && outbox == old(outbox) + Repeat(Replies(r, topic), n)
        && events == old(events) + Repeat(Sent(r), n)
        && timers == (if r.Opened? && n > 0 && pingInterval.Some? then old(timers) - {pingInterval.value} else old(timers))
    {
      ghost var cleared := if pingInterval.Some? then old(timers) - {pingInterval.value} else old(timers);
      var subs := subscriptions;
      var i := 0;
      ghost var k := 0;
      while i < |subs|
        invariant 0 <= i <= |subs| && subs == subscriptions
        invariant Valid()
        invariant k == Handlers(subs[..i], topic)
        invariant outbox == old(outbox) + Repeat(Replies(r, topic), k)
        invariant events == old(events) + Repeat(Sent(r), k)
        invariant timers == if r.Opened? && k > 0 then cleared else old(timers)
      {
        HandlersStep(subs, i, topic);
        if subs[i] == topic {
          ghost var before := timers;
          Apply(r, topic);
          AppendRepeat(old(outbox), Replies(r, topic), k);
          AppendRepeat(old(events), Sent(r), k);
          if r.Opened? && pingInterval.Some? {
            assert before - {pingInterval.value} == cleared by {
              RemoveTwice(old(timers), pingInterval.value);
            }
          }
          k := k + 1;
        }
        i := i + 1;
      }
      assert subs[..i] == subs;
    }

    /** `publishOnSecureChannel([maybeUsername, data])` (src/Javascript/Main.js:228-233). */
    method PublishOnSecureChannel(maybeUsername: Option<string>, data: map<string, Json>)
      requires Valid()
      modifies this`rootDidCache, this`consulted, this`outbox
      ensures Valid()
      ensures var step := ResolveStep(sources, old(rootDidCache), maybeUsername);
        && rootDidCache == step.cache
        && consulted == old(consulted) + (if step.consulted.Some? then [step.consulted.value] else [])
      ensures outbox == old(outbox) + (if rootDidCache.Some?
        then [Publication(rootDidCache.value, PrepareData(json, data, sources.deviceDid, sign))]
        else [])
    {
      var did := RootDid(maybeUsername);
      if did.Some? {
        outbox := outbox + [Publication(did.value, PrepareData(json, data, sources.deviceDid, sign))];
      }
    }

    /**
     * `publishEncryptedOnSecureChannel([maybeUsername, passphrase, data])`
     * (src/Javascript/Main.js:236-241), with the random IV as a parameter.
     */
    method PublishEncryptedOnSecureChannel(maybeUsername: Option<string>, passphrase: string, data: map<string, Json>, iv: Base64.Bytes)
      requires Valid()
      requires |iv| == IvLength
      modifies this`rootDidCache, this`consulted, this`outbox
      ensures Valid()
      ensures var step := ResolveStep(sources, old(rootDidCache), maybeUsername);
        && rootDidCache == step.cache
        && consulted == old(consulted) + (if step.consulted.Some? then [step.consulted.value] else [])
      ensures outbox == old(outbox) + (if rootDidCache.Some?
        then [Publication(rootDidCache.value, Encrypt(crypto, PrepareData(json, data, sources.deviceDid, sign), passphrase, iv))]
        else [])
    {
      var did := RootDid(maybeUsername);
      if did.Some? {
        var env := Encrypt(crypto, PrepareData(json, data, sources.deviceDid, sign), passphrase, iv);
        outbox := outbox + [Publication(did.value, env)];
      }
    }
  }

  /** A fresh lobby after `openSecureChannel(username)` twice, before any frame arrives. */
  method OpenedTwice(sources: Sources, peerId: string, json: JsonCodec, crypto: Crypto,
                     sign: map<string, Json> -> string, username: string)
    returns (lobby: Lobby)
    requires username != ""
    requires Truthy(sources.lookupTxtRecord(DnsName(username)))
    ensures fresh(lobby) && lobby.Valid()
    ensures lobby.sources == sources && lobby.peerId == peerId && lobby.json == json
    ensures lobby.crypto == crypto && lobby.sign == sign
    ensures var topic := sources.lookupTxtRecord(DnsName(username)).value;
      && lobby.rootDidCache == Some(topic)
      && lobby.subscriptions == [topic, topic]
      && lobby.timers == map[0 := topic][1 := topic]
      && lobby.pingInterval == Some(1)
      && lobby.outbox == [] && lobby.events == []
  {
    lobby := new Lobby(sources, peerId, json, crypto, sign);
    var topic := sources.lookupTxtRecord(DnsName(username)).value;
    assert ResolveStep(sources, None, Some(username)) == Step(Some(topic), Some(DnsTxt(DnsName(username))));
    lobby.OpenSecureChannel(Some(username));
    assert lobby.rootDidCache == Some(topic) && lobby.subscriptions == [topic];
    assert lobby.timers == map[0 := topic] && lobby.pingInterval == Some(0) && lobby.nextHandle == 1;
    CachedValueWins(sources, Some(topic), Some(username));
    lobby.OpenSecureChannel(Some(username));
  }

  /**
   * The initiator's side of a pairing, opened once with a username: the
   * heartbeat pings, the peer's `PONG` reaches the one handler, the channel is
   * reported open once and no heartbeat is left running.
   */
  method PlainHandshake(sources: Sources, peerId: string, json: JsonCodec, crypto: Crypto,
                        sign: map<string, Json> -> string, username: string, other: string, now: nat)
    returns (lobby: Lobby)
    requires username != "" && other != peerId
    requires Truthy(sources.lookupTxtRecord(DnsName(username)))
    ensures fresh(lobby) && lobby.Valid()
    ensures var topic := sources.lookupTxtRecord(DnsName(username)).value;
      && lobby.rootDidCache == Some(topic)
      && lobby.subscriptions == [topic]
      && lobby.events == [SecureChannelOpened]
      && lobby.pingInterval == Some(0)
      && lobby.timers == map[]
      && lobby.outbox == [Publication(topic, Ping)]
  {
    lobby := new Lobby(sources, peerId, json, crypto, sign);
    var topic := sources.lookupTxtRecord(DnsName(username)).value;
    assert ResolveStep(sources, None, Some(username)) == Step(Some(topic), Some(DnsTxt(DnsName(username))));
    lobby.OpenSecureChannel(Some(username));
    assert lobby.subscriptions == [topic] && lobby.timers == map[0 := topic] && lobby.pingInterval == Some(0);
    lobby.HeartbeatTick(0);
    assert Handlers(lobby.subscriptions, topic) == 1;
    PongOpens(peerId, json, crypto, topic, other, now);
    assert Repeat(Sent(Opened), 1) == [SecureChannelOpened];
    assert map[0 := topic] - {0} == map[];
    lobby.FrameArrives(topic, other, Pong, now);
  }

  /**
   * The initiator's side of a pairing, opened twice with a username before the
   * peer answers: the `PONG` reaches both handlers, so the channel is reported
   * open twice; it stops the second heartbeat, while the first one, whose handle
   * was overwritten, is still live and pings.
   */
  method OverlappingHeartbeats(sources: Sources, peerId: string, json: JsonCodec, crypto: Crypto,
                               sign: map<string, Json> -> string, username: string, other: string, now: nat)
    returns (lobby: Lobby)
    requires username != "" && other != peerId
    requires Truthy(sources.lookupTxtRecord(DnsName(username)))
    ensures fresh(lobby) && lobby.Valid()
    ensures var topic := sources.lookupTxtRecord(DnsName(username)).value;
      && lobby.rootDidCache == Some(topic)
      && lobby.subscriptions == [topic, topic]
      && lobby.events == [SecureChannelOpened, SecureChannelOpened]
      && lobby.pingInterval == Some(1)
      && lobby.timers == map[0 := topic]
      && lobby.outbox == [Publication(topic, Ping)]
  {
    lobby := OpenedTwice(sources, peerId, json, crypto, sign, username);
    var topic := sources.lookupTxtRecord(DnsName(username)).value;
    assert Handlers(lobby.subscriptions, topic) == 2 by {
      assert lobby.subscriptions[..1] == [topic];
    }
    PongOpens(peerId, json, crypto, topic, other, now);
    assert Repeat(Sent(Opened), 2) == [SecureChannelOpened, SecureChannelOpened];
    assert map[0 := topic][1 := topic] - {1} == map[0 := topic];
    lobby.FrameArrives(topic, other, Pong, now);
    lobby.HeartbeatTick(0);
  }
}
