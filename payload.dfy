/**
 * `prepareData` (src/Javascript/Main.js:244-266): fills the `did` and `signature`
 * placeholders of an outgoing message and serialises it.
 */
module Payload {
  import opened Json

  /** A property of the object literal built by spread: `undefined` or a JSON value. */
  datatype Prop = Undefined | Defined(value: Json)

  /** `{ ...data }`: every field of the input, as a defined property. */
  function Lift(data: map<string, Json>): (obj: map<string, Prop>)
    ensures obj.Keys == data.Keys
  {
    map k | k in data :: Defined(data[k])
  }

  /** What `JSON.stringify` keeps of an object: the properties that are not `undefined`. */
  function DropUndefined(obj: map<string, Prop>): (m: map<string, Json>)
    ensures forall k :: k in m <==> k in obj && obj[k].Defined?
  {
    map k | k in obj && obj[k].Defined? :: obj[k].value
  }

  /** The payload handed to the keystore: a copy of the input with `signature` deleted. */
  function PayloadToSign(data: map<string, Json>): (p: map<string, Json>)
    ensures p.Keys == data.Keys - {"signature"}
    ensures forall k :: k in p ==> p[k] == data[k]
  {
    data - {"signature"}
  }

  /**
   * The object `prepareData` serialises, with `undefined` properties dropped.
   * `deviceDid` is `sdk.core.did()`; `sign` is the keystore's signature.
   * A placeholder is any present key, whatever its value (`null` included).
   */
  function Prepare(data: map<string, Json>, deviceDid: string, sign: map<string, Json> -> string): (out: map<string, Json>)
    ensures "did" in out <==> "did" in data
    ensures "did" in out ==> out["did"] == JString(deviceDid)
    ensures "signature" in out <==> "signature" in data
    ensures "signature" in out ==> out["signature"] == JString(sign(PayloadToSign(data)))
    ensures forall k :: k != "did" && k != "signature" ==> (k in out <==> k in data)
    ensures forall k :: k in data && k != "did" && k != "signature" ==> out[k] == data[k]
  {
    var signature := if "signature" in data then Defined(JString(sign(PayloadToSign(data)))) else Undefined;
    var did := if "did" in data then Defined(JString(deviceDid)) else Undefined;
    DropUndefined(Lift(data)["did" := did]["signature" := signature])
  }

  /** The signed payload still holds the caller's `did` placeholder, not the device DID. */
  lemma SignedPayloadKeepsPlaceholder(data: map<string, Json>)
    requires "did" in data
    ensures "did" in PayloadToSign(data) && PayloadToSign(data)["did"] == data["did"]
    ensures "signature" !in PayloadToSign(data)
  {}

  /** `prepareData`: the JSON text published on the channel. */
  function PrepareData(json: JsonCodec, data: map<string, Json>, deviceDid: string, sign: map<string, Json> -> string): string {
    json.stringify(Prepare(data, deviceDid, sign))
  }

  /** `{a: 1, signature: null}` becomes `{a: 1, signature: sign({a: 1})}` and gains no `did`. */
  lemma SignaturePlaceholderExample(deviceDid: string, sign: map<string, Json> -> string)
    ensures var out := Prepare(map["a" := JNumber(1.0), "signature" := JNull], deviceDid, sign);
      out == map["a" := JNumber(1.0), "signature" := JString(sign(map["a" := JNumber(1.0)]))]
  {
    var data := map["a" := JNumber(1.0), "signature" := JNull];
    assert PayloadToSign(data) == map["a" := JNumber(1.0)];
    var out := Prepare(data, deviceDid, sign);
    assert out.Keys == {"a", "signature"};
  }
}
