/**
 * JavaScript values as they cross the Elm ports and the wire: the results of
 * `JSON.parse`, object spread (`{ ...value }`) and the message augmentation of
 * `gotSecureChannelMessage` (src/Javascript/Main.js:217-225).
 */
module Json {
  import opened Wrappers

  datatype Json =
    | JNull
    | JBool(b: bool)
    | JNumber(n: real)
    | JString(s: string)
    | JArray(items: seq<Json>)
    | JObject(fields: map<string, Json>)

  /** `JSON.parse` (None where it throws SyntaxError) and `JSON.stringify` of a plain object. */
  datatype JsonCodec = JsonCodec(parse: string -> Option<Json>, stringify: map<string, Json> -> string)

  function DigitChar(d: nat): (c: char)
    requires d < 10
  {
    ('0' as int + d) as char
  }

  /** The property key of an array or string index: its decimal representation. */
  function IndexKey(n: nat): (s: string)
    ensures |s| >= 1
    ensures s[|s| - 1] == DigitChar(n % 10)
  {
    if n < 10 then [DigitChar(n)] else IndexKey(n / 10) + [DigitChar(n % 10)]
  }

  lemma {:induction false} IndexKeyShort(n: nat)
    ensures |IndexKey(n)| == 1 <==> n < 10
  {
    if n >= 10 {
      assert |IndexKey(n)| == |IndexKey(n / 10)| + 1;
    }
  }

  /** Distinct indices give distinct keys, so spreading never loses an element. */
  lemma {:induction false} IndexKeyInjective(m: nat, n: nat)
    requires IndexKey(m) == IndexKey(n)
    ensures m == n
    decreases m
  {
    IndexKeyShort(m);
    IndexKeyShort(n);
    var s := IndexKey(m);
    assert DigitChar(m % 10) == DigitChar(n % 10);
    if m >= 10 {
      assert s[..|s| - 1] == IndexKey(m / 10);
      assert s[..|s| - 1] == IndexKey(n / 10);
      IndexKeyInjective(m / 10, n / 10);
    }
  }

  /** The own enumerable index properties of a list of elements: `"0"`, `"1"`, ... */
  function IndexedFields(xs: seq<Json>): map<string, Json> {
    if xs == [] then map[]
    else
      var n := |xs| - 1;
      IndexedFields(xs[..n])[IndexKey(n) := xs[n]]
  }

  /** The keys of the spread are exactly the index keys. */
  lemma {:induction false} IndexedFieldsKeys(xs: seq<Json>)
    ensures IndexedFields(xs).Keys == set i | 0 <= i < |xs| :: IndexKey(i)
    decreases |xs|
  {
    if xs != [] {
      var n := |xs| - 1;
      IndexedFieldsKeys(xs[..n]);
      var before := set i | 0 <= i < n :: IndexKey(i);
      var after := set i | 0 <= i < |xs| :: IndexKey(i);
      assert IndexedFields(xs) == IndexedFields(xs[..n])[IndexKey(n) := xs[n]];
      assert after == before + {IndexKey(n)} by {
        forall k | k in after ensures k in before + {IndexKey(n)} {
          var i :| 0 <= i < |xs| && IndexKey(i) == k;
          if i < n { assert k in before; }
        }
      }
    }
  }

  lemma {:induction false} IndexedFieldsAt(xs: seq<Json>, i: nat)
    requires i < |xs|
    ensures IndexKey(i) in IndexedFields(xs) && IndexedFields(xs)[IndexKey(i)] == xs[i]
    decreases |xs|
  {
    var n := |xs| - 1;
    if i < n {
      IndexedFieldsAt(xs[..n], i);
      if IndexKey(i) == IndexKey(n) {
        IndexKeyInjective(i, n);
      }
    }
  }

  function CharStrings(s: string): (xs: seq<Json>)
    ensures |xs| == |s|
  {
    seq(|s|, i requires 0 <= i < |s| => JString([s[i]]))
  }

  /** `{ ...j }`: an object's own fields, the indices of a string or array, nothing for other values. */
  function Spread(j: Json): map<string, Json> {
    match j
    case JObject(fields) => fields
    case JArray(items) => IndexedFields(items)
    case JString(s) => IndexedFields(CharStrings(s))
    case _ => map[]
  }

  lemma SpreadArray(items: seq<Json>, i: nat)
    requires i < |items|
    ensures IndexKey(i) in Spread(JArray(items)) && Spread(JArray(items))[IndexKey(i)] == items[i]
  {
    IndexedFieldsAt(items, i);
  }

  /** The message sent on the `gotSecureChannelMessage` port: the parsed fields, then `from` and `timestamp`. */
  function Augment(fields: map<string, Json>, from: string, now: nat): (m: map<string, Json>)
    ensures m.Keys == fields.Keys + {"from", "timestamp"}
    ensures m["from"] == JString(from) && m["timestamp"] == JNumber(now as real)
    ensures forall k :: k in fields && k != "from" && k != "timestamp" ==> m[k] == fields[k]
  {
    fields["from" := JString(from)]["timestamp" := JNumber(now as real)]
  }
}
