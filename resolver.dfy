/**
 * `rootDid` (src/Javascript/Main.js:73-99): the root DID of the session, taken
 * from a single write-once slot, or else from the first source that applies:
 * the DNS TXT record of a username, the issuer of a stored UCAN, the device DID.
 */
module Resolver {
  import opened Wrappers

  const DataRootDomain: string := "fissionuser.net"

  /** The DNS name whose TXT record holds a user's root DID. */
  function DnsName(username: string): string {
    "_did." + username + "." + DataRootDomain
  }

  /**
   * The lookup sources. `lookupTxtRecord` yields None when it finds no record;
   * `storedUcan` is the `ucan` item of localStorage (None when it is absent).
   */
  datatype Sources = Sources(
    lookupTxtRecord: string -> Option<string>,
    ucanRootIssuer: string -> string,
    deviceDid: string,
    storedUcan: Option<string>)

  /** Which source one call consulted. */
  datatype Source = DnsTxt(name: string) | UcanIssuer(ucan: string) | Device

  /** JavaScript truthiness of an optional string: present and not empty. */
  predicate Truthy(v: Option<string>) {
    v.Some? && v.value != ""
  }

  /** The cache after one call (which is also what the call returns) and the source it consulted. */
  datatype Step = Step(cache: Option<string>, consulted: Option<Source>)

  function ResolveStep(src: Sources, cache: Option<string>, maybeUsername: Option<string>): Step {
    if Truthy(cache) then Step(cache, None)
    else if Truthy(maybeUsername) then
      var name := DnsName(maybeUsername.value);
      Step(src.lookupTxtRecord(name), Some(DnsTxt(name)))
    else if Truthy(src.storedUcan) then
      Step(Some(src.ucanRootIssuer(src.storedUcan.value)), Some(UcanIssuer(src.storedUcan.value)))
    else Step(Some(src.deviceDid), Some(Device))
  }

  /** A filled slot is returned as it is, whatever the argument, and no source is consulted. */
  lemma CachedValueWins(src: Sources, cache: Option<string>, maybeUsername: Option<string>)
    requires Truthy(cache)
    ensures ResolveStep(src, cache, maybeUsername) == Step(cache, None)
  {}

  /** An empty slot consults exactly one source, in the fixed order username, stored UCAN, device. */
  lemma EmptyCachePrecedence(src: Sources, cache: Option<string>, maybeUsername: Option<string>)
    requires !Truthy(cache)
    ensures var r := ResolveStep(src, cache, maybeUsername);
      && (Truthy(maybeUsername) ==>
            r == Step(src.lookupTxtRecord(DnsName(maybeUsername.value)), Some(DnsTxt(DnsName(maybeUsername.value)))))
      && (!Truthy(maybeUsername) && Truthy(src.storedUcan) ==>
            r == Step(Some(src.ucanRootIssuer(src.storedUcan.value)), Some(UcanIssuer(src.storedUcan.value))))
      && (!Truthy(maybeUsername) && !Truthy(src.storedUcan) ==>
            r == Step(Some(src.deviceDid), Some(Device)))
  {}

  /** Successive calls: the value each returns, and the sources consulted along the way. */
  datatype Run = Run(results: seq<Option<string>>, cache: Option<string>, consulted: seq<Source>)

  function Replay(src: Sources, cache: Option<string>, calls: seq<Option<string>>): (r: Run)
    ensures |r.results| == |calls|
    decreases |calls|
  {
    if calls == [] then Run([], cache, [])
    else
      var step := ResolveStep(src, cache, calls[0]);
      var rest := Replay(src, step.cache, calls[1..]);
      var here := if step.consulted.Some? then [step.consulted.value] else [];
      Run([step.cache] + rest.results, rest.cache, here + rest.consulted)
  }

  /** Once the slot holds a truthy DID, every later call returns it and nothing is looked up again. */
  lemma {:induction false} StaleForever(src: Sources, cache: Option<string>, calls: seq<Option<string>>)
    requires Truthy(cache)
    ensures Replay(src, cache, calls).cache == cache
    ensures Replay(src, cache, calls).consulted == []
    ensures forall i :: 0 <= i < |calls| ==> Replay(src, cache, calls).results[i] == cache
    decreases |calls|
  {
    if calls != [] {
      StaleForever(src, cache, calls[1..]);
    }
  }

  /**
   * The first call that fills the slot fixes the root DID for the session: e.g.
   * after `rootDid("alice")` succeeds, `rootDid("bob")` and `rootDid()` return alice's DID.
   */
  lemma FirstFillFixesRootDid(src: Sources, cache: Option<string>, first: Option<string>, later: seq<Option<string>>)
    requires Truthy(ResolveStep(src, cache, first).cache)
    ensures var r := Replay(src, cache, [first] + later);
      forall i :: 0 <= i < |r.results| ==> r.results[i] == ResolveStep(src, cache, first).cache
    ensures |Replay(src, cache, [first] + later).consulted| <= 1
  {
    var filled := ResolveStep(src, cache, first).cache;
    assert ([first] + later)[1..] == later;
    StaleForever(src, filled, later);
  }
}
