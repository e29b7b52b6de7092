/** The relay to the user's own SSH agents (internal/agent/upstream.go): a table of
    which endpoint advertised which key lets Sign and Remove skip the search over
    every endpoint. The table is proved to agree with that search, and the cases
    where it cannot are given exactly. */
module UpstreamAgent {
  import opened Wrappers

  datatype Endpoint = Endpoint(address: string)
  datatype Blob = Blob(bytes: string)      // a marshalled public key

  const UNKNOWN := Endpoint("")

  datatype Entry = Entry(blob: Blob, comment: string)

  /** One agent process. `answers`: it can be dialled, passes the peer check and
      lists. `obeys`: it then also does what it is asked. A locked agent lists nothing. */
  datatype Agent = Agent(answers: bool, locked: bool, obeys: bool, keys: seq<Entry>) {
    function Offers(): seq<Entry> {
      if locked then [] else keys
    }
  }

  type World = map<Endpoint, Agent>

  const NOBODY := Agent(false, false, false, [])

  function At(w: World, ep: Endpoint): Agent {
    if ep in w then w[ep] else NOBODY
  }

  predicate Has(entries: seq<Entry>, blob: Blob) {
    exists e :: e in entries && e.blob == blob
  }

  predicate Advertises(w: World, ep: Endpoint, blob: Blob) {
    Has(At(w, ep).Offers(), blob)
  }

  // ------------------------------------------------------------- the listing

  /** Everything the endpoints that answered advertise, in order, repeats included. */
  function Offered(w: World, eps: seq<Endpoint>): seq<Entry> {
    if eps == [] then []
    else (if At(w, eps[0]).answers then At(w, eps[0]).Offers() else []) + Offered(w, eps[1..])
  }

  predicate IsFirst(offered: seq<Entry>, j: nat)
    requires j < |offered|
  {
    !Has(offered[..j], offered[j].blob)
  }

  /** The entries of offered[..n] that no earlier entry repeats. */
  function Firsts(offered: seq<Entry>, n: nat): seq<Entry>
    requires n <= |offered|
  {
    if n == 0 then []
    else Firsts(offered, n - 1) + if IsFirst(offered, n - 1) then [offered[n - 1]] else []
  }

  function Silent(w: World, eps: seq<Endpoint>): seq<Endpoint> {
    if eps == [] then []
    else (if At(w, eps[0]).answers then [] else [eps[0]]) + Silent(w, eps[1..])
  }

  /** The first endpoint that answered and advertised `blob`. */
  function Home(w: World, eps: seq<Endpoint>, blob: Blob): Option<Endpoint> {
    if eps == [] then None
    else if At(w, eps[0]).answers && Advertises(w, eps[0], blob) then Some(eps[0])
    else Home(w, eps[1..], blob)
  }

  datatype Table = Table(owner: map<Blob, Endpoint>, listed: bool)

  const FORGOTTEN := Table(map[], false)

  /** The table a scan of `eps` in world `w` leaves. */
  function TableOf(w: World, eps: seq<Endpoint>): Table {
    var blobs := set e | e in Offered(w, eps) :: e.blob;
    Table(map b | b in blobs && Home(w, eps, b).Some? :: Home(w, eps, b).value, Silent(w, eps) == [])
  }

  datatype Listing = Listed(ids: seq<Entry>) | ListFailed(silent: seq<Endpoint>)

  function ListingOf(autoDetected: bool, w: World, eps: seq<Endpoint>): Listing {
    var offered := Offered(w, eps);
    if offered == [] && Silent(w, eps) != [] && !autoDetected then ListFailed(Silent(w, eps))
    else Listed(Firsts(offered, |offered|))
  }

  // ------------------------------------------------------- looking for a key

  datatype Search = Found(endpoint: Endpoint) | NotOurs | Failed(errors: seq<Endpoint>)

  predicate Serves(w: World, ep: Endpoint, blob: Blob) {
    At(w, ep).answers && Advertises(w, ep, blob) && At(w, ep).obeys
  }

  predicate Errs(w: World, ep: Endpoint, blob: Blob) {
    !At(w, ep).answers || (Advertises(w, ep, blob) && !At(w, ep).obeys)
  }

  function FirstServing(w: World, eps: seq<Endpoint>, blob: Blob): Option<Endpoint> {
    if eps == [] then None
    else if Serves(w, eps[0], blob) then Some(eps[0])
    else FirstServing(w, eps[1..], blob)
  }

  function Erring(w: World, eps: seq<Endpoint>, blob: Blob): seq<Endpoint> {
    if eps == [] then []
    else (if Errs(w, eps[0], blob) then [eps[0]] else []) + Erring(w, eps[1..], blob)
  }

  /** Trying every endpoint of `eps` in order. */
  function Exhaustive(w: World, eps: seq<Endpoint>, blob: Blob): Search {
    var found := FirstServing(w, eps, blob);
    if found.Some? then Found(found.value)
    else if Erring(w, eps, blob) != [] then Failed(Erring(w, eps, blob))
    else NotOurs
  }

  /** The endpoints the table lets an operation on `blob` try. */
  function Targets(t: Table, eps: seq<Endpoint>, blob: Blob): seq<Endpoint> {
    if blob in t.owner && t.owner[blob] != UNKNOWN then [t.owner[blob]]
    else if blob in t.owner || !t.listed then eps
    else []
  }

  function Routed(t: Table, w: World, eps: seq<Endpoint>, blob: Blob): Search {
    Exhaustive(w, Targets(t, eps, blob), blob)
  }

  // ------------------------------------------------- what operations leave

  function Without(entries: seq<Entry>, blob: Blob): seq<Entry> {
    if entries == [] then []
    else (if entries[0].blob == blob then [] else [entries[0]]) + Without(entries[1..], blob)
  }

  predicate CanAdd(w: World, ep: Endpoint) {
    At(w, ep).answers && !At(w, ep).locked && At(w, ep).obeys
  }

  /** The agents after Add: only the first endpoint is ever asked. */
  function WorldAfterAdd(w: World, eps: seq<Endpoint>, entry: Entry): World {
    if eps != [] && CanAdd(w, eps[0]) then
      w[eps[0] := At(w, eps[0]).(keys := At(w, eps[0]).keys + [entry])]
    else w
  }

  function WorldAfterRemove(w: World, found: Search, blob: Blob): World {
    if found.Found? then
      w[found.endpoint := At(w, found.endpoint).(keys := Without(At(w, found.endpoint).keys, blob))]
    else w
  }

  datatype Broadcast = Clear | Lock | Unlock

  function Told(a: Agent, op: Broadcast): Agent {
    match op
    case Clear => a.(keys := [])
    case Lock => a.(locked := true)
    case Unlock => a.(locked := false)
  }

  /** An agent refuses to lock twice, to unlock when open, and to be cleared when locked. */
  predicate Accepts(a: Agent, op: Broadcast) {
    a.answers && a.obeys && (op == Unlock <==> a.locked)
  }

  function WorldAfter(w: World, eps: seq<Endpoint>, op: Broadcast): World
    decreases |eps|
  {
    if eps == [] then w else WorldAfter(Tell(w, eps[0], op), eps[1..], op)
  }

  /** The endpoints that refused, in the order asked. */
  function Refusing(w: World, eps: seq<Endpoint>, op: Broadcast): seq<Endpoint>
    decreases |eps|
  {
    if eps == [] then []
    else (if Accepts(At(w, eps[0]), op) then [] else [eps[0]]) + Refusing(Tell(w, eps[0], op), eps[1..], op)
  }

  function Tell(w: World, ep: Endpoint, op: Broadcast): World {
    if Accepts(At(w, ep), op) then w[ep := Told(At(w, ep), op)] else w
  }

  /** What the loops of Identities have built after meeting the keys `seen`. */
  ghost predicate Filed(w: World, eps: seq<Endpoint>, seen: seq<Entry>, ids: seq<Entry>, found: map<Blob, Endpoint>) {
    && ids == Firsts(seen, |seen|)
    && (forall b :: b in found <==> Has(seen, b))
    && (forall b :: b in found ==> Home(w, eps, b) == Some(found[b]))
  }

  /** Scanning the first `i` endpoints met the keys `seen` and the failures `errs`;
      a key not among those is at home only further on. */
  ghost predicate Scanned(w: World, eps: seq<Endpoint>, i: nat, seen: seq<Entry>, errs: seq<Endpoint>)
    requires i <= |eps|
  {
    && Offered(w, eps) == seen + Offered(w, eps[i..])
    && Silent(w, eps) == errs + Silent(w, eps[i..])
    && forall b :: !Has(seen, b) ==> Home(w, eps, b) == Home(w, eps[i..], b)
  }

  /** The outer loop of Identities. */
  method Scan(w: World, eps: seq<Endpoint>) returns (ids: seq<Entry>, errs: seq<Endpoint>, found: map<Blob, Endpoint>)
    ensures ids == Firsts(Offered(w, eps), |Offered(w, eps)|)
    ensures ids == [] <==> Offered(w, eps) == []
    ensures errs == Silent(w, eps)
    ensures found == TableOf(w, eps).owner
  {
    ids, errs, found := [], [], map[];
    ghost var seen: seq<Entry> := [];
    var i := 0;
    while i < |eps|
      invariant 0 <= i <= |eps|
      invariant Scanned(w, eps, i, seen, errs)
      invariant Filed(w, eps, seen, ids, found)
    {
      PastOne(w, eps, i, seen, errs);
      if !At(w, eps[i]).answers {
        errs := errs + [eps[i]];
        assert seen + [] == seen;
      } else {
        ids, found, seen := Absorb(w, eps, i, ids, found, seen, errs);
        assert errs + [] == errs;
      }
      i := i + 1;
    }
    assert eps[i..] == [];
    assert seen == Offered(w, eps) && errs == Silent(w, eps);
    FiledIsTheTable(w, eps, ids, found);
  }

  /** The inner loop of Identities: one endpoint's keys, repeats skipped. */
  method Absorb(w: World, eps: seq<Endpoint>, at: nat, ids0: seq<Entry>, found0: map<Blob, Endpoint>, ghost seen0: seq<Entry>, ghost errs: seq<Endpoint>)
      returns (ids: seq<Entry>, found: map<Blob, Endpoint>, ghost seen: seq<Entry>)
    requires at < |eps| && At(w, eps[at]).answers
    requires Filed(w, eps, seen0, ids0, found0)
    requires Scanned(w, eps, at, seen0, errs)
    ensures seen == seen0 + At(w, eps[at]).Offers()
    ensures Filed(w, eps, seen, ids, found)
  {
    var keys := At(w, eps[at]).Offers();
    ids, found := ids0, found0;
    seen := seen0 + keys;
    var j := 0;
    assert seen0 + keys[..0] == seen0;
    while j < |keys|
      invariant 0 <= j <= |keys|
      invariant Filed(w, eps, seen0 + keys[..j], ids, found)
    {
      AbsorbStep(w, eps, at, seen0, errs, j, ids, found);
      if keys[j].blob !in found {
        found := found[keys[j].blob := eps[at]];
        ids := ids + [keys[j]];
      }
      j := j + 1;
    }
    assert keys[..j] == keys;
  }

  /** The first `i` targets did not serve the key, and `errs` of them failed. */
  ghost predicate Sought(w: World, targets: seq<Endpoint>, i: nat, blob: Blob, errs: seq<Endpoint>)
    requires i <= |targets|
  {
    && FirstServing(w, targets, blob) == FirstServing(w, targets[i..], blob)
    && Erring(w, targets, blob) == errs + Erring(w, targets[i..], blob)
  }

  method SeekAmong(w: World, targets: seq<Endpoint>, blob: Blob) returns (r: Search)
    ensures r == Exhaustive(w, targets, blob)
  {
    var errs: seq<Endpoint>, i := [], 0;
    while i < |targets|
      invariant 0 <= i <= |targets|
      invariant Sought(w, targets, i, blob, errs)
    {
      SeekStep(w, targets, i, blob, errs);
      if Errs(w, targets[i], blob) {
        errs := errs + [targets[i]];
      } else if Serves(w, targets[i], blob) {
        return Found(targets[i]);
      }
      i := i + 1;
    }
    assert targets[i..] == [];
    return if |errs| > 0 then Failed(errs) else NotOurs;
  }

  /** The first `i` endpoints were told, which left world `w'` and the refusals `failed`. */
  ghost predicate Telling(w: World, w': World, eps: seq<Endpoint>, i: nat, op: Broadcast, failed: seq<Endpoint>)
    requires i <= |eps|
  {
    && WorldAfter(w, eps, op) == WorldAfter(w', eps[i..], op)
    && Refusing(w, eps, op) == failed + Refusing(w', eps[i..], op)
  }

  method TellEach(w: World, eps: seq<Endpoint>, op: Broadcast) returns (failed: seq<Endpoint>, w': World)
    ensures failed == Refusing(w, eps, op)
    ensures w' == WorldAfter(w, eps, op)
  {
    failed, w' := [], w;
    var i := 0;
    while i < |eps|
      invariant 0 <= i <= |eps|
      invariant Telling(w, w', eps, i, op, failed)
    {
      TellStep(w, w', eps, i, op, failed);
      if !Accepts(At(w', eps[i]), op) {
        failed := failed + [eps[i]];
      } else {
        w' := Tell(w', eps[i], op);
      }
      i := i + 1;
    }
    assert eps[i..] == [];
  }

  /** The endpoints to relay to: the configured one, or what discovery finds. */
  function Resolve(configured: Option<Endpoint>, found: seq<Endpoint>): seq<Endpoint> {
    if configured.Some? then [configured.value] else found
  }

  /** The endpoint is one the source relays to. */
  predicate Relays(configured: Option<Endpoint>, found: seq<Endpoint>, ep: Endpoint) {
    if configured.Some? then ep == configured.value else ep in found
  }

  /** In each method `found` is what discovery would find at the time; a source with a
      configured endpoint does not look. */
  class UpstreamSource {
    const configured: Option<Endpoint>
    var owner: map<Blob, Endpoint>
    var listed: bool
    var endpoints: seq<Endpoint>

    function Routing(): Table
      reads this
    {
      Table(owner, listed)
    }

    constructor (configured: Option<Endpoint>)
      ensures Routing() == FORGOTTEN && this.configured == configured
    {
      this.configured := configured;
      owner, listed, endpoints := map[], false, [];
    }

    method Remember(owner: map<Blob, Endpoint>, complete: bool)
      modifies this`owner, this`listed
      ensures Routing() == Table(owner, complete)
    {
      this.owner, listed := owner, complete;
    }

    method Forget()
      modifies this`owner, this`listed
      ensures Routing() == FORGOTTEN
    {
      owner, listed := map[], false;
    }

    method CurrentEndpoints(found: seq<Endpoint>) returns (eps: seq<Endpoint>)
      modifies this`endpoints
      ensures eps == Resolve(configured, found) && endpoints == eps
      ensures configured.Some? ==> eps == [configured.value]
      ensures configured.None? ==> eps == found
    {
      eps := Resolve(configured, found);
      endpoints := eps;
    }

    method Identities(w: World, found: seq<Endpoint>) returns (r: Listing)
      modifies this
      ensures var eps := Resolve(configured, found);
        && Routing() == TableOf(w, eps) && endpoints == eps
        && r == ListingOf(configured.None?, w, eps)
      ensures r.Listed? ==> forall b :: Has(r.ids, b) <==> Listable(configured, w, found, b)
    {
      ListedExactly(configured, w, found);
      var eps := CurrentEndpoints(found);
      if |eps| == 0 {
        Remember(map[], true);
        return Listed([]);
      }
      var ids, errs, owner := Scan(w, eps);
      Remember(owner, |errs| == 0);
      if |ids| == 0 && |errs| > 0 {
        return if configured.None? then Listed([]) else ListFailed(errs);
      }
      return Listed(ids);
    }

    /** The endpoint the table names, and whether the key can be ours at all. */
    method MightOwn(blob: Blob) returns (endpoint: Endpoint, might: bool)
      ensures !might <==> blob !in owner && listed
      ensures endpoint == if blob in owner then owner[blob] else UNKNOWN
    {
      if blob in owner {
        return owner[blob], true;
      }
      return UNKNOWN, !listed;
    }

    method TargetsFor(known: Endpoint, found: seq<Endpoint>) returns (targets: seq<Endpoint>)
      modifies this`endpoints
      ensures targets == if known != UNKNOWN then [known] else Resolve(configured, found)
      ensures endpoints == if known != UNKNOWN then old(endpoints) else Resolve(configured, found)
    {
      if known != UNKNOWN {
        return [known];
      }
      targets := CurrentEndpoints(found);
    }

    method Sign(w: World, found: seq<Endpoint>, blob: Blob) returns (r: Search)
      modifies this`endpoints
      ensures r == Routed(Routing(), w, Resolve(configured, found), blob)
      ensures Routing() == FORGOTTEN ==> (r.Found? <==> Signable(configured, w, found, blob))
    {
      SignedExactly(configured, w, found, blob);
      r := Seek(w, found, blob);
    }

    method Remove(w: World, found: seq<Endpoint>, blob: Blob) returns (r: Search, w': World)
      modifies this
      ensures r == Routed(old(Routing()), w, Resolve(configured, found), blob)
      ensures w' == WorldAfterRemove(w, r, blob)
      ensures Routing() == if r.Found? then FORGOTTEN else old(Routing())
    {
      r := Seek(w, found, blob);
      w' := WorldAfterRemove(w, r, blob);
      if r.Found? {
        Forget();
      }
    }

    method Seek(w: World, found: seq<Endpoint>, blob: Blob) returns (r: Search)
      modifies this`endpoints
      ensures r == Routed(Routing(), w, Resolve(configured, found), blob)
    {
      var endpoint, might := MightOwn(blob);
      if !might {
        return NotOurs;
      }
      var targets := TargetsFor(endpoint, found);
      assert targets == Targets(Routing(), Resolve(configured, found), blob);
      r := SeekAmong(w, targets, blob);
    }

    method Add(w: World, found: seq<Endpoint>, entry: Entry) returns (ok: bool, w': World)
      modifies this
      ensures var eps := Resolve(configured, found);
        && (ok <==> eps != [] && CanAdd(w, eps[0]))
        && endpoints == eps
        && w' == WorldAfterAdd(w, eps, entry)
      ensures Routing() == if ok then FORGOTTEN else old(Routing())
    {
      var eps := CurrentEndpoints(found);
      w' := WorldAfterAdd(w, eps, entry);
      ok := |eps| > 0 && CanAdd(w, eps[0]);
      if ok {
        Forget();
      }
    }

    /** RemoveAll, Lock and Unlock on every endpoint; only RemoveAll drops the table. */
    method Announce(w: World, found: seq<Endpoint>, op: Broadcast) returns (ok: bool, failed: seq<Endpoint>, w': World)
      modifies this
      ensures var eps := Resolve(configured, found);
        && failed == Refusing(w, eps, op)
        && (ok <==> eps != [] && failed == [])
        && endpoints == eps
        && w' == WorldAfter(w, eps, op)
      ensures forall ep :: At(w', ep) == if Relays(configured, found, ep) && Accepts(At(w, ep), op) then Told(At(w, ep), op) else At(w, ep)
      ensures Routing() == if op == Clear then FORGOTTEN else old(Routing())
    {
      ToldExactly(configured, w, found, op);
      var eps := CurrentEndpoints(found);
      failed, w' := TellEach(w, eps, op);
      if op == Clear {
        Forget();
      }
      ok := |eps| > 0 && |failed| == 0;
    }
  }

  // ------------------------------------------------------ facts of the scan

  lemma TellStep(w: World, w': World, eps: seq<Endpoint>, i: nat, op: Broadcast, failed: seq<Endpoint>)
    requires i < |eps| && Telling(w, w', eps, i, op, failed)
    ensures if Accepts(At(w', eps[i]), op) then Telling(w, Tell(w', eps[i], op), eps, i + 1, op, failed)
            else Telling(w, w', eps, i + 1, op, failed + [eps[i]])
  {
    assert eps[i..][0] == eps[i] && eps[i..][1..] == eps[i + 1..];
    if !Accepts(At(w', eps[i]), op) {
      var rest := Refusing(w', eps[i + 1..], op);
      assert failed + ([eps[i]] + rest) == failed + [eps[i]] + rest;
    }
  }

  lemma SeekStep(w: World, eps: seq<Endpoint>, i: nat, blob: Blob, errs: seq<Endpoint>)
    requires i < |eps| && Sought(w, eps, i, blob, errs)
    ensures if Errs(w, eps[i], blob) then Sought(w, eps, i + 1, blob, errs + [eps[i]])
            else if Serves(w, eps[i], blob) then FirstServing(w, eps, blob) == Some(eps[i])
            else Sought(w, eps, i + 1, blob, errs)
  {
    assert eps[i..][0] == eps[i] && eps[i..][1..] == eps[i + 1..];
    if Errs(w, eps[i], blob) {
      assert errs + ([eps[i]] + Erring(w, eps[i + 1..], blob)) == errs + [eps[i]] + Erring(w, eps[i + 1..], blob);
    }
  }

  lemma PastOne(w: World, eps: seq<Endpoint>, i: nat, seen: seq<Entry>, errs: seq<Endpoint>)
    requires i < |eps| && Scanned(w, eps, i, seen, errs)
    ensures At(w, eps[i]).answers ==> Scanned(w, eps, i + 1, seen + At(w, eps[i]).Offers(), errs)
    ensures !At(w, eps[i]).answers ==> Scanned(w, eps, i + 1, seen, errs + [eps[i]])
  {
    assert eps[i..][1..] == eps[i + 1..];
    if At(w, eps[i]).answers {
      var keys := At(w, eps[i]).Offers();
      assert Silent(w, eps[i..]) == Silent(w, eps[i + 1..]);
      assert seen + (keys + Offered(w, eps[i + 1..])) == seen + keys + Offered(w, eps[i + 1..]);
      forall b | !Has(seen + keys, b) ensures Home(w, eps, b) == Home(w, eps[i + 1..], b) {
        HasInParts(seen, keys, b);
      }
    } else {
      assert errs + ([eps[i]] + Silent(w, eps[i + 1..])) == errs + [eps[i]] + Silent(w, eps[i + 1..]);
    }
  }

  lemma StillHome(w: World, eps: seq<Endpoint>, i: nat, seen: seq<Entry>, errs: seq<Endpoint>, j: nat)
    requires i < |eps| && At(w, eps[i]).answers && Scanned(w, eps, i, seen, errs)
    requires j < |At(w, eps[i]).Offers()|
    ensures var keys := At(w, eps[i]).Offers();
      Has(seen + keys[..j], keys[j].blob) || Home(w, eps, keys[j].blob) == Some(eps[i])
  {
    var keys := At(w, eps[i]).Offers();
    HasInParts(seen, keys[..j], keys[j].blob);
    assert Has(keys, keys[j].blob);
  }

  lemma AbsorbStep(w: World, eps: seq<Endpoint>, i: nat, seen: seq<Entry>, errs: seq<Endpoint>, j: nat, ids: seq<Entry>, found: map<Blob, Endpoint>)
    requires i < |eps| && At(w, eps[i]).answers && Scanned(w, eps, i, seen, errs)
    requires j < |At(w, eps[i]).Offers()|
    requires Filed(w, eps, seen + At(w, eps[i]).Offers()[..j], ids, found)
    ensures var keys := At(w, eps[i]).Offers();
      if keys[j].blob in found then Filed(w, eps, seen + keys[..j + 1], ids, found)
      else Filed(w, eps, seen + keys[..j + 1], ids + [keys[j]], found[keys[j].blob := eps[i]])
  {
    var keys := At(w, eps[i]).Offers();
    StillHome(w, eps, i, seen, errs, j);
    FileOne(w, eps, seen + keys[..j], ids, found, keys[j], eps[i]);
    assert seen + keys[..j] + [keys[j]] == seen + keys[..j + 1];
  }

  lemma FileOne(w: World, eps: seq<Endpoint>, seen: seq<Entry>, ids: seq<Entry>, found: map<Blob, Endpoint>, e: Entry, ep: Endpoint)
    requires Filed(w, eps, seen, ids, found)
    requires Has(seen, e.blob) || Home(w, eps, e.blob) == Some(ep)
    ensures e.blob in found ==> Filed(w, eps, seen + [e], ids, found)
    ensures e.blob !in found ==> Filed(w, eps, seen + [e], ids + [e], found[e.blob := ep])
  {
    OneMoreOffer(seen, e);
  }

  lemma FiledIsTheTable(w: World, eps: seq<Endpoint>, ids: seq<Entry>, found: map<Blob, Endpoint>)
    requires Filed(w, eps, Offered(w, eps), ids, found)
    ensures found == TableOf(w, eps).owner
    ensures ids == [] <==> Offered(w, eps) == []
  {
    if Offered(w, eps) != [] {
      FirstsStart(Offered(w, eps), |Offered(w, eps)|);
    }
  }

  lemma OneMoreOffer(seen: seq<Entry>, e: Entry)
    ensures Firsts(seen + [e], |seen| + 1) == Firsts(seen, |seen|) + if Has(seen, e.blob) then [] else [e]
    ensures forall b :: Has(seen + [e], b) <==> Has(seen, b) || b == e.blob
  {
    FirstsOfAPrefix(seen, seen + [e], |seen|);
    assert (seen + [e])[..|seen|] == seen;
    forall b ensures Has(seen + [e], b) <==> Has(seen, b) || b == e.blob {
      HasInParts(seen, [e], b);
      assert e in [e];
    }
  }

  lemma {:induction false} FirstsOfAPrefix(a: seq<Entry>, b: seq<Entry>, n: nat)
    requires n <= |a| <= |b| && b[..|a|] == a
    ensures Firsts(a, n) == Firsts(b, n)
  {
    if n > 0 {
      FirstsOfAPrefix(a, b, n - 1);
      assert b[..|a|][..n - 1] == b[..n - 1];
      assert a[n - 1] == b[..|a|][n - 1] == b[n - 1];
    }
  }

  lemma {:induction false} FirstsStart(offered: seq<Entry>, n: nat)
    requires 0 < n <= |offered|
    ensures Firsts(offered, n) != []
  {
    if n > 1 {
      FirstsStart(offered, n - 1);
    }
  }

  lemma {:induction false} OfferedFromAHome(w: World, eps: seq<Endpoint>, blob: Blob)
    ensures Has(Offered(w, eps), blob) <==> Home(w, eps, blob).Some?
  {
    if eps != [] {
      OfferedFromAHome(w, eps[1..], blob);
      var first := if At(w, eps[0]).answers then At(w, eps[0]).Offers() else [];
      HasInParts(first, Offered(w, eps[1..]), blob);
    }
  }

  lemma HasInParts(a: seq<Entry>, b: seq<Entry>, blob: Blob)
    ensures Has(a + b, blob) <==> Has(a, blob) || Has(b, blob)
  {
    assert forall e :: e in a + b <==> e in a || e in b;
  }

  // ------------------------------------- the endpoints, configured or found

  /** Some endpoint relayed to answers and advertises the key. */
  ghost predicate Listable(configured: Option<Endpoint>, w: World, found: seq<Endpoint>, blob: Blob) {
    exists ep :: Relays(configured, found, ep) && At(w, ep).answers && Advertises(w, ep, blob)
  }

  /** Some endpoint relayed to serves the key. */
  ghost predicate Signable(configured: Option<Endpoint>, w: World, found: seq<Endpoint>, blob: Blob) {
    exists ep :: Relays(configured, found, ep) && Serves(w, ep, blob)
  }

  lemma ResolveIsRelays(configured: Option<Endpoint>, found: seq<Endpoint>)
    ensures forall ep :: ep in Resolve(configured, found) <==> Relays(configured, found, ep)
  {
  }

  lemma {:induction false} HomeExists(w: World, eps: seq<Endpoint>, blob: Blob)
    ensures Home(w, eps, blob).Some? <==> exists ep :: ep in eps && At(w, ep).answers && Advertises(w, ep, blob)
  {
    if eps != [] {
      HomeExists(w, eps[1..], blob);
      assert eps == [eps[0]] + eps[1..];
    }
  }

  lemma {:induction false} FirstServingExists(w: World, eps: seq<Endpoint>, blob: Blob)
    ensures FirstServing(w, eps, blob).Some? <==> exists ep :: ep in eps && Serves(w, ep, blob)
  {
    if eps != [] {
      FirstServingExists(w, eps[1..], blob);
      assert eps == [eps[0]] + eps[1..];
    }
  }

  lemma {:induction false} FirstsHaveAll(offered: seq<Entry>, n: nat, blob: Blob)
    requires n <= |offered|
    ensures Has(Firsts(offered, n), blob) <==> Has(offered[..n], blob)
  {
    if n > 0 {
      FirstsHaveAll(offered, n - 1, blob);
      FirstsHaveAll(offered, n - 1, offered[n - 1].blob);
      assert offered[..n] == offered[..n - 1] + [offered[n - 1]];
      assert offered[n - 1] in [offered[n - 1]];
      HasInParts(offered[..n - 1], [offered[n - 1]], blob);
      HasInParts(Firsts(offered, n - 1), [offered[n - 1]], blob);
    }
  }

  /** A listing that does not fail names a key exactly if an endpoint relayed to answers
      with it: any of those discovered, or the configured one alone. */
  lemma ListedExactly(configured: Option<Endpoint>, w: World, found: seq<Endpoint>)
    ensures var r := ListingOf(configured.None?, w, Resolve(configured, found));
      r.Listed? ==> forall b :: Has(r.ids, b) <==> Listable(configured, w, found, b)
  {
    var eps := Resolve(configured, found);
    var offered := Offered(w, eps);
    assert offered[..|offered|] == offered;
    ResolveIsRelays(configured, found);
    forall b ensures Has(Firsts(offered, |offered|), b) <==> Listable(configured, w, found, b) {
      FirstsHaveAll(offered, |offered|, b);
      OfferedFromAHome(w, eps, b);
      HomeExists(w, eps, b);
    }
  }

  /** With nothing known, Sign finds a key exactly if an endpoint relayed to serves it. */
  lemma SignedExactly(configured: Option<Endpoint>, w: World, found: seq<Endpoint>, blob: Blob)
    ensures Routed(FORGOTTEN, w, Resolve(configured, found), blob).Found? <==> Signable(configured, w, found, blob)
  {
    ResolveIsRelays(configured, found);
    FirstServingExists(w, Resolve(configured, found), blob);
  }

  /** A broadcast reaches every listed agent that accepts it, whatever the others
      do and however often an endpoint is listed, and no other agent. */
  lemma {:induction false} BroadcastReachesEach(w: World, eps: seq<Endpoint>, op: Broadcast, ep: Endpoint)
    ensures At(WorldAfter(w, eps, op), ep)
         == if ep in eps && Accepts(At(w, ep), op) then Told(At(w, ep), op) else At(w, ep)
    decreases |eps|
  {
    if eps != [] {
      BroadcastReachesEach(Tell(w, eps[0], op), eps[1..], op, ep);
      assert eps == [eps[0]] + eps[1..];
    }
  }

  /** And so every endpoint relayed to. */
  lemma ToldExactly(configured: Option<Endpoint>, w: World, found: seq<Endpoint>, op: Broadcast)
    ensures forall ep :: At(WorldAfter(w, Resolve(configured, found), op), ep)
                      == if Relays(configured, found, ep) && Accepts(At(w, ep), op) then Told(At(w, ep), op) else At(w, ep)
  {
    ResolveIsRelays(configured, found);
    forall ep
      ensures At(WorldAfter(w, Resolve(configured, found), op), ep)
           == if Relays(configured, found, ep) && Accepts(At(w, ep), op) then Told(At(w, ep), op) else At(w, ep)
    {
      BroadcastReachesEach(w, Resolve(configured, found), op, ep);
    }
  }
}
