/** What the upstream relay's routing table promises over whole histories of
    listings, signatures, mutations and changes made behind the relay's back. */
module UpstreamRouting {
  import opened Wrappers
  import opened UpstreamAgent

  // ------------------------------------------------------------- the listing

  /** The listing holds each key once, and all the keys offered. */
  lemma {:induction false} FirstsAreExact(offered: seq<Entry>, n: nat)
    requires n <= |offered|
    ensures forall i, j :: 0 <= i < j < |Firsts(offered, n)| ==> Firsts(offered, n)[i].blob != Firsts(offered, n)[j].blob
    ensures forall b :: Has(Firsts(offered, n), b) <==> Has(offered[..n], b)
  {
    if n > 0 {
      FirstsAreExact(offered, n - 1);
      var ids, e := Firsts(offered, n - 1), offered[n - 1];
      assert offered[..n] == offered[..n - 1] + [e];
      assert e in [e];
      forall b ensures Has(Firsts(offered, n), b) <==> Has(offered[..n], b) {
        HasInParts(offered[..n - 1], [e], b);
        HasInParts(ids, [e], b);
      }
      forall i | 0 <= i < |ids| && IsFirst(offered, n - 1) ensures ids[i].blob != e.blob {
        assert ids[i] in ids;
      }
    }
  }

  /** Its entries are the first offers of their keys, in the order offered: `pos`
      are their places among the offers. */
  lemma {:induction false} FirstsKeepOrder(offered: seq<Entry>, n: nat) returns (pos: seq<nat>)
    requires n <= |offered|
    ensures |pos| == |Firsts(offered, n)|
    ensures forall i, j :: 0 <= i < j < |pos| ==> pos[i] < pos[j]
    ensures forall i :: 0 <= i < |pos| ==> pos[i] < n
    ensures forall i :: 0 <= i < |pos| ==> Firsts(offered, n)[i] == offered[pos[i]]
    ensures forall i :: 0 <= i < |pos| ==> IsFirst(offered, pos[i])
  {
    pos := [];
    if n > 0 {
      pos := FirstsKeepOrder(offered, n - 1);
      if IsFirst(offered, n - 1) {
        ghost var before := pos;
        pos := before + [n - 1];
        assert forall i :: 0 <= i < |pos| ==> pos[i] == if i < |before| then before[i] else n - 1;
      }
    }
  }

  /** A listing names a key exactly when an endpoint that answered advertises it,
      and the table attributes it to the first such endpoint. */
  lemma ListingMatchesTable(auto: bool, w: World, eps: seq<Endpoint>, blob: Blob)
    ensures ListingOf(auto, w, eps).Listed? ==>
      (Has(ListingOf(auto, w, eps).ids, blob) <==> blob in TableOf(w, eps).owner)
    ensures blob in TableOf(w, eps).owner <==> exists i :: AnswersFirst(w, eps, i, blob)
    ensures forall i :: AnswersFirst(w, eps, i, blob) ==> TableOf(w, eps).owner[blob] == eps[i]
  {
    var offered := Offered(w, eps);
    FirstsAreExact(offered, |offered|);
    assert offered[..|offered|] == offered;
    OfferedFromAHome(w, eps, blob);
    TableIsHome(w, eps, blob);
    HomeAnswersFirst(w, eps, blob);
  }

  predicate AnswersFirst(w: World, eps: seq<Endpoint>, i: int, blob: Blob) {
    && 0 <= i < |eps| && At(w, eps[i]).answers && Advertises(w, eps[i], blob)
    && forall j :: 0 <= j < i ==> !(At(w, eps[j]).answers && Advertises(w, eps[j], blob))
  }

  lemma TableIsHome(w: World, eps: seq<Endpoint>, blob: Blob)
    ensures blob in TableOf(w, eps).owner <==> Home(w, eps, blob).Some?
    ensures blob in TableOf(w, eps).owner ==> TableOf(w, eps).owner[blob] == Home(w, eps, blob).value
  {
    OfferedFromAHome(w, eps, blob);
  }

  lemma {:induction false} HomeAnswersFirst(w: World, eps: seq<Endpoint>, blob: Blob)
    ensures Home(w, eps, blob).Some? <==> exists i :: AnswersFirst(w, eps, i, blob)
    ensures forall i :: AnswersFirst(w, eps, i, blob) ==> Home(w, eps, blob) == Some(eps[i])
  {
    if eps != [] {
      if At(w, eps[0]).answers && Advertises(w, eps[0], blob) {
        assert AnswersFirst(w, eps, 0, blob);
      } else {
        HomeAnswersFirst(w, eps[1..], blob);
        forall i | AnswersFirst(w, eps, i, blob) ensures AnswersFirst(w, eps[1..], i - 1, blob) {
          assert forall j :: 0 <= j < i - 1 ==> eps[1..][j] == eps[j + 1];
        }
        if i :| AnswersFirst(w, eps[1..], i, blob) {
          assert forall j :: 0 < j <= i ==> eps[j] == eps[1..][j - 1];
          assert AnswersFirst(w, eps, i + 1, blob);
        }
      }
    }
  }

  /** A listing fails exactly when the source's one configured endpoint does not answer:
      with discovered endpoints never, and never when anything answered. */
  lemma ListingFailsExactly(configured: Option<Endpoint>, w: World, found: seq<Endpoint>)
    ensures var eps := Resolve(configured, found);
      var r := ListingOf(configured.None?, w, eps);
      && (r.ListFailed? <==> configured.Some? && !At(w, configured.value).answers)
      && (r.ListFailed? ==> r.silent == eps && forall ep :: ep in eps ==> !At(w, ep).answers)
  {
    if configured.Some? {
      var eps := [configured.value];
      assert eps[1..] == [];
      SilentExactly(w, eps);
      OfferedExactly(w, eps);
    }
  }

  lemma {:induction false} SilentExactly(w: World, eps: seq<Endpoint>)
    ensures Silent(w, eps) == [] <==> forall ep :: ep in eps ==> At(w, ep).answers
  {
    if eps != [] {
      SilentExactly(w, eps[1..]);
      assert eps == [eps[0]] + eps[1..];
    }
  }

  lemma {:induction false} OfferedExactly(w: World, eps: seq<Endpoint>)
    ensures Offered(w, eps) == [] <==> forall ep :: ep in eps && At(w, ep).answers ==> At(w, ep).Offers() == []
  {
    if eps != [] {
      OfferedExactly(w, eps[1..]);
      assert eps == [eps[0]] + eps[1..];
    }
  }

  // ------------------------------------------------------- looking for a key

  predicate ServesFirst(w: World, eps: seq<Endpoint>, i: int, blob: Blob) {
    && 0 <= i < |eps| && Serves(w, eps[i], blob)
    && forall j :: 0 <= j < i ==> !Serves(w, eps[j], blob)
  }

  /** Trying endpoints in order finds the first that serves the key even past
      failing ones, and says "not ours" only when all answered and none has it. */
  lemma SearchIsExact(w: World, eps: seq<Endpoint>, blob: Blob)
    ensures Exhaustive(w, eps, blob).Found? <==> exists ep :: ep in eps && Serves(w, ep, blob)
    ensures forall i :: ServesFirst(w, eps, i, blob) ==> Exhaustive(w, eps, blob) == Found(eps[i])
    ensures Exhaustive(w, eps, blob) == NotOurs
       <==> (forall ep :: ep in eps ==> At(w, ep).answers && !Advertises(w, ep, blob))
  {
    FirstServingIsExact(w, eps, blob);
    ErringExactly(w, eps, blob);
  }

  lemma {:induction false} FirstServingIsExact(w: World, eps: seq<Endpoint>, blob: Blob)
    ensures FirstServing(w, eps, blob).Some? <==> exists ep :: ep in eps && Serves(w, ep, blob)
    ensures forall i :: ServesFirst(w, eps, i, blob) ==> FirstServing(w, eps, blob) == Some(eps[i])
  {
    if eps != [] {
      FirstServingIsExact(w, eps[1..], blob);
      assert eps == [eps[0]] + eps[1..];
      forall i | ServesFirst(w, eps, i, blob) ensures FirstServing(w, eps, blob) == Some(eps[i]) {
        if i > 0 {
          assert forall j :: 0 <= j < i ==> eps[1..][j] == eps[j + 1];
          assert ServesFirst(w, eps[1..], i - 1, blob);
        }
      }
    }
  }

  lemma {:induction false} ErringExactly(w: World, eps: seq<Endpoint>, blob: Blob)
    ensures Erring(w, eps, blob) == [] <==> forall ep :: ep in eps ==> !Errs(w, ep, blob)
  {
    if eps != [] {
      ErringExactly(w, eps[1..], blob);
      assert eps == [eps[0]] + eps[1..];
    }
  }

  // ------------------------------------- the table against the full search

  predicate Healthy(w: World, eps: seq<Endpoint>) {
    forall ep :: ep in eps ==> At(w, ep).answers && At(w, ep).obeys
  }

  ghost predicate SameKeys(w: World, w': World, eps: seq<Endpoint>) {
    forall ep, b :: ep in eps ==> (Advertises(w, ep, b) <==> Advertises(w', ep, b))
  }

  /** The first endpoint advertising the key, whether or not it answers. */
  function FirstAdvertising(w: World, eps: seq<Endpoint>, blob: Blob): Option<Endpoint> {
    if eps == [] then None
    else if Advertises(w, eps[0], blob) then Some(eps[0])
    else FirstAdvertising(w, eps[1..], blob)
  }

  lemma {:induction false} HealthySearch(w: World, eps: seq<Endpoint>, blob: Blob)
    requires Healthy(w, eps)
    ensures FirstServing(w, eps, blob) == FirstAdvertising(w, eps, blob)
    ensures Erring(w, eps, blob) == []
  {
    if eps != [] {
      HealthySearch(w, eps[1..], blob);
    }
  }

  lemma {:induction false} HomeWithin(w: World, w': World, eps: seq<Endpoint>, blob: Blob)
    requires SameKeys(w, w', eps)
    ensures var home, first := Home(w, eps, blob), FirstAdvertising(w', eps, blob);
      && (home.Some? ==> first.Some? && home.value in eps && Advertises(w', home.value, blob))
      && (home.Some? ==> At(w, home.value).answers)
      && (first.Some? ==> first.value in eps && Advertises(w', first.value, blob))
      && (first.Some? && At(w, first.value).answers ==> home == first)
      && (home.None? && first.Some? ==> Silent(w, eps) != [])
      && (Silent(w, eps) == [] ==> home == first)
  {
    if eps != [] {
      HomeWithin(w, w', eps[1..], blob);
    }
  }

  /** If the endpoints advertise what they did at the last scan and none fails now,
      the table finds a key exactly when trying every endpoint would, even if some
      endpoint failed during that scan. The answers are equal outright if and only
      if the table does not skip an endpoint that was silent at the scan. */
  lemma RoutedAgrees(w: World, w': World, eps: seq<Endpoint>, blob: Blob)
    requires SameKeys(w, w', eps) && Healthy(w', eps)
    ensures var t := TableOf(w, eps);
      && (Routed(t, w', eps, blob).Found? <==> Exhaustive(w', eps, blob).Found?)
      && (Routed(t, w', eps, blob) == NotOurs <==> Exhaustive(w', eps, blob) == NotOurs)
      && (t.listed ==> Routed(t, w', eps, blob) == Exhaustive(w', eps, blob))
      && (Routed(t, w', eps, blob) == Exhaustive(w', eps, blob) <==> !Skips(w, w', eps, blob))
  {
    var t := TableOf(w, eps);
    TableIsHome(w, eps, blob);
    HomeWithin(w, w', eps, blob);
    HealthySearch(w', eps, blob);
    if blob in t.owner && t.owner[blob] != UNKNOWN {
      HealthySearch(w', [t.owner[blob]], blob);
    }
  }

  /** The first endpoint with the key failed during the scan, and a later one,
      which answered, was recorded instead. */
  predicate Skips(w: World, w': World, eps: seq<Endpoint>, blob: Blob) {
    var first := FirstAdvertising(w', eps, blob);
    && first.Some? && !At(w, first.value).answers
    && Home(w, eps, blob).Some? && Home(w, eps, blob).value != UNKNOWN
  }

  lemma SkippedEndpoint()
    ensures var up, down := Agent(true, false, true, [Entry(Blob("k"), "")]), Agent(false, false, true, [Entry(Blob("k"), "")]);
      var w, w', eps := map[Endpoint("a") := down, Endpoint("b") := up], map[Endpoint("a") := up, Endpoint("b") := up], [Endpoint("a"), Endpoint("b")];
      && SameKeys(w, w', eps) && Healthy(w', eps)
      && Routed(TableOf(w, eps), w', eps, Blob("k")) == Found(Endpoint("b"))
      && Exhaustive(w', eps, Blob("k")) == Found(Endpoint("a"))
  {
    var up, down := Agent(true, false, true, [Entry(Blob("k"), "")]), Agent(false, false, true, [Entry(Blob("k"), "")]);
    var w, w', eps := map[Endpoint("a") := down, Endpoint("b") := up], map[Endpoint("a") := up, Endpoint("b") := up], [Endpoint("a"), Endpoint("b")];
    assert Entry(Blob("k"), "") in up.Offers();
    assert Advertises(w, Endpoint("b"), Blob("k")) && Advertises(w', Endpoint("a"), Blob("k"));
    assert eps[1..] == [Endpoint("b")];
    assert Home(w, [Endpoint("b")], Blob("k")) == Some(Endpoint("b"));
    assert Home(w, eps, Blob("k")) == Some(Endpoint("b"));
    TableIsHome(w, eps, Blob("k"));
    assert FirstServing(w', [Endpoint("b")], Blob("k")) == Some(Endpoint("b"));
    assert FirstServing(w', eps, Blob("k")) == Some(Endpoint("a"));
  }

  // ------------------------------------------------------------ histories

  datatype Scan = Scan(w: World, eps: seq<Endpoint>)

  /** `scan` is the last listing the table has not been cleared since. */
  datatype State = State(t: Table, w: World, eps: seq<Endpoint>, scan: Option<Scan>)

  datatype Step =
    | List
    | Sign(blob: Blob)
    | Add(entry: Entry)
    | Remove(blob: Blob)
    | Announce(op: Broadcast)
    | Outside(w: World, eps: seq<Endpoint>)   // changes the relay has no part in

  function Do(s: State, step: Step): State {
    match step
    case List => s.(t := TableOf(s.w, s.eps), scan := Some(Scan(s.w, s.eps)))
    case Sign(_) => s
    case Add(entry) =>
      if s.eps != [] && CanAdd(s.w, s.eps[0]) then
        State(FORGOTTEN, WorldAfterAdd(s.w, s.eps, entry), s.eps, None)
      else s
    case Remove(blob) =>
      var found := Routed(s.t, s.w, s.eps, blob);
      if found.Found? then State(FORGOTTEN, WorldAfterRemove(s.w, found, blob), s.eps, None) else s
    case Announce(op) =>
      var s' := s.(w := WorldAfter(s.w, s.eps, op));
      if op == Clear then s'.(t := FORGOTTEN, scan := None) else s'
    case Outside(w, eps) => s.(w := w, eps := eps)
  }

  function Run(s: State, steps: seq<Step>): State {
    if steps == [] then s else Do(Run(s, steps[..|steps| - 1]), steps[|steps| - 1])
  }

  function Start(w: World, eps: seq<Endpoint>): State {
    State(FORGOTTEN, w, eps, None)
  }

  ghost predicate Inv(s: State) {
    s.t == if s.scan.Some? then TableOf(s.scan.value.w, s.scan.value.eps) else FORGOTTEN
  }

  lemma {:induction false} TableIsTheLastScan(w: World, eps: seq<Endpoint>, steps: seq<Step>)
    ensures Inv(Run(Start(w, eps), steps))
  {
    if steps != [] {
      TableIsTheLastScan(w, eps, steps[..|steps| - 1]);
    }
  }

  /** Only failures come and go: the agents' keys and locks stay. */
  ghost predicate OnlyHealth(w: World, w': World) {
    forall ep :: At(w, ep).keys == At(w', ep).keys && At(w, ep).locked == At(w', ep).locked
  }

  /** Nobody but the relay changes the agents. */
  ghost predicate Undisturbed(s: State, steps: seq<Step>) {
    steps == [] ||
    var before, step := steps[..|steps| - 1], steps[|steps| - 1];
    && Undisturbed(s, before)
    && (step.Outside? ==> step.eps == s.eps && OnlyHealth(Run(s, before).w, step.w))
  }

  predicate LocksNothing(steps: seq<Step>) {
    forall i :: 0 <= i < |steps| && steps[i].Announce? ==> steps[i].op == Clear
  }

  /** The agents hold the keys they held at the scan, and are locked as they were then
      if nothing was locked or unlocked. */
  ghost predicate Current(s: State, unlocked: bool) {
    s.scan.Some? ==>
      && s.scan.value.eps == s.eps
      && (forall ep :: At(s.scan.value.w, ep).keys == At(s.w, ep).keys)
      && (unlocked ==> OnlyHealth(s.scan.value.w, s.w))
  }

  lemma {:induction false} UndisturbedStaysCurrent(w: World, eps: seq<Endpoint>, steps: seq<Step>, unlocked: bool)
    requires Undisturbed(Start(w, eps), steps) && (unlocked ==> LocksNothing(steps))
    ensures Current(Run(Start(w, eps), steps), unlocked) && Run(Start(w, eps), steps).eps == eps
  {
    if steps != [] {
      var before, step := steps[..|steps| - 1], steps[|steps| - 1];
      UndisturbedStaysCurrent(w, eps, before, unlocked);
      var m := Run(Start(w, eps), before);
      if step.Announce? {
        LockingKeepsKeys(m.w, m.eps, step.op);
      }
    }
  }

  lemma LockingKeepsKeys(w: World, eps: seq<Endpoint>, op: Broadcast)
    ensures op != Clear ==> forall ep :: At(WorldAfter(w, eps, op), ep).keys == At(w, ep).keys
  {
    forall ep ensures op != Clear ==> At(WorldAfter(w, eps, op), ep).keys == At(w, ep).keys {
      BroadcastReachesEach(w, eps, op, ep);
    }
  }

  /** However the relay itself adds, removes and clears keys, and however endpoints
      fail and come back, Sign agrees with the full search whenever none fails. */
  lemma OwnChangesNeverMislead(w: World, eps: seq<Endpoint>, steps: seq<Step>, blob: Blob)
    requires Undisturbed(Start(w, eps), steps) && LocksNothing(steps)
    ensures var s := Run(Start(w, eps), steps);
      Healthy(s.w, s.eps) ==>
        && (Routed(s.t, s.w, s.eps, blob).Found? <==> Exhaustive(s.w, s.eps, blob).Found?)
        && (s.t.listed ==> Routed(s.t, s.w, s.eps, blob) == Exhaustive(s.w, s.eps, blob))
  {
    var s := Run(Start(w, eps), steps);
    TableIsTheLastScan(w, eps, steps);
    UndisturbedStaysCurrent(w, eps, steps, true);
    if s.scan.Some? && Healthy(s.w, s.eps) {
      forall ep, b | ep in s.eps
        ensures Advertises(s.scan.value.w, ep, b) <==> Advertises(s.w, ep, b)
      {
        assert At(s.scan.value.w, ep).keys == At(s.w, ep).keys;
      }
      RoutedAgrees(s.scan.value.w, s.w, s.eps, blob);
    }
  }

  // ------------------------------------------------------------------ locks

  predicate Keeps(w: World, ep: Endpoint, blob: Blob) {
    Has(At(w, ep).keys, blob)
  }

  /** Some agent with the key is open. */
  predicate OpenKeeper(w: World, eps: seq<Endpoint>, blob: Blob) {
    exists ep :: ep in eps && Keeps(w, ep, blob) && !At(w, ep).locked
  }

  /** The endpoint the scan filed the key under is locked now, or the scan heard from
      every endpoint while each agent with the key was locked. */
  predicate LocksMislead(scan: Scan, w: World, blob: Blob) {
    var home := Home(scan.w, scan.eps, blob);
    || (home.Some? && home.value != UNKNOWN && At(w, home.value).locked)
    || (Silent(scan.w, scan.eps) == [] && !OpenKeeper(scan.w, scan.eps, blob))
  }

  lemma {:induction false} HomeIsOpen(w: World, eps: seq<Endpoint>, blob: Blob)
    ensures var home := Home(w, eps, blob);
      && (home.Some? ==> home.value in eps && Keeps(w, home.value, blob) && !At(w, home.value).locked)
      && (home.None? && Silent(w, eps) == [] ==> !OpenKeeper(w, eps, blob))
  {
    if eps != [] {
      HomeIsOpen(w, eps[1..], blob);
      assert eps == [eps[0]] + eps[1..];
    }
  }

  lemma HealthyFinds(w: World, eps: seq<Endpoint>, blob: Blob)
    requires Healthy(w, eps)
    ensures Exhaustive(w, eps, blob).Found? <==> OpenKeeper(w, eps, blob)
  {
    SearchIsExact(w, eps, blob);
    forall ep | ep in eps ensures Serves(w, ep, blob) <==> Keeps(w, ep, blob) && !At(w, ep).locked {
    }
  }

  /** Over every history of the relay's own operations, locks included, and with none
      failing now: Sign misses a key the full search finds, or the other way about,
      exactly when the key is to be had from an open agent and the locks mislead. */
  lemma RoutedAgreesExactly(w: World, eps: seq<Endpoint>, steps: seq<Step>, blob: Blob)
    requires Undisturbed(Start(w, eps), steps)
    ensures var s := Run(Start(w, eps), steps);
      Healthy(s.w, s.eps) ==>
        ((Routed(s.t, s.w, s.eps, blob).Found? <==> Exhaustive(s.w, s.eps, blob).Found?)
         <==> !(s.scan.Some? && OpenKeeper(s.w, s.eps, blob) && LocksMislead(s.scan.value, s.w, blob)))
  {
    var s := Run(Start(w, eps), steps);
    TableIsTheLastScan(w, eps, steps);
    UndisturbedStaysCurrent(w, eps, steps, false);
    if s.scan.Some? && Healthy(s.w, s.eps) {
      LocksDecide(s.scan.value, s.w, blob);
    }
  }

  lemma LocksDecide(scan: Scan, w: World, blob: Blob)
    requires Healthy(w, scan.eps) && forall ep :: At(scan.w, ep).keys == At(w, ep).keys
    ensures (Routed(TableOf(scan.w, scan.eps), w, scan.eps, blob).Found? <==> Exhaustive(w, scan.eps, blob).Found?)
       <==> !(OpenKeeper(w, scan.eps, blob) && LocksMislead(scan, w, blob))
  {
    var t := TableOf(scan.w, scan.eps);
    TableIsHome(scan.w, scan.eps, blob);
    HomeIsOpen(scan.w, scan.eps, blob);
    HealthyFinds(w, scan.eps, blob);
    var home := Home(scan.w, scan.eps, blob);
    if home.Some? {
      assert OpenKeeper(scan.w, scan.eps, blob);
      assert Keeps(w, home.value, blob);
      HealthyFinds(w, [home.value], blob);
      assert OpenKeeper(w, [home.value], blob) <==> !At(w, home.value).locked;
    }
  }

  /** An agent listed before the one the scan filed the key under has the key and is
      open now; it was locked, or failed, at the scan. */
  predicate Overtaken(scan: Scan, w: World, blob: Blob) {
    var home := Home(scan.w, scan.eps, blob);
    home.Some? && home.value != UNKNOWN && OpenBefore(w, scan.eps, blob, home.value)
  }

  predicate OpenBefore(w: World, eps: seq<Endpoint>, blob: Blob, home: Endpoint) {
    exists i :: 0 <= i < |eps| && home !in eps[..i + 1] && Keeps(w, eps[i], blob) && !At(w, eps[i]).locked
  }

  lemma {:induction false} FirstIsHome(w: World, eps: seq<Endpoint>, blob: Blob, home: Endpoint)
    requires Healthy(w, eps) && home in eps && Keeps(w, home, blob) && !At(w, home).locked
    ensures FirstServing(w, eps, blob) == Some(home) <==> !OpenBefore(w, eps, blob, home)
  {
    assert eps[..1] == [eps[0]];
    if eps[0] == home {
      forall i | 0 <= i < |eps| ensures home in eps[..i + 1] || !Keeps(w, eps[i], blob) {
        assert eps[..i + 1][0] == home;
      }
    } else if Serves(w, eps[0], blob) {
      assert home !in eps[..0 + 1];
      assert OpenBefore(w, eps, blob, home);
    } else {
      assert eps == [eps[0]] + eps[1..];
      FirstIsHome(w, eps[1..], blob, home);
      OpenBeforeShifts(w, eps, blob, home);
    }
  }

  lemma OpenBeforeShifts(w: World, eps: seq<Endpoint>, blob: Blob, home: Endpoint)
    requires Healthy(w, eps) && eps != [] && eps[0] != home && !Serves(w, eps[0], blob)
    ensures OpenBefore(w, eps, blob, home) <==> OpenBefore(w, eps[1..], blob, home)
  {
    if i :| 0 <= i < |eps| && home !in eps[..i + 1] && Keeps(w, eps[i], blob) && !At(w, eps[i]).locked {
      assert eps[1..][i - 1] == eps[i];
      assert eps[1..][..i] == eps[..i + 1][1..];
    }
    if i :| 0 <= i < |eps[1..]| && home !in eps[1..][..i + 1] && Keeps(w, eps[1..][i], blob) && !At(w, eps[1..][i]).locked {
      assert eps[..i + 2] == [eps[0]] + eps[1..][..i + 1];
      assert eps[i + 1] == eps[1..][i];
      assert home !in eps[..(i + 1) + 1];
    }
  }

  /** Likewise for the whole answer: Sign and the full search name the same endpoint,
      or none, unless the locks mislead about a key to be had or an earlier agent
      with it has opened since the scan. */
  lemma SameAnswerExactly(w: World, eps: seq<Endpoint>, steps: seq<Step>, blob: Blob)
    requires Undisturbed(Start(w, eps), steps)
    ensures var s := Run(Start(w, eps), steps);
      Healthy(s.w, s.eps) ==>
        (Routed(s.t, s.w, s.eps, blob) == Exhaustive(s.w, s.eps, blob)
         <==> !(s.scan.Some? && OpenKeeper(s.w, s.eps, blob)
                && (LocksMislead(s.scan.value, s.w, blob) || Overtaken(s.scan.value, s.w, blob))))
  {
    var s := Run(Start(w, eps), steps);
    TableIsTheLastScan(w, eps, steps);
    UndisturbedStaysCurrent(w, eps, steps, false);
    if s.scan.Some? && Healthy(s.w, s.eps) {
      AnswersDecided(s.scan.value, s.w, blob);
    }
  }

  lemma AnswersDecided(scan: Scan, w: World, blob: Blob)
    requires Healthy(w, scan.eps) && forall ep :: At(scan.w, ep).keys == At(w, ep).keys
    ensures Routed(TableOf(scan.w, scan.eps), w, scan.eps, blob) == Exhaustive(w, scan.eps, blob)
       <==> !(OpenKeeper(w, scan.eps, blob) && (LocksMislead(scan, w, blob) || Overtaken(scan, w, blob)))
  {
    var t := TableOf(scan.w, scan.eps);
    var targets := Targets(t, scan.eps, blob);
    LocksDecide(scan, w, blob);
    TableIsHome(scan.w, scan.eps, blob);
    HomeIsOpen(scan.w, scan.eps, blob);
    HealthyFinds(w, scan.eps, blob);
    var home := Home(scan.w, scan.eps, blob);
    assert Healthy(w, targets);
    HealthySearch(w, scan.eps, blob);
    HealthySearch(w, targets, blob);
    if home.Some? && home.value != UNKNOWN {
      assert targets == [home.value] && Keeps(w, home.value, blob);
      if !At(w, home.value).locked {
        FirstIsHome(w, scan.eps, blob, home.value);
        OneTarget(w, home.value, blob);
      }
    }
  }

  lemma OneTarget(w: World, ep: Endpoint, blob: Blob)
    requires Serves(w, ep, blob)
    ensures FirstServing(w, [ep], blob) == Some(ep)
  {
  }

  /** Unlocking does not drop a table scanned while locked: the key is back, a full
      search finds it, and Sign denies it without asking anyone. */
  lemma UnlockedKeyStaysHidden()
    ensures var open := Agent(true, false, true, [Entry(Blob("k"), "")]);
      var s := Run(Start(map[Endpoint("a") := open], [Endpoint("a")]), [Announce(Lock), List, Announce(Unlock)]);
      && s.w == map[Endpoint("a") := open]
      && Exhaustive(s.w, s.eps, Blob("k")) == Found(Endpoint("a"))
      && Routed(s.t, s.w, s.eps, Blob("k")) == NotOurs
  {
    var open := Agent(true, false, true, [Entry(Blob("k"), "")]);
    var shut := Agent(true, true, true, [Entry(Blob("k"), "")]);
    var w, w', eps := map[Endpoint("a") := open], map[Endpoint("a") := shut], [Endpoint("a")];
    var steps := [Announce(Lock), List, Announce(Unlock)];
    var s0 := Start(w, eps);
    AnnounceToOne(w, Endpoint("a"), Lock);
    AnnounceToOne(w', Endpoint("a"), Unlock);
    assert steps[..2][..1] == [Announce(Lock)] && steps[..2][1] == List;
    assert Run(s0, []) == s0;
    assert [Announce(Lock)][..0] == [];
    assert Run(s0, steps[..1]) == s0.(w := w');
    assert steps[..|steps| - 1] == steps[..2] && steps[..2][..1] == steps[..1];
    assert Run(s0, steps[..2]) == State(TableOf(w', eps), w', eps, Some(Scan(w', eps)));
    LockedHides(w', Endpoint("a"), Blob("k"));
    TableIsHome(w', eps, Blob("k"));
    assert Entry(Blob("k"), "") in open.Offers();
    assert FirstServing(w, eps, Blob("k")) == Some(Endpoint("a"));
  }

  lemma LockedHides(w: World, ep: Endpoint, blob: Blob)
    requires At(w, ep).answers && At(w, ep).locked
    ensures Silent(w, [ep]) == [] && Home(w, [ep], blob) == None
  {
    assert !Advertises(w, ep, blob);
    assert [ep][1..] == [];
  }

  lemma AnnounceToOne(w: World, ep: Endpoint, op: Broadcast)
    ensures WorldAfter(w, [ep], op) == Tell(w, ep, op)
  {
    assert [ep][1..] == [];
  }

  // ------------------------------------------------------------- mutations

  /** A broadcast names an endpoint as refusing each time it is asked in vain: always if
      its agent does not accept, and after the first time if, once locked or unlocked,
      it does not accept the same again. */
  lemma {:induction false} RefusalsNamedExactly(w: World, eps: seq<Endpoint>, op: Broadcast, ep: Endpoint)
    ensures multiset(Refusing(w, eps, op))[ep]
         == if !Accepts(At(w, ep), op) then multiset(eps)[ep]
            else if op == Clear || ep !in eps then 0
            else multiset(eps)[ep] - 1
    decreases |eps|
  {
    if eps != [] {
      assert eps == [eps[0]] + eps[1..];
      var w' := Tell(w, eps[0], op);
      RefusalsNamedExactly(w', eps[1..], op, ep);
      var head: seq<Endpoint> := if Accepts(At(w, eps[0]), op) then [] else [eps[0]];
      assert Refusing(w, eps, op) == head + Refusing(w', eps[1..], op);
      assert multiset(Refusing(w, eps, op)) == multiset(head) + multiset(Refusing(w', eps[1..], op));
    }
  }

  /** The failures a search reports are those of the endpoints that failed, each as often
      as it was asked. */
  lemma {:induction false} FailuresNamedExactly(w: World, eps: seq<Endpoint>, blob: Blob, ep: Endpoint)
    ensures multiset(Erring(w, eps, blob))[ep] == if Errs(w, ep, blob) then multiset(eps)[ep] else 0
  {
    if eps != [] {
      assert eps == [eps[0]] + eps[1..];
      FailuresNamedExactly(w, eps[1..], blob, ep);
      var head: seq<Endpoint> := if Errs(w, eps[0], blob) then [eps[0]] else [];
      assert multiset(Erring(w, eps, blob)) == multiset(head) + multiset(Erring(w, eps[1..], blob));
    }
  }

  /** Adding a key the first agent lacked and removing it again restores every agent. */
  lemma RemoveUndoesAdd(s: State, entry: Entry)
    requires s.eps != [] && CanAdd(s.w, s.eps[0]) && !Has(At(s.w, s.eps[0]).keys, entry.blob)
    ensures Do(Do(s, Add(entry)), Remove(entry.blob)).w == s.w
    ensures Has(At(Do(s, Add(entry)).w, s.eps[0]).keys, entry.blob)
    ensures forall ep :: ep != s.eps[0] ==> At(Do(s, Add(entry)).w, ep) == At(s.w, ep)
  {
    var s', a := Do(s, Add(entry)), At(s.w, s.eps[0]);
    assert entry in a.keys + [entry];
    assert Serves(s'.w, s.eps[0], entry.blob);
    assert Routed(s'.t, s'.w, s'.eps, entry.blob) == Found(s.eps[0]);
    WithoutTheLast(a.keys, entry);
  }

  lemma {:induction false} WithoutTheLast(keys: seq<Entry>, entry: Entry)
    requires !Has(keys, entry.blob)
    ensures Without(keys + [entry], entry.blob) == keys
  {
    if keys == [] {
      assert [entry][1..] == [];
    } else {
      assert keys[0] in keys;
      assert (keys + [entry])[1..] == keys[1..] + [entry];
      assert forall e :: e in keys[1..] ==> e in keys;
      WithoutTheLast(keys[1..], entry);
    }
  }
}
