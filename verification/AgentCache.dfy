/** What the SSH agent backend promises: its cache over every interleaving of
    refreshes, cache hits and mutations, and the meaning of each signing answer. */
module AgentCache {
  import opened AgentBackend

  // ----------------------------------------------- the meaning of a listing

  /** The answers of the first `n` configured sources, one after the other. */
  function Joined(answers: nat -> Answer, n: nat): seq<Identity> {
    if n == 0 then []
    else Joined(answers, n - 1) + if answers(n - 1).Ids? then answers(n - 1).ids else []
  }

  lemma {:induction false} GatheredSplits(answers: nat -> Answer, a: seq<nat>, b: seq<nat>)
    ensures Gathered(answers, a + b) == Gathered(answers, a) + Gathered(answers, b)
    ensures Failures(answers, a + b) == Failures(answers, a) + Failures(answers, b)
  {
    if a == [] {
      assert a + b == b;
    } else {
      assert (a + b)[1..] == a[1..] + b && (a + b)[0] == a[0];
      GatheredSplits(answers, a[1..], b);
      var first := if answers(a[0]).Ids? then answers(a[0]).ids else [];
      assert first + (Gathered(answers, a[1..]) + Gathered(answers, b)) == Gathered(answers, a) + Gathered(answers, b);
    }
  }

  /** With a token every configured source is asked, and the result is their
      answers joined in order. */
  lemma {:induction false} GatheredIsJoined(sources: seq<Source>, answers: nat -> Answer, n: nat)
    requires n <= |sources|
    ensures Gathered(answers, Usable(sources, true, n)) == Joined(answers, n)
  {
    if n > 0 {
      GatheredIsJoined(sources, answers, n - 1);
      GatheredSplits(answers, Usable(sources, true, n - 1), [n - 1]);
      assert [n - 1][1..] == [];
    }
  }

  lemma {:induction false} FailuresExactly(answers: nat -> Answer, asked: seq<nat>)
    ensures forall i :: i in Failures(answers, asked) <==> i in asked && answers(i).Failed?
  {
    if asked != [] {
      FailuresExactly(answers, asked[1..]);
      assert asked == [asked[0]] + asked[1..];
    }
  }

  lemma {:induction false} GatheredNothing(answers: nat -> Answer, asked: seq<nat>)
    ensures Gathered(answers, asked) == [] <==> forall i :: i in asked && answers(i).Ids? ==> answers(i).ids == []
  {
    if asked != [] {
      GatheredNothing(answers, asked[1..]);
      assert asked == [asked[0]] + asked[1..];
    }
  }

  /** A refresh reports an error exactly when a usable source failed and no other
      usable source had anything to offer. */
  lemma ListFailsExactly(sources: seq<Source>, token: bool, answers: nat -> Answer)
    ensures Refreshed(answers, Usable(sources, token, |sources|)).ListFailed? <==>
      && (exists i :: Asked(sources, token, i) && answers(i).Failed?)
      && (forall i :: Asked(sources, token, i) && answers(i).Ids? ==> answers(i).ids == [])
  {
    var asked := Usable(sources, token, |sources|);
    UsableExactly(sources, token, |sources|);
    FailuresExactly(answers, asked);
    GatheredNothing(answers, asked);
    assert forall i: nat :: Asked(sources, token, i) <==> i in asked;
    if i: nat :| Asked(sources, token, i) && answers(i).Failed? {
      assert i in Failures(answers, asked);
    }
    if Failures(answers, asked) != [] {
      assert Failures(answers, asked)[0] in Failures(answers, asked);
    }
  }

  predicate Asked(sources: seq<Source>, token: bool, i: nat) {
    i < |sources| && (token || !sources[i].needsToken)
  }

  // ------------------------------------------- the meaning of a signing answer

  lemma {:induction false} FirstMatchExactly(answers: nat -> SignAnswer, asked: seq<nat>)
    ensures FirstMatch(answers, asked) == -1 <==> forall i :: i in asked ==> !answers(i).Matched?
    ensures forall k :: MatchesFirst(answers, asked, k) ==> FirstMatch(answers, asked) == asked[k]
  {
    if asked != [] {
      FirstMatchExactly(answers, asked[1..]);
      assert asked == [asked[0]] + asked[1..];
      forall k | MatchesFirst(answers, asked, k) ensures FirstMatch(answers, asked) == asked[k] {
        if k > 0 {
          assert forall j :: 0 < j <= k ==> asked[j] == asked[1..][j - 1];
          assert MatchesFirst(answers, asked[1..], k - 1);
        }
      }
    }
  }

  predicate MatchesFirst(answers: nat -> SignAnswer, asked: seq<nat>, k: int) {
    && 0 <= k < |asked| && answers(asked[k]).Matched?
    && forall j :: 0 <= j < k ==> !answers(asked[j]).Matched?
  }

  lemma {:induction false} SignFailuresExactly(answers: nat -> SignAnswer, asked: seq<nat>)
    requires FirstMatch(answers, asked) == -1
    ensures SignFailures(answers, asked) == [] <==> forall i :: i in asked ==> answers(i).NoMatch?
  {
    if asked != [] {
      SignFailuresExactly(answers, asked[1..]);
      assert asked == [asked[0]] + asked[1..];
    }
  }

  /** "No matching key" means a token was held, every configured source was asked,
      none failed and none matched; a missing token never reads as a missing key,
      and a failing source never hides a matching one. */
  lemma SigningMeans(sources: seq<Source>, token: bool, answers: nat -> SignAnswer)
    ensures var r := SigningOf(token, answers, Usable(sources, token, |sources|));
      && (r.KeyNotFound? <==> token && sources != [] && forall i: nat :: i < |sources| ==> answers(i).NoMatch?)
      && (r.Signed? <==> exists i: nat :: Asked(sources, token, i) && answers(i).Matched?)
      && (r.NoToken? <==> (!token || sources == []) && forall i: nat :: Asked(sources, token, i) ==> answers(i).NoMatch?)
  {
    var asked := Usable(sources, token, |sources|);
    UsableExactly(sources, token, |sources|);
    FirstMatchExactly(answers, asked);
    assert forall i: nat :: Asked(sources, token, i) <==> i in asked;
    if sources != [] && token {
      assert 0 in asked;
    }
    if FirstMatch(answers, asked) == -1 {
      SignFailuresExactly(answers, asked);
    }
    if asked == [] {
      assert forall i: nat :: !Asked(sources, token, i);
    }
  }

  /** The source that signs is the first in order that matches. */
  lemma SignedByTheFirst(sources: seq<Source>, token: bool, answers: nat -> SignAnswer, i: nat)
    requires Asked(sources, token, i) && answers(i).Matched?
    requires forall j: nat :: j < i && Asked(sources, token, j) ==> !answers(j).Matched?
    ensures SigningOf(token, answers, Usable(sources, token, |sources|)) == Signed(i)
  {
    var asked := Usable(sources, token, |sources|);
    UsableExactly(sources, token, |sources|);
    assert i in asked;
    var k :| 0 <= k < |asked| && asked[k] == i;
    forall j | 0 <= j < k ensures !answers(asked[j]).Matched? {
      assert asked[j] in asked && asked[j] < asked[k];
    }
    assert MatchesFirst(answers, asked, k);
    FirstMatchExactly(answers, asked);
  }

  // ----------------------------------------- the meaning of a mutation's answer

  lemma {:induction false} RefusalsExactly(answers: nat -> MutateAnswer, asked: seq<nat>)
    ensures Refusals(answers, asked) == [] <==> forall i :: i in asked ==> !answers(i).Refused?
  {
    if asked != [] {
      RefusalsExactly(answers, asked[1..]);
      assert asked == [asked[0]] + asked[1..];
    }
  }

  /** Read-only is the answer exactly when no configured source that mutates has
      anything to do with the request; a removal succeeds past sources that refuse,
      an agent-wide operation only if none does. */
  lemma MutationMeans(sources: seq<Source>, answers: nat -> MutateAnswer)
    ensures var removal := RemovalOf(answers, Mutating(sources, |sources|));
      && (removal.ReadOnly? <==> forall i: nat :: i < |sources| && sources[i].mutates ==> answers(i).NotMine?)
      && (removal.Mutated? <==> exists i: nat :: i < |sources| && sources[i].mutates && answers(i).Done?)
    ensures var all := BroadcastOf(answers, Mutating(sources, |sources|));
      && (all.ReadOnly? <==> forall i: nat :: i < |sources| ==> !sources[i].mutates)
      && (all.MutationFailed? <==> exists i: nat :: i < |sources| && sources[i].mutates && answers(i).Refused?)
  {
    var srcs := Mutating(sources, |sources|);
    MutatingExactly(sources, |sources|);
    RefusalsExactly(answers, srcs);
    if srcs != [] {
      assert srcs[0] in srcs;
    }
  }

  // --------------------------------------------------- the failures, in order

  predicate Ascends(l: seq<nat>) {
    forall i, j :: 0 <= i < j < |l| ==> l[i] < l[j]
  }

  lemma AscendsTail(l: seq<nat>)
    requires Ascends(l) && l != []
    ensures Ascends(l[1..]) && forall i :: i in l[1..] ==> l[0] < i
  {
  }

  lemma AscendsCons(head: nat, tail: seq<nat>)
    requires Ascends(tail) && forall i :: i in tail ==> head < i
    ensures Ascends([head] + tail)
  {
    forall i, j | 0 <= i < j < |[head] + tail| ensures ([head] + tail)[i] < ([head] + tail)[j] {
      assert tail[j - 1] in tail;
    }
  }

  /** A refresh names the sources that failed, in configured order. */
  lemma {:induction false} FailuresInOrder(answers: nat -> Answer, asked: seq<nat>)
    requires Ascends(asked)
    ensures Ascends(Failures(answers, asked))
  {
    if asked != [] {
      AscendsTail(asked);
      FailuresInOrder(answers, asked[1..]);
      FailuresExactly(answers, asked[1..]);
      if answers(asked[0]).Failed? {
        AscendsCons(asked[0], Failures(answers, asked[1..]));
      }
    }
  }

  /** Signing reports, in configured order, exactly the sources that failed before the
      first that matched. */
  lemma {:induction false} SignFailuresNamed(answers: nat -> SignAnswer, asked: seq<nat>)
    requires Ascends(asked)
    ensures Ascends(SignFailures(answers, asked))
    ensures forall i :: i in SignFailures(answers, asked) <==>
      i in asked && answers(i).SignFailed? && (forall j :: j in asked && j < i ==> !answers(j).Matched?)
  {
    if asked != [] {
      AscendsTail(asked);
      assert asked == [asked[0]] + asked[1..];
      SignFailuresNamed(answers, asked[1..]);
      if answers(asked[0]).SignFailed? {
        AscendsCons(asked[0], SignFailures(answers, asked[1..]));
      }
    }
  }

  /** A mutation names the sources that refused, in configured order. */
  lemma {:induction false} RefusalsNamed(answers: nat -> MutateAnswer, asked: seq<nat>)
    requires Ascends(asked)
    ensures Ascends(Refusals(answers, asked))
    ensures forall i :: i in Refusals(answers, asked) <==> i in asked && answers(i).Refused?
  {
    if asked != [] {
      AscendsTail(asked);
      assert asked == [asked[0]] + asked[1..];
      RefusalsNamed(answers, asked[1..]);
      if answers(asked[0]).Refused? {
        AscendsCons(asked[0], Refusals(answers, asked[1..]));
      }
    }
  }

  /** The sources asked, and those that mutate, come in configured order; so Add goes to
      the first that mutates. */
  lemma {:induction false} SelectionsAscend(sources: seq<Source>, token: bool, n: nat)
    requires n <= |sources|
    ensures Ascends(Usable(sources, token, n)) && Ascends(Mutating(sources, n))
  {
    UsableExactly(sources, token, n);
    MutatingAscends(sources, n);
  }

  lemma {:induction false} MutatingAscends(sources: seq<Source>, n: nat)
    requires n <= |sources|
    ensures Ascends(Mutating(sources, n))
  {
    if n > 0 {
      MutatingAscends(sources, n - 1);
      MutatingExactly(sources, n - 1);
      var before := Mutating(sources, n - 1);
      assert forall i :: 0 <= i < |before| ==> before[i] in before;
    }
  }

  /** Every answer that is an error names exactly the sources that failed the request,
      in configured order: of those asked, before the first match for a signature, and
      of those that mutate for a mutation. */
  lemma ErrorsNameTheFailures(sources: seq<Source>, token: bool, answers: nat -> Answer, signs: nat -> SignAnswer,
                              mutates: nat -> MutateAnswer, i: nat)
    ensures var r := Refreshed(answers, Usable(sources, token, |sources|));
      r.ListFailed? ==> Ascends(r.failures) && (i in r.failures <==> Asked(sources, token, i) && answers(i).Failed?)
    ensures var r := SigningOf(token, signs, Usable(sources, token, |sources|));
      r.SignErrors? ==> Ascends(r.failures) && (i in r.failures <==> Asked(sources, token, i) && signs(i).SignFailed?)
    ensures var r := RemovalOf(mutates, Mutating(sources, |sources|));
      r.MutationFailed? ==>
        Ascends(r.failures) && (i in r.failures <==> i < |sources| && sources[i].mutates && mutates(i).Refused?)
    ensures var r := BroadcastOf(mutates, Mutating(sources, |sources|));
      r.MutationFailed? ==>
        Ascends(r.failures) && (i in r.failures <==> i < |sources| && sources[i].mutates && mutates(i).Refused?)
  {
    var asked, srcs := Usable(sources, token, |sources|), Mutating(sources, |sources|);
    SelectionsAscend(sources, token, |sources|);
    UsableExactly(sources, token, |sources|);
    MutatingExactly(sources, |sources|);
    assert Asked(sources, token, i) <==> i in asked;
    FailuresExactly(answers, asked);
    FailuresInOrder(answers, asked);
    FirstMatchExactly(signs, asked);
    SignFailuresNamed(signs, asked);
    RefusalsNamed(mutates, srcs);
  }

  /** The answers of the sources asked, without a token those that need none, joined. */
  function JoinedAsked(sources: seq<Source>, token: bool, answers: nat -> Answer, n: nat): seq<Identity>
    requires n <= |sources|
  {
    if n == 0 then []
    else
      var heard := (token || !sources[n - 1].needsToken) && answers(n - 1).Ids?;
      JoinedAsked(sources, token, answers, n - 1) + if heard then answers(n - 1).ids else []
  }

  lemma {:induction false} GatheredIsAsked(sources: seq<Source>, token: bool, answers: nat -> Answer, n: nat)
    requires n <= |sources|
    ensures Gathered(answers, Usable(sources, token, n)) == JoinedAsked(sources, token, answers, n)
  {
    if n > 0 {
      GatheredIsAsked(sources, token, answers, n - 1);
      GatheredSplits(answers, Usable(sources, token, n - 1), [n - 1]);
      assert [n - 1][1..] == [];
      assert Usable(sources, token, n - 1) + [] == Usable(sources, token, n - 1);
    }
  }

  /** A refresh that is not an error lists all that the sources asked answered, in
      configured order, past those that failed. */
  lemma RefreshListsAll(sources: seq<Source>, token: bool, answers: nat -> Answer)
    ensures var r := Refreshed(answers, Usable(sources, token, |sources|));
      r.Listed? || r.ListFailed?
    ensures var r := Refreshed(answers, Usable(sources, token, |sources|));
      r.Listed? ==> r.ids == JoinedAsked(sources, token, answers, |sources|)
  {
    GatheredIsAsked(sources, token, answers, |sources|);
  }

  // ------------------------------------------------ the cache under concurrency

  /** A refresh in flight. refreshMu lets at most one run; `epoch` counts the
      invalidations before it started, `overtaken` whether one came since. */
  datatype Refresh = Idle | Asking(token: bool, answers: nat -> Answer, epoch: nat, overtaken: bool)

  /** A listing served from the cache, with the refresh that filled it, the age it
      was served at, and the invalidations there had been when it was served. */
  datatype Hit = Hit(ids: seq<Identity>, filledBy: Refresh, age: int, epoch: nat)

  datatype State = State(
    sources: seq<Source>,
    ttl: int,
    clock: int,
    cache: Cache,
    filledBy: Refresh,
    refresh: Refresh,
    epoch: nat,
    hits: seq<Hit>)

  datatype Step =
    | Elapse(d: nat)
    | Begin(token: bool, answers: nat -> Answer)
    | Finish
    | Invalidate
    | Hits

  predicate Enabled(s: State, step: Step) {
    match step
    case Elapse(_) => true
    case Begin(token, _) => s.refresh.Idle? && !Serves(s.cache, s.ttl, s.clock) && Usable(s.sources, token, |s.sources|) != []
    case Finish => s.refresh.Asking?
    case Invalidate => true
    case Hits => Serves(s.cache, s.ttl, s.clock)
  }

  function Do(s: State, step: Step): State
    requires Enabled(s, step)
  {
    match step
    case Elapse(d) => s.(clock := s.clock + d)
    case Begin(token, answers) => s.(refresh := Asking(token, answers, s.epoch, false))
    case Finish =>
      s.(cache := Refilled(s.cache, s.sources, s.refresh.token, s.refresh.answers, s.clock),
         filledBy := if Fills(s.sources, s.refresh.token, s.refresh.answers) then s.refresh else s.filledBy,
         refresh := Idle)
    case Invalidate =>
      s.(cache := EMPTY, epoch := s.epoch + 1,
         refresh := if s.refresh.Asking? then s.refresh.(overtaken := true) else Idle)
    case Hits => s.(hits := s.hits + [Hit(s.cache.ids, s.filledBy, s.clock - s.cache.at, s.epoch)])
  }

  ghost predicate Moves(s: State, step: Step, s': State) {
    Enabled(s, step) && s' == Do(s, step)
  }

  ghost predicate Runs(s: State, steps: seq<Step>, s': State) {
    if steps == [] then s' == s
    else
      var before, step := steps[..|steps| - 1], steps[|steps| - 1];
      exists m :: Runs(s, before, m) && Moves(m, step, s')
  }

  ghost predicate Starts(s: State) {
    s.cache == EMPTY && s.refresh == Idle && s.epoch == 0 && s.hits == []
  }

  /** What a cached listing is. */
  ghost predicate Complete(sources: seq<Source>, ids: seq<Identity>, r: Refresh) {
    && r.Asking? && r.token
    && ids == Joined(r.answers, |sources|)
    && forall i: nat :: i < |sources| ==> r.answers(i).Ids?
  }

  /** A refresh is from before the latest invalidation exactly when it was overtaken. */
  ghost predicate Timed(r: Refresh, epoch: nat) {
    r.Asking? ==> r.epoch <= epoch && (r.epoch < epoch <==> r.overtaken)
  }

  ghost predicate GoodHit(sources: seq<Source>, ttl: int, h: Hit) {
    && Complete(sources, h.ids, h.filledBy) && h.ids != []
    && 0 <= h.age < ttl
    && Timed(h.filledBy, h.epoch)
  }

  ghost predicate Inv(s: State) {
    && (s.cache.ids != [] ==> Complete(s.sources, s.cache.ids, s.filledBy) && Timed(s.filledBy, s.epoch) && s.cache.at <= s.clock)
    && Timed(s.refresh, s.epoch)
    && forall h :: h in s.hits ==> GoodHit(s.sources, s.ttl, h)
  }

  lemma StepKeepsInv(s: State, step: Step)
    requires Inv(s) && Enabled(s, step)
    ensures Inv(Do(s, step))
  {
    if step.Finish? && Fills(s.sources, s.refresh.token, s.refresh.answers) {
      FinishFillsCompletely(s);
    }
  }

  lemma FinishFillsCompletely(s: State)
    requires s.refresh.Asking? && Fills(s.sources, s.refresh.token, s.refresh.answers)
    ensures Complete(s.sources, Do(s, Finish).cache.ids, s.refresh)
  {
    UsableExactly(s.sources, s.refresh.token, |s.sources|);
    FailuresExactly(s.refresh.answers, Usable(s.sources, s.refresh.token, |s.sources|));
    GatheredIsJoined(s.sources, s.refresh.answers, |s.sources|);
  }

  lemma {:induction false} RunKeepsInv(s: State, steps: seq<Step>, s': State)
    requires Starts(s) && Runs(s, steps, s')
    ensures Inv(s') && s'.sources == s.sources && s'.ttl == s.ttl
  {
    if steps != [] {
      var m :| Runs(s, steps[..|steps| - 1], m) && Moves(m, steps[|steps| - 1], s');
      RunKeepsInv(s, steps[..|steps| - 1], m);
      StepKeepsInv(m, steps[|steps| - 1]);
    }
  }

  /** Whatever the interleaving, a cache hit is the whole listing: every configured
      source's answer in order, none failed, a token held, no older than the TTL.
      It was gathered before some invalidation if and only if one landed while it
      was being gathered. */
  lemma HitsAreComplete(s: State, steps: seq<Step>, s': State, h: Hit)
    requires Starts(s) && Runs(s, steps, s') && h in s'.hits
    ensures h.filledBy.Asking? && h.filledBy.token && h.age < s.ttl
    ensures h.ids == Joined(h.filledBy.answers, |s.sources|)
    ensures forall i: nat :: i < |s.sources| ==> h.filledBy.answers(i).Ids?
    ensures h.filledBy.epoch < h.epoch <==> h.filledBy.overtaken
  {
    RunKeepsInv(s, steps, s');
  }

  /** No refresh is in flight when a mutation invalidates. */
  predicate Sequential(steps: seq<Step>) {
    forall i :: 0 <= i < |steps| && steps[i].Invalidate? ==> !InFlight(steps[..i])
  }

  /** A refresh has begun and not finished. */
  predicate InFlight(steps: seq<Step>) {
    steps != [] &&
    match steps[|steps| - 1]
    case Begin(_, _) => true
    case Finish => false
    case _ => InFlight(steps[..|steps| - 1])
  }

  /** In a sequential history a mutation that reached invalidate is never followed
      by a cache hit gathered before it. */
  lemma NothingStaleIsServed(s: State, steps: seq<Step>, s': State, h: Hit)
    requires Starts(s) && Runs(s, steps, s') && Sequential(steps) && h in s'.hits
    ensures h.filledBy.Asking? && h.filledBy.epoch == h.epoch
  {
    RunKeepsInv(s, steps, s');
    NeverOvertaken(s, steps, s');
  }

  ghost predicate Punctual(s: State) {
    && (s.refresh.Asking? ==> !s.refresh.overtaken)
    && (s.cache.ids != [] ==> s.filledBy.Asking? && !s.filledBy.overtaken)
    && forall h :: h in s.hits ==> h.filledBy.Asking? && !h.filledBy.overtaken
  }

  lemma {:induction false} NeverOvertaken(s: State, steps: seq<Step>, s': State)
    requires Starts(s) && Runs(s, steps, s') && Sequential(steps)
    ensures Punctual(s')
    ensures s'.refresh.Asking? <==> InFlight(steps)
  {
    if steps != [] {
      var before, step := steps[..|steps| - 1], steps[|steps| - 1];
      var m :| Runs(s, before, m) && Moves(m, step, s');
      assert forall i :: 0 <= i < |before| ==> before[..i] == steps[..i];
      NeverOvertaken(s, before, m);
    }
  }

  /** A refresh overtaken by a mutation installs the listing from before it. */
  lemma OvertakenRefresh(before: nat -> Answer, ids: seq<Identity>)
    requires ids != [] && before(0) == Ids(ids)
    ensures var s := State([Source(false, true)], 1, 0, EMPTY, Idle, Idle, 0, []);
      var steps := [Begin(true, before), Invalidate, Finish, Hits];
      exists s' :: Starts(s) && Runs(s, steps, s') && |s'.hits| == 1 && s'.hits[0].ids == ids
                && s'.hits[0].filledBy.Asking? && s'.hits[0].filledBy.epoch < s'.hits[0].epoch
  {
    var s := State([Source(false, true)], 1, 0, EMPTY, Idle, Idle, 0, []);
    var steps := [Begin(true, before), Invalidate, Finish, Hits];
    var one := [0];
    assert Usable(s.sources, true, 1) == one by {
      UsableWithToken(s.sources, 1);
    }
    assert one[1..] == [];
    assert Gathered(before, one) == ids && Failures(before, one) == [];
    var s1 := Do(s, steps[0]);
    var s2 := Do(s1, steps[1]);
    var s3 := Do(s2, steps[2]);
    var s4 := Do(s3, steps[3]);
    assert Runs(s, [], s);
    Extend(s, [], s, steps[0]);
    Extend(s, [] + [steps[0]], s1, steps[1]);
    Extend(s, [] + [steps[0]] + [steps[1]], s2, steps[2]);
    Extend(s, [] + [steps[0]] + [steps[1]] + [steps[2]], s3, steps[3]);
    assert [] + [steps[0]] + [steps[1]] + [steps[2]] + [steps[3]] == steps;
  }

  lemma Extend(s: State, steps: seq<Step>, m: State, step: Step)
    requires Runs(s, steps, m) && Enabled(m, step)
    ensures Runs(s, steps + [step], Do(m, step))
  {
    assert (steps + [step])[..|steps|] == steps;
  }

  /** A listing that is complete is served: a refresh that holds a token, asks every
      configured source and hears from all of them, with something to list, is what a
      List gets from the cache at any time within the TTL, until a mutation. */
  lemma CompleteIsServed(s: State, answers: nat -> Answer, took: nat, later: nat)
    requires s.refresh.Idle? && !Serves(s.cache, s.ttl, s.clock) && s.sources != []
    requires (forall i: nat :: i < |s.sources| ==> answers(i).Ids?) && Joined(answers, |s.sources|) != []
    requires later < s.ttl
    ensures Enabled(s, Begin(true, answers))
    ensures var filled := Do(Do(Do(s, Begin(true, answers)), Elapse(took)), Finish);
      && Enabled(Do(filled, Elapse(later)), Hits)
      && Do(Do(filled, Elapse(later)), Hits).hits
           == s.hits + [Hit(Joined(answers, |s.sources|), Asking(true, answers, s.epoch, false), later, s.epoch)]
  {
    var asked := Usable(s.sources, true, |s.sources|);
    UsableExactly(s.sources, true, |s.sources|);
    assert 0 in asked;
    FailuresExactly(answers, asked);
    GatheredIsJoined(s.sources, answers, |s.sources|);
    if Failures(answers, asked) != [] {
      assert Failures(answers, asked)[0] in Failures(answers, asked);
    }
  }
}
