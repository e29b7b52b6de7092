/** NotifyRejected's lock-free rate limiter (internal/auth/lifecycle.go).

    Any number of goroutines run NotifyRejected at once.  Each one reads the
    clock, loads the shared stamp, tries to swap its own stamp in, and then
    tries to put a nudge into a channel that holds one.  A caller that finds the
    channel full swaps the old stamp back.  The model takes one step per atomic
    access, so every interleaving of those accesses is a run. */
module RejectLimiter {

  /** Where one caller stands inside NotifyRejected.  `stamp` is its reading of
      the clock and `seen` the shared stamp it loaded. */
  datatype Caller =
    | Idle
    | Stamped(stamp: nat)
    | Loaded(stamp: nat, seen: nat)
    | Won(stamp: nat, seen: nat)        // its swap succeeded, the send comes next
    | Refused(stamp: nat, seen: nat)    // the channel was full, the release comes next

  datatype State = State(
    window: nat,
    now: nat,                 // monotonic time since the clock base
    last: nat,                // lastRejectNotifyAt; 0 is "never reported"
    nudged: bool,             // rejectCh holds its one element
    callers: seq<Caller>,
    queued: seq<Report>,      // history: the reports that were queued, in order
    orphans: set<nat>,        // history: stamps whose release found another stamp
    received: seq<nat>)       // history: when the channel was emptied

  /** A queued report: its stamp, and when it went into the channel. */
  datatype Report = Report(stamp: nat, at: nat)

  datatype Step =
    | Elapse(d: nat)
    | ReadClock(t: nat)
    | Load(t: nat)
    | Swap(t: nat)
    | Send(t: nat)
    | Release(t: nat)
    | Receive                 // the lifecycle goroutine (or drainReject) empties the channel

  const DEFAULT_WINDOW: nat := 10_000_000_000

  function Window(recoveryInterval: int): (w: nat)
    ensures w > 0
    ensures recoveryInterval <= 0 ==> w == 10_000_000_000   // ten seconds
  {
    if recoveryInterval <= 0 then DEFAULT_WINDOW else recoveryInterval
  }

  predicate Enabled(s: State, step: Step) {
    match step
    case Elapse(_) => true
    case Receive => s.nudged
    case ReadClock(t) => t < |s.callers| && s.callers[t].Idle?
    case Load(t) => t < |s.callers| && s.callers[t].Stamped?
    case Swap(t) => t < |s.callers| && s.callers[t].Loaded?
    case Send(t) => t < |s.callers| && s.callers[t].Won?
    case Release(t) => t < |s.callers| && s.callers[t].Refused?
  }

  predicate InsideWindow(s: State, stamp: nat, seen: nat) {
    seen != 0 && stamp - seen < s.window
  }

  function Do(s: State, step: Step): State
    requires Enabled(s, step)
  {
    match step
    case Elapse(d) => s.(now := s.now + d)
    case Receive => s.(nudged := false, received := s.received + [s.now])
    case ReadClock(t) =>
      s.(callers := s.callers[t := Stamped(if s.now == 0 then 1 else s.now)])
    case Load(t) =>
      s.(callers := s.callers[t := Loaded(s.callers[t].stamp, s.last)])
    case Swap(t) =>
      var c := s.callers[t];
      if InsideWindow(s, c.stamp, c.seen) || s.last != c.seen then
        s.(callers := s.callers[t := Idle])
      else
        s.(last := c.stamp, callers := s.callers[t := Won(c.stamp, c.seen)])
    case Send(t) =>
      var c := s.callers[t];
      if s.nudged then
        s.(callers := s.callers[t := Refused(c.stamp, c.seen)])
      else
        s.(nudged := true, queued := s.queued + [Report(c.stamp, s.now)], callers := s.callers[t := Idle])
    case Release(t) =>
      var c := s.callers[t];
      if s.last == c.stamp then
        s.(last := c.seen, callers := s.callers[t := Idle])
      else
        s.(orphans := s.orphans + {c.stamp}, callers := s.callers[t := Idle])
  }

  predicate IsRun(s: State, steps: seq<Step>)
    decreases |steps|
  {
    steps == [] || (Enabled(s, steps[0]) && IsRun(Do(s, steps[0]), steps[1..]))
  }

  function Exec(s: State, steps: seq<Step>): State
    requires IsRun(s, steps)
    decreases |steps|
  {
    if steps == [] then s else Exec(Do(s, steps[0]), steps[1..])
  }

  /** The manager before its first report: any number of callers, none active. */
  predicate Initial(s: State) {
    && s.window > 0
    && s.last == 0 && !s.nudged
    && (forall t :: 0 <= t < |s.callers| ==> s.callers[t].Idle?)
    && s.queued == [] && s.orphans == {} && s.received == []
  }

  // ---------------------------------------------------------------- invariant

  /** A caller that owns a stamp: it swapped it in and has neither sent nor released. */
  predicate Holds(c: Caller) {
    c.Won? || c.Refused?
  }

  /** Stamp `x` is clear of the interval (c.seen, c.stamp + window) that `c` claims. */
  predicate Clear(s: State, c: Caller, x: nat)
    requires Holds(c)
  {
    x <= c.seen || x >= c.stamp + s.window
  }

  ghost predicate Spaced(stamps: set<nat>, window: nat) {
    forall a, b :: a in stamps && b in stamps && a < b ==> b - a >= window
  }

  /** Stamps nobody holds any more: queued, or left behind by a failed release. */
  function Spent(s: State): set<nat> {
    Stamps(s.queued) + s.orphans
  }

  function Stamps(reports: seq<Report>): set<nat> {
    set r | r in reports :: r.stamp
  }

  ghost predicate Distinct(reports: seq<Report>) {
    forall i, j :: 0 <= i < j < |reports| ==> reports[i].stamp != reports[j].stamp
  }

  ghost predicate HolderInv(s: State) {
    forall t :: 0 <= t < |s.callers| && Holds(s.callers[t]) ==> HolderOk(s, t)
  }

  ghost predicate HolderOk(s: State, t: nat)
    requires t < |s.callers| && Holds(s.callers[t])
  {
    && (s.callers[t].seen == 0 || s.callers[t].stamp >= s.callers[t].seen + s.window)
    && s.callers[t].stamp <= s.last
    && (forall x :: x in Spent(s) ==> Clear(s, s.callers[t], x))
    && (forall u :: 0 <= u < |s.callers| && u != t && Holds(s.callers[u]) ==>
          Clear(s, s.callers[t], s.callers[u].stamp))
  }

  ghost predicate Inv(s: State) {
    && s.window > 0
    && (forall t :: 0 <= t < |s.callers| && !s.callers[t].Idle? ==> s.callers[t].stamp > 0)
    && HolderInv(s)
    && (forall x :: x in Spent(s) ==> 0 < x <= s.last)
    && Spaced(Spent(s), s.window)
    && Stamps(s.queued) !! s.orphans
    && Distinct(s.queued)
  }

  lemma {:induction false} StepKeepsInv(s: State, step: Step)
    requires Inv(s) && Enabled(s, step)
    ensures Inv(Do(s, step))
  {
    var s' := Do(s, step);
    match step {
      case Elapse(_) =>
      case Receive =>
      case ReadClock(t) => SameHolders(s, s', t);
      case Load(t) => SameHolders(s, s', t);
      case Swap(t) => SwapKeepsInv(s, t);
      case Send(t) => SendKeepsInv(s, t);
      case Release(t) => ReleaseKeepsInv(s, t);
    }
  }

  lemma SameHolders(s: State, s': State, t: nat)
    requires Inv(s) && t < |s.callers| && !Holds(s.callers[t])
    requires s' == s.(callers := s'.callers) && |s'.callers| == |s.callers|
    requires s'.callers == s.callers[t := s'.callers[t]]
    requires !Holds(s'.callers[t]) && (!s'.callers[t].Idle? ==> s'.callers[t].stamp > 0)
    ensures Inv(s')
  {
    assert forall u :: 0 <= u < |s.callers| && u != t ==> s'.callers[u] == s.callers[u];
  }

  lemma SwapKeepsInv(s: State, t: nat)
    requires Inv(s) && Enabled(s, Swap(t))
    ensures Inv(Do(s, Swap(t)))
  {
    var s' := Do(s, Swap(t));
    var c := s.callers[t];
    if s.last != c.seen || InsideWindow(s, c.stamp, c.seen) {
      SameHolders(s, s', t);
    } else {
      forall u | 0 <= u < |s.callers| && u != t && Holds(s.callers[u])
        ensures s.callers[u].stamp <= c.seen && c.stamp >= s.callers[u].stamp + s.window
      {
        assert s.callers[u].stamp <= s.last;
      }
      assert forall u :: 0 <= u < |s.callers| && u != t ==> s'.callers[u] == s.callers[u];
      assert forall x :: x in Spent(s) ==> x <= c.seen;
    }
  }

  lemma SendKeepsInv(s: State, t: nat)
    requires Inv(s) && Enabled(s, Send(t))
    ensures Inv(Do(s, Send(t)))
  {
    var s' := Do(s, Send(t));
    if s.nudged {
      assert forall u :: 0 <= u < |s.callers| && u != t ==> s'.callers[u] == s.callers[u];
      assert Spent(s') == Spent(s);
      assert HolderInv(s');
    } else {
      QueueOne(s.queued, Report(s.callers[t].stamp, s.now));
      assert Spent(s') == Spent(s) + {s.callers[t].stamp};
      SpendKeepsHolders(s, s', t);
    }
  }

  lemma QueueOne(reports: seq<Report>, r: Report)
    ensures Stamps(reports + [r]) == Stamps(reports) + {r.stamp}
    ensures Distinct(reports) && r.stamp !in Stamps(reports) ==> Distinct(reports + [r])
  {
    assert forall x :: x in reports + [r] <==> x in reports || x == r;
    forall i | 0 <= i < |reports| && r.stamp !in Stamps(reports) ensures reports[i].stamp != r.stamp {
      assert reports[i] in reports;
    }
  }

  /** A holder's stamp can join the spent ones: it is clear of all of them. */
  lemma SpendKeepsSpacing(s: State, t: nat)
    requires Inv(s) && t < |s.callers| && Holds(s.callers[t])
    ensures Spaced(Spent(s) + {s.callers[t].stamp}, s.window)
    ensures s.callers[t].stamp !in Spent(s)
  {
    var c := s.callers[t];
    forall x | x in Spent(s)
      ensures x < c.stamp ==> c.stamp - x >= s.window
      ensures x >= c.stamp ==> x - c.stamp >= s.window
    {
      assert Clear(s, c, x);
    }
  }

  /** Caller t leaves for good and its stamp counts as spent. */
  lemma SpendKeepsHolders(s: State, s': State, t: nat)
    requires Inv(s) && t < |s.callers| && Holds(s.callers[t])
    requires s'.window == s.window && s'.last == s.last
    requires s'.callers == s.callers[t := Idle]
    requires Spent(s') == Spent(s) + {s.callers[t].stamp}
    ensures HolderInv(s')
    ensures Spaced(Spent(s'), s'.window) && s.callers[t].stamp !in Spent(s)
    ensures forall x :: x in Spent(s') ==> 0 < x <= s'.last
  {
    SpendKeepsSpacing(s, t);
    forall u | 0 <= u < |s'.callers| && Holds(s'.callers[u]) ensures HolderOk(s', u) {
      assert u != t && HolderOk(s, u);
      assert Clear(s, s.callers[u], s.callers[t].stamp);
    }
  }

  lemma ReleaseKeepsInv(s: State, t: nat)
    requires Inv(s) && Enabled(s, Release(t))
    ensures Inv(Do(s, Release(t)))
  {
    if s.last == s.callers[t].stamp {
      HandBackKeepsInv(s, t);
    } else {
      OrphaningKeepsInv(s, t);
    }
  }

  /** Handing the old stamp back uncovers nothing: whatever is spent or held
      below the released stamp is also at or below the stamp it restores. */
  lemma HandBackKeepsInv(s: State, t: nat)
    requires Inv(s) && Enabled(s, Release(t)) && s.last == s.callers[t].stamp
    ensures Inv(Do(s, Release(t)))
  {
    var s' := Do(s, Release(t));
    var c := s.callers[t];
    assert Spent(s') == Spent(s);
    forall x | x in Spent(s) ensures x <= c.seen { assert Clear(s, c, x); }
    forall u | 0 <= u < |s'.callers| && Holds(s'.callers[u])
      ensures s'.callers[u] == s.callers[u] && s'.callers[u].stamp <= c.seen
    {
      assert u != t;
      assert Clear(s, c, s.callers[u].stamp);
    }
    assert HolderInv(s');
  }

  lemma OrphaningKeepsInv(s: State, t: nat)
    requires Inv(s) && Enabled(s, Release(t)) && s.last != s.callers[t].stamp
    ensures Inv(Do(s, Release(t)))
  {
    var s' := Do(s, Release(t));
    assert Spent(s') == Spent(s) + {s.callers[t].stamp};
    SpendKeepsHolders(s, s', t);
  }

  lemma {:induction false} RunKeepsInv(s: State, steps: seq<Step>)
    requires Inv(s) && IsRun(s, steps)
    ensures Inv(Exec(s, steps)) && Exec(s, steps).window == s.window
    decreases |steps|
  {
    if steps != [] {
      StepKeepsInv(s, steps[0]);
      RunKeepsInv(Do(s, steps[0]), steps[1..]);
    }
  }

  // ----------------------------------------------------------------- theorems

  /** Over every interleaving, any two reports that were queued carry stamps at
      least one window apart; no two carry the same one. */
  lemma {:induction false} QueuedReportsAreSpaced(s: State, steps: seq<Step>, i: nat, j: nat)
    requires Initial(s) && IsRun(s, steps)
    requires i < |Exec(s, steps).queued| && j < |Exec(s, steps).queued| && i != j
    ensures var q := Exec(s, steps).queued;
      q[i].stamp >= q[j].stamp + s.window || q[j].stamp >= q[i].stamp + s.window
  {
    RunKeepsInv(s, steps);
    var q := Exec(s, steps).queued;
    assert q[i] in q && q[j] in q;
    assert q[i].stamp in Spent(Exec(s, steps)) && q[j].stamp in Spent(Exec(s, steps));
    assert q[i].stamp != q[j].stamp by {
      if i < j {
        assert q[i].stamp != q[j].stamp;
      } else {
        assert q[j].stamp != q[i].stamp;
      }
    }
  }

  lemma {:induction false} SpacedSetIsSmall(stamps: set<nat>, window: nat, a: nat, b: nat)
    requires a <= b
    requires Spaced(stamps, window)
    requires forall x :: x in stamps ==> a <= x <= b
    ensures |stamps| * window <= b - a + window
    decreases |stamps|
  {
    if stamps == {} {
    } else {
      var m := Largest(stamps);
      var rest := stamps - {m};
      assert |stamps| == |rest| + 1;
      assert |stamps| * window == |rest| * window + window;
      if rest != {} {
        var x :| x in rest;
        assert m - x >= window;
        forall y | y in rest ensures a <= y <= m - window { assert m - y >= window; }
        SpacedSetIsSmall(rest, window, a, m - window);
      }
    }
  }

  function Largest(stamps: set<nat>): (m: nat)
    requires stamps != {}
    ensures m in stamps && forall x :: x in stamps ==> x <= m
  {
    LargestExists(stamps);
    var m :| m in stamps && forall x :: x in stamps ==> x <= m;
    m
  }

  lemma {:induction false} LargestExists(stamps: set<nat>)
    requires stamps != {}
    ensures exists m :: m in stamps && forall x :: x in stamps ==> x <= m
    decreases |stamps|
  {
    var x :| x in stamps;
    var rest := stamps - {x};
    if rest == {} {
      assert stamps == {x};
    } else {
      LargestExists(rest);
      var m :| m in rest && forall y :: y in rest ==> y <= m;
      var top := if x > m then x else m;
      forall y | y in stamps ensures y <= top { assert y == x || y in rest; }
      assert top in stamps;
    }
  }

  /** How many of the reports carry a stamp within the span. */
  function CountIn(reports: seq<Report>, a: nat, b: nat): nat {
    if reports == [] then 0
    else
      var n := |reports| - 1;
      CountIn(reports[..n], a, b) + if a <= reports[n].stamp <= b then 1 else 0
  }

  function InSpan(reports: seq<Report>, a: nat, b: nat): set<nat> {
    set x | x in Stamps(reports) && a <= x <= b
  }

  lemma {:induction false} DistinctCount(reports: seq<Report>, a: nat, b: nat)
    requires Distinct(reports)
    ensures CountIn(reports, a, b) == |InSpan(reports, a, b)|
  {
    if reports != [] {
      var n := |reports| - 1;
      DistinctCount(reports[..n], a, b);
      SpanStep(reports[..n], reports[n], a, b);
      assert reports == reports[..n] + [reports[n]];
    }
  }

  lemma NewStamp(before: seq<Report>, r: Report)
    requires Distinct(before + [r])
    ensures r.stamp !in Stamps(before)
  {
    var all := before + [r];
    assert forall i :: 0 <= i < |before| ==> all[i] == before[i] && all[i].stamp != all[|before|].stamp;
  }

  lemma SpanStep(before: seq<Report>, r: Report, a: nat, b: nat)
    requires Distinct(before + [r])
    ensures |InSpan(before + [r], a, b)| == |InSpan(before, a, b)| + if a <= r.stamp <= b then 1 else 0
  {
    QueueOne(before, r);
    NewStamp(before, r);
    var was := InSpan(before, a, b);
    if a <= r.stamp <= b {
      assert InSpan(before + [r], a, b) == was + {r.stamp};
    } else {
      assert InSpan(before + [r], a, b) == was;
    }
  }

  /** The limiter's rate: the reports queued with stamps in a stretch of time
      fill no more windows than the stretch holds, plus one. */
  lemma {:induction false} QueuedReportsPerSpan(s: State, steps: seq<Step>, a: nat, b: nat)
    requires Initial(s) && IsRun(s, steps) && a <= b
    ensures CountIn(Exec(s, steps).queued, a, b) * s.window <= b - a + s.window
  {
    RunKeepsInv(s, steps);
    FewInSpan(Exec(s, steps), a, b);
  }

  lemma FewInSpan(s: State, a: nat, b: nat)
    requires Inv(s) && a <= b
    ensures CountIn(s.queued, a, b) * s.window <= b - a + s.window
  {
    DistinctCount(s.queued, a, b);
    assert InSpan(s.queued, a, b) <= Spent(s);
    SpacedSetIsSmall(InSpan(s.queued, a, b), s.window, a, b);
  }

  // -------------------------------------------------- the checks that follow

  /** A clock reading, which is never later than now except for the reserved 0. */
  predicate ReadBy(stamp: nat, now: nat) {
    stamp <= now || stamp == 1
  }

  /** The channel holds one report, and reports leave it in the order they entered. */
  ghost predicate ChannelInv(queued: seq<Report>, received: seq<nat>, nudged: bool, now: nat) {
    && |queued| == |received| + (if nudged then 1 else 0)
    && (forall i :: 0 <= i < |queued| ==> queued[i].at <= now && ReadBy(queued[i].stamp, queued[i].at))
    && (forall i :: 0 <= i < |received| ==> queued[i].at <= received[i] <= now)
    && (forall i :: 0 < i < |queued| ==> received[i - 1] <= queued[i].at)
  }

  ghost predicate Timely(s: State) {
    && ChannelInv(s.queued, s.received, s.nudged, s.now)
    && (forall t :: 0 <= t < |s.callers| && !s.callers[t].Idle? ==> ReadBy(s.callers[t].stamp, s.now))
  }

  lemma {:induction false} RunIsTimely(s: State, steps: seq<Step>)
    requires Timely(s) && IsRun(s, steps)
    ensures Timely(Exec(s, steps))
    decreases |steps|
  {
    if steps != [] {
      StepIsTimely(s, steps[0]);
      RunIsTimely(Do(s, steps[0]), steps[1..]);
    }
  }

  lemma StepIsTimely(s: State, step: Step)
    requires Timely(s) && Enabled(s, step)
    ensures Timely(Do(s, step))
  {
    ChannelStaysTimely(s, step);
    CallersStayTimely(s, step);
  }

  lemma ChannelStaysTimely(s: State, step: Step)
    requires Timely(s) && Enabled(s, step)
    ensures var s' := Do(s, step); ChannelInv(s'.queued, s'.received, s'.nudged, s'.now)
  {
    if step.Send? && !s.nudged {
      SendKeepsChannel(s.queued, s.received, s.now, Report(s.callers[step.t].stamp, s.now));
    } else if step.Receive? {
      ReceiveKeepsChannel(s.queued, s.received, s.now);
    }
  }

  lemma CallersStayTimely(s: State, step: Step)
    requires Timely(s) && Enabled(s, step)
    ensures var s' := Do(s, step);
      forall t :: 0 <= t < |s'.callers| && !s'.callers[t].Idle? ==> ReadBy(s'.callers[t].stamp, s'.now)
  {
    var s' := Do(s, step);
    forall t | 0 <= t < |s'.callers| && !s'.callers[t].Idle? ensures ReadBy(s'.callers[t].stamp, s'.now) {
      assert step == ReadClock(t) || (!s.callers[t].Idle? && s'.callers[t].stamp == s.callers[t].stamp);
    }
  }

  lemma SendKeepsChannel(queued: seq<Report>, received: seq<nat>, now: nat, r: Report)
    requires ChannelInv(queued, received, false, now) && r.at == now && ReadBy(r.stamp, now)
    ensures ChannelInv(queued + [r], received, true, now)
  {
  }

  lemma ReceiveKeepsChannel(queued: seq<Report>, received: seq<nat>, now: nat)
    requires ChannelInv(queued, received, true, now)
    ensures ChannelInv(queued, received + [now], false, now)
  {
  }

  /** Every report went into the channel at most `stall` after its caller read the clock. */
  ghost predicate Prompt(reports: seq<Report>, stall: nat) {
    forall r :: r in reports ==> r.at <= r.stamp + stall
  }

  /** The checks the reports cause: if the lifecycle loop takes up n of them between
      times `a` and `b`, the i-th and those after it, then n is at most two more than
      the windows that fit into that span lengthened by the longest stall of a caller. */
  lemma {:induction false} ChecksPerSpan(s: State, steps: seq<Step>, a: nat, b: nat, i: nat, n: nat, stall: nat)
    requires Initial(s) && IsRun(s, steps) && Prompt(Exec(s, steps).queued, stall)
    requires 0 < n && i + n <= |Exec(s, steps).received|
    requires a <= Exec(s, steps).received[i] && Exec(s, steps).received[i + n - 1] <= b
    ensures n * s.window <= b - a + stall + 2 * s.window
  {
    RunKeepsInv(s, steps);
    RunIsTimely(s, steps);
    var e := Exec(s, steps);
    AllStampedInSpan(e, a, b, i, i + n - 1, stall);
    if n > 1 {
      FewAmong(e, i + 1, n - 1, Earliest(a, stall), Latest(b));
      Widen(n - 1, s.window, Latest(b) - Earliest(a, stall), b - a + stall);
    }
    OneMore(n - 1, s.window);
  }

  /** The stamps a report taken up after time `a` and by time `b` can carry. */
  function Earliest(a: nat, stall: nat): nat {
    if a > stall + 1 then a - stall else 1
  }

  function Latest(b: nat): nat {
    if b == 0 then 1 else b
  }

  lemma AllStampedInSpan(e: State, a: nat, b: nat, i: nat, j: nat, stall: nat)
    requires Inv(e) && Timely(e) && Prompt(e.queued, stall) && i <= j < |e.received| <= |e.queued|
    requires a <= e.received[i] && e.received[j] <= b
    ensures forall k :: i < k <= j ==> Earliest(a, stall) <= e.queued[k].stamp <= Latest(b)
    ensures a <= b && Latest(b) <= Earliest(a, stall) + (b - a) + stall
    ensures i < j ==> Earliest(a, stall) <= Latest(b)
  {
    forall k | i < k <= j ensures Earliest(a, stall) <= e.queued[k].stamp <= Latest(b) {
      StampsInSpan(e, i, j, k, stall);
    }
    assert i < j ==> Earliest(a, stall) <= e.queued[j].stamp <= Latest(b);
    ReceivedInOrder(e, i, j);
  }

  /** A report received after the i-th and no later than the j-th was stamped in between. */
  lemma StampsInSpan(e: State, i: nat, j: nat, k: nat, stall: nat)
    requires Inv(e) && Timely(e) && Prompt(e.queued, stall) && i < k <= j < |e.received|
    ensures 0 < e.queued[k].stamp && e.received[i] <= e.queued[k].stamp + stall
    ensures ReadBy(e.queued[k].stamp, e.received[j])
  {
    assert e.queued[k] in e.queued && e.queued[k].stamp in Spent(e);
    ReceivedInOrder(e, i, k - 1);
    ReceivedInOrder(e, k, j);
  }

  lemma FewAmong(e: State, i: nat, n: nat, a: nat, b: nat)
    requires Inv(e) && i + n <= |e.queued| && a <= b
    requires forall k :: i <= k < i + n ==> a <= e.queued[k].stamp <= b
    ensures n * e.window <= b - a + e.window
  {
    CountAll(e.queued, i, i + n, a, b);
    FewInSpan(e, a, b);
    Scale(n, CountIn(e.queued, a, b), e.window);
  }

  lemma OneMore(n: nat, window: nat)
    ensures (n + 1) * window == n * window + window
  {
  }

  lemma Scale(n: nat, m: nat, window: nat)
    requires n <= m
    ensures n * window <= m * window
  {
  }

  lemma Widen(n: nat, window: nat, span: int, wider: int)
    requires n * window <= span + window && span <= wider
    ensures n * window <= wider + window
  {
  }

  lemma {:induction false} ReceivedInOrder(s: State, i: nat, j: nat)
    requires Timely(s) && i <= j < |s.received|
    ensures s.received[i] <= s.received[j]
    decreases j - i
  {
    if i < j {
      ReceivedInOrder(s, i, j - 1);
      assert s.received[j - 1] <= s.queued[j].at;
    }
  }

  lemma {:induction false} CountAll(reports: seq<Report>, i: nat, j: nat, a: nat, b: nat)
    requires i <= j <= |reports|
    requires forall k :: i <= k < j ==> a <= reports[k].stamp <= b
    ensures CountIn(reports, a, b) >= j - i
  {
    if reports != [] {
      var n := |reports| - 1;
      if j <= n {
        CountAll(reports[..n], i, j, a, b);
      } else if i <= n {
        CountAll(reports[..n], i, n, a, b);
      }
    }
  }

  /** Callers that stall after reading the clock can make the checks come in a burst:
      three callers with stamps a window apart, all received in one instant. */
  lemma StalledCallersBurst() returns (s: State, steps: seq<Step>)
    ensures Initial(s) && IsRun(s, steps)
    ensures Exec(s, steps).received == [30, 30, 30] && s.window == 10
  {
    s := State(10, 0, 0, false, [Idle, Idle, Idle], [], {}, []);
    steps := StampAfter(s, [], s, 0, 10);
    steps := StampAfter(s, steps, s.(now := 10, callers := [Stamped(10), Idle, Idle]), 1, 10);
    steps := StampAfter(s, steps, s.(now := 20, callers := [Stamped(10), Stamped(20), Idle]), 2, 10);
    var s0 := State(10, 30, 0, false, [Stamped(10), Stamped(20), Stamped(30)], [], {}, []);
    assert Exec(s, steps) == s0;
    steps := ReportAndReceive(s, steps, s0, 0);
    var s1 := State(10, 30, 10, false, [Idle, Stamped(20), Stamped(30)], [Report(10, 30)], {}, [30]);
    assert Exec(s, steps) == s1;
    steps := ReportAndReceive(s, steps, s1, 1);
    var s2 := State(10, 30, 20, false, [Idle, Idle, Stamped(30)], [Report(10, 30), Report(20, 30)], {}, [30, 30]);
    assert Exec(s, steps) == s2;
    steps := ReportAndReceive(s, steps, s2, 2);
  }

  lemma StampAfter(s: State, steps: seq<Step>, m: State, t: nat, d: nat) returns (more: seq<Step>)
    requires IsRun(s, steps) && Exec(s, steps) == m
    requires t < |m.callers| && m.callers[t].Idle? && m.now + d > 0
    ensures IsRun(s, more)
    ensures Exec(s, more) == m.(now := m.now + d, callers := m.callers[t := Stamped(m.now + d)])
  {
    more := steps;
    ExtendRun(s, more, Elapse(d));    more := more + [Elapse(d)];
    ExtendRun(s, more, ReadClock(t)); more := more + [ReadClock(t)];
  }

  /** A stamped caller gets through on its own, and its report is received at once. */
  lemma ReportAndReceive(s: State, steps: seq<Step>, m: State, t: nat) returns (more: seq<Step>)
    requires IsRun(s, steps) && Exec(s, steps) == m
    requires t < |m.callers| && m.callers[t].Stamped? && !m.nudged && !InsideWindow(m, m.callers[t].stamp, m.last)
    ensures IsRun(s, more)
    ensures Exec(s, more) == m.(last := m.callers[t].stamp, callers := m.callers[t := Idle],
                                queued := m.queued + [Report(m.callers[t].stamp, m.now)], received := m.received + [m.now])
  {
    more := steps;
    ExtendRun(s, more, Load(t)); more := more + [Load(t)];
    ExtendRun(s, more, Swap(t)); more := more + [Swap(t)];
    ExtendRun(s, more, Send(t)); more := more + [Send(t)];
    ExtendRun(s, more, Receive); more := more + [Receive];
  }

  // ------------------------------------------------- who pays for the window

  /** No caller is between its swap and the end of its call. */
  predicate Quiet(s: State) {
    forall t :: 0 <= t < |s.callers| ==> !Holds(s.callers[t])
  }

  /** `x` is no stamp at all, a spent one, or one still held. */
  ghost predicate Explained(s: State, x: nat) {
    || x == 0
    || x in Spent(s)
    || exists t :: 0 <= t < |s.callers| && Holds(s.callers[t]) && s.callers[t].stamp == x
  }

  ghost predicate AccountInv(s: State) {
    && Inv(s)
    && Explained(s, s.last)
    && forall t :: 0 <= t < |s.callers| && Holds(s.callers[t]) ==> Explained(s, s.callers[t].seen)
  }

  /** An explanation survives a step, unless it is the stamp being handed back. */
  lemma ExplanationSurvives(s: State, step: Step, x: nat)
    requires Inv(s) && Enabled(s, step) && Explained(s, x)
    requires !(step.Release? && s.callers[step.t].stamp == x && s.last == x)
    ensures Explained(Do(s, step), x)
  {
    var s' := Do(s, step);
    if x != 0 && x !in Spent(s) {
      var u :| 0 <= u < |s.callers| && Holds(s.callers[u]) && s.callers[u].stamp == x;
      if Holds(s'.callers[u]) {
        assert s'.callers[u].stamp == x;
      } else {
        assert x in Spent(s');
      }
    }
  }

  lemma {:induction false} StepKeepsAccount(s: State, step: Step)
    requires AccountInv(s) && Enabled(s, step)
    ensures AccountInv(Do(s, step))
  {
    var s' := Do(s, step);
    StepKeepsInv(s, step);
    forall t | 0 <= t < |s'.callers| && Holds(s'.callers[t])
      ensures Explained(s', s'.callers[t].seen)
    {
      if Holds(s.callers[t]) {
        ExplanationSurvives(s, step, s.callers[t].seen);
      } else {
        assert step == Swap(t);
        ExplanationSurvives(s, step, s.last);
      }
    }
    if step.Release? && s.last == s.callers[step.t].stamp {
      ExplanationSurvives(s, step, s'.last);
    } else if s'.last == s.last {
      ExplanationSurvives(s, step, s.last);
    } else {
      assert Holds(s'.callers[step.t]) && s'.callers[step.t].stamp == s'.last;
    }
  }

  lemma {:induction false} RunKeepsAccount(s: State, steps: seq<Step>)
    requires AccountInv(s) && IsRun(s, steps)
    ensures AccountInv(Exec(s, steps))
    decreases |steps|
  {
    if steps != [] {
      StepKeepsAccount(s, steps[0]);
      RunKeepsAccount(Do(s, steps[0]), steps[1..]);
    }
  }

  /** The window standing at a quiet moment was consumed by a queued report
      exactly when its stamp was not left behind by a release that lost its own
      swap.  In particular a run in which every release finds its own stamp
      never spends a window on a report that queued nothing. */
  lemma {:induction false} WindowPaidUnlessOrphaned(s: State, steps: seq<Step>)
    requires Initial(s) && IsRun(s, steps) && Quiet(Exec(s, steps))
    ensures var e := Exec(s, steps);
      (e.last == 0 || e.last in Stamps(e.queued)) <==> e.last !in e.orphans
  {
    RunKeepsAccount(s, steps);
  }

  // -------------------------------------------------- the window handed back

  /** The step is a swap that succeeds. */
  predicate Wins(s: State, step: Step) {
    && step.Swap? && step.t < |s.callers| && s.callers[step.t].Loaded?
    && !InsideWindow(s, s.callers[step.t].stamp, s.callers[step.t].seen) && s.last == s.callers[step.t].seen
  }

  predicate NobodyWins(s: State, steps: seq<Step>)
    requires IsRun(s, steps)
    decreases |steps|
  {
    steps == [] || (!Wins(s, steps[0]) && NobodyWins(Do(s, steps[0]), steps[1..]))
  }

  /** While nobody else wins, a holder's stamp stays the standing one. */
  lemma {:induction false} StampStands(s: State, steps: seq<Step>, t: nat)
    requires Inv(s) && IsRun(s, steps) && NobodyWins(s, steps)
    requires t < |s.callers| && Holds(s.callers[t]) && s.last == s.callers[t].stamp
    ensures var e := Exec(s, steps);
      && t < |e.callers|
      && (Holds(e.callers[t]) ==> e.callers[t].seen == s.callers[t].seen && e.last == e.callers[t].stamp == s.callers[t].stamp)
    decreases |steps|
  {
    if steps != [] {
      StepKeepsInv(s, steps[0]);
      StampStaysPut(s, steps[0], t);
      var s' := Do(s, steps[0]);
      if Holds(s'.callers[t]) {
        StampStands(s', steps[1..], t);
      } else {
        NeverHoldsAgain(s', steps[1..], t);
      }
    }
  }

  lemma StampStaysPut(s: State, step: Step, t: nat)
    requires Inv(s) && Enabled(s, step) && !Wins(s, step)
    requires t < |s.callers| && Holds(s.callers[t]) && s.last == s.callers[t].stamp
    ensures var s' := Do(s, step);
      && t < |s'.callers|
      && (Holds(s'.callers[t]) ==> s'.callers[t].seen == s.callers[t].seen && s'.last == s'.callers[t].stamp == s.callers[t].stamp)
  {
    if step.Release? && step.t != t {
      assert HolderOk(s, step.t) && Clear(s, s.callers[step.t], s.callers[t].stamp);
    }
  }

  /** Without a swap that succeeds nobody comes to hold a stamp. */
  lemma {:induction false} NeverHoldsAgain(s: State, steps: seq<Step>, t: nat)
    requires IsRun(s, steps) && NobodyWins(s, steps) && t < |s.callers| && !Holds(s.callers[t])
    ensures t < |Exec(s, steps).callers| && !Holds(Exec(s, steps).callers[t])
    decreases |steps|
  {
    if steps != [] {
      NeverHoldsAgain(Do(s, steps[0]), steps[1..], t);
    }
  }

  /** The window handed back: if between a caller's swap and its release no swap of
      anyone succeeds, the release restores the stamp the caller had loaded. */
  lemma {:induction false} ReleaseRestores(s: State, before: seq<Step>, t: nat, mid: seq<Step>)
    requires Initial(s) && IsRun(s, before) && Wins(Exec(s, before), Swap(t))
    requires IsRun(Do(Exec(s, before), Swap(t)), mid) && NobodyWins(Do(Exec(s, before), Swap(t)), mid)
    requires Enabled(Exec(Do(Exec(s, before), Swap(t)), mid), Release(t))
    ensures Do(Exec(Do(Exec(s, before), Swap(t)), mid), Release(t)).last == Exec(s, before).last
  {
    RunKeepsInv(s, before);
    StepKeepsInv(Exec(s, before), Swap(t));
    StampStands(Do(Exec(s, before), Swap(t)), mid, t);
  }

  // ------------------------------------------------------ calls one at a time

  predicate OneAtATime(s: State) {
    forall t, u :: 0 <= t < u < |s.callers| ==> s.callers[t].Idle? || s.callers[u].Idle?
  }

  /** No two calls overlap. */
  predicate Serial(s: State, steps: seq<Step>)
    requires IsRun(s, steps)
    decreases |steps|
  {
    OneAtATime(s) && (steps == [] || Serial(Do(s, steps[0]), steps[1..]))
  }

  /** The stamp of the last report queued, or 0. */
  function LastQueued(s: State): nat {
    if s.queued == [] then 0 else s.queued[|s.queued| - 1].stamp
  }

  /** Whoever holds a stamp has it standing over the last one queued; while nobody
      does, that one stands. */
  ghost predicate SerialInv(s: State) {
    && OneAtATime(s)
    && (forall t :: 0 <= t < |s.callers| && Holds(s.callers[t]) ==>
          s.last == s.callers[t].stamp && s.callers[t].seen == LastQueued(s))
    && (Quiet(s) ==> s.last == LastQueued(s))
    && (forall t :: 0 <= t < |s.callers| && !s.callers[t].Idle? ==> s.callers[t].stamp > 0)
    && (forall r :: r in s.queued ==> r.stamp > 0)
  }

  lemma SerialStep(s: State, step: Step)
    requires SerialInv(s) && Enabled(s, step) && OneAtATime(Do(s, step))
    ensures SerialInv(Do(s, step))
  {
    var s' := Do(s, step);
    if !step.Elapse? && !step.Receive? {
      var t := step.t;
      OthersIdle(s, step);
      assert forall u :: 0 <= u < |s.callers| && u != t ==> s'.callers[u].Idle?;
      assert Quiet(s') <==> !Holds(s'.callers[t]);
      assert Quiet(s) <==> !Holds(s.callers[t]);
    } else {
      assert s'.callers == s.callers;
    }
  }

  lemma OthersIdle(s: State, step: Step)
    requires OneAtATime(s) && Enabled(s, step) && OneAtATime(Do(s, step)) && !step.Elapse? && !step.Receive?
    ensures forall u :: 0 <= u < |s.callers| && u != step.t ==> s.callers[u].Idle? && Do(s, step).callers[u] == s.callers[u]
  {
    var s' := Do(s, step);
    var t := step.t;
    forall u | 0 <= u < |s.callers| && u != t ensures s.callers[u].Idle? && s'.callers[u] == s.callers[u] {
      assert s'.callers[u] == s.callers[u];
      if step.ReadClock? {
        assert !s'.callers[t].Idle?;
      } else {
        assert !s.callers[t].Idle?;
      }
      assert u < t || t < u;
    }
  }

  lemma {:induction false} RunIsSerial(s: State, steps: seq<Step>)
    requires SerialInv(s) && IsRun(s, steps) && Serial(s, steps)
    ensures SerialInv(Exec(s, steps))
    decreases |steps|
  {
    if steps != [] {
      SerialStep(s, steps[0]);
      RunIsSerial(Do(s, steps[0]), steps[1..]);
    }
  }

  /** In a run whose calls do not overlap, the stamp standing at rest is that of the
      last report queued, or 0 before the first. */
  lemma {:induction false} WindowIsThatOfTheLast(s: State, steps: seq<Step>)
    requires Initial(s) && IsRun(s, steps) && Serial(s, steps) && Quiet(Exec(s, steps))
    ensures Exec(s, steps).last == LastQueued(Exec(s, steps))
  {
    RunIsSerial(s, steps);
  }

  /** One whole call of NotifyRejected by an idle caller, undisturbed. */
  function Call(s: State, t: nat): State
    requires Enabled(s, ReadClock(t))
  {
    var swapped := Do(Do(Do(s, ReadClock(t)), Load(t)), Swap(t));
    if swapped.callers[t].Idle? then swapped
    else
      var sent := Do(swapped, Send(t));
      if sent.callers[t].Idle? then sent else Do(sent, Release(t))
  }

  /** Such a call, after any run without overlapping calls, queues its report exactly if
      the channel is empty and a window has passed since the last report queued, if any;
      otherwise it leaves no trace. */
  lemma {:induction false} CallQueuesExactly(s: State, steps: seq<Step>, t: nat)
    requires Initial(s) && IsRun(s, steps) && Serial(s, steps)
    requires Enabled(Exec(s, steps), ReadClock(t)) && forall u :: 0 <= u < |Exec(s, steps).callers| ==> Exec(s, steps).callers[u].Idle?
    ensures var e := Exec(s, steps);
      var stamp := if e.now == 0 then 1 else e.now;
      if !e.nudged && (e.queued == [] || stamp - e.queued[|e.queued| - 1].stamp >= e.window) then
        Call(e, t) == e.(last := stamp, nudged := true, queued := e.queued + [Report(stamp, e.now)])
      else Call(e, t) == e
  {
    var e := Exec(s, steps);
    RunIsSerial(s, steps);
    assert Quiet(e);
    CallIs(e, t);
    if e.queued != [] {
      assert e.queued[|e.queued| - 1] in e.queued;
    }
  }

  lemma CallIs(e: State, t: nat)
    requires Enabled(e, ReadClock(t))
    ensures var stamp := if e.now == 0 then 1 else e.now;
      if !e.nudged && !InsideWindow(e, stamp, e.last) then
        Call(e, t) == e.(last := stamp, nudged := true, queued := e.queued + [Report(stamp, e.now)])
      else Call(e, t) == e
  {
    var stamp := if e.now == 0 then 1 else e.now;
    var cs := e.callers;
    assert cs[t := Stamped(stamp)][t := Loaded(stamp, e.last)] == cs[t := Loaded(stamp, e.last)];
    assert cs[t := Loaded(stamp, e.last)][t := Idle] == cs;
    assert cs[t := Loaded(stamp, e.last)][t := Won(stamp, e.last)][t := Idle] == cs;
    assert cs[t := Loaded(stamp, e.last)][t := Won(stamp, e.last)][t := Refused(stamp, e.last)][t := Idle] == cs;
  }

  lemma {:induction false} ExtendRun(s: State, steps: seq<Step>, step: Step)
    requires IsRun(s, steps) && Enabled(Exec(s, steps), step)
    ensures IsRun(s, steps + [step]) && Exec(s, steps + [step]) == Do(Exec(s, steps), step)
    decreases |steps|
  {
    if steps == [] {
      assert steps + [step] == [step];
    } else {
      ExtendRun(Do(s, steps[0]), steps[1..], step);
      assert (steps + [step])[1..] == steps[1..] + [step];
    }
  }

  /** The comment on NotifyRejected says only a call that queues a nudge
      consumes the window.  Two callers that both find the channel full, the
      second overtaking the first before it hands its stamp back, leave the
      first one's stamp standing although it queued nothing. */
  lemma OrphanedWindow() returns (s: State, steps: seq<Step>)
    ensures Initial(s) && IsRun(s, steps) && Quiet(Exec(s, steps))
    ensures var e := Exec(s, steps); e.last != 0 && e.last !in Stamps(e.queued)
  {
    s := State(10, 0, 0, false, [Idle, Idle], [], {}, []);
    // One report is queued at 100 and stays in the channel.
    steps := CallAfter(s, [], s, 0, 100);
    var s1 := State(10, 100, 100, true, [Idle, Idle], [Report(100, 100)], {}, []);
    // Caller 0 swaps in 120 and finds the channel full.
    steps := CallAfter(s, steps, s1, 0, 20);
    var s2 := State(10, 120, 120, true, [Refused(120, 100), Idle], [Report(100, 100)], {}, []);
    // Caller 1 overtakes it with 140 and finds the channel full too.
    steps := CallAfter(s, steps, s2, 1, 20);
    var s3 := State(10, 140, 140, true, [Refused(120, 100), Refused(140, 120)], [Report(100, 100)], {}, []);
    assert Exec(s, steps) == s3;
    // Caller 0 cannot release; caller 1 restores 120, which nobody owns.
    ExtendRun(s, steps, Release(0));   steps := steps + [Release(0)];
    ExtendRun(s, steps, Release(1));   steps := steps + [Release(1)];
    assert Exec(s, steps) == State(10, 140, 120, true, [Idle, Idle], [Report(100, 100)], {120}, []);
    assert Stamps([Report(100, 100)]) == {100};
  }

  /** An idle caller, `d` later and undisturbed, reads the clock and goes on until it
      has sent its nudge or found the channel full. */
  lemma CallAfter(s: State, steps: seq<Step>, m: State, t: nat, d: nat) returns (more: seq<Step>)
    requires IsRun(s, steps) && Exec(s, steps) == m
    requires t < |m.callers| && m.callers[t].Idle? && m.now + d > 0 && !InsideWindow(m, m.now + d, m.last)
    ensures IsRun(s, more)
    ensures Exec(s, more) == m.(now := m.now + d, last := m.now + d, nudged := true,
                                callers := m.callers[t := if m.nudged then Refused(m.now + d, m.last) else Idle],
                                queued := if m.nudged then m.queued else m.queued + [Report(m.now + d, m.now + d)])
  {
    more := steps;
    ExtendRun(s, more, Elapse(d));    more := more + [Elapse(d)];
    ExtendRun(s, more, ReadClock(t)); more := more + [ReadClock(t)];
    ExtendRun(s, more, Load(t));      more := more + [Load(t)];
    ExtendRun(s, more, Swap(t));      more := more + [Swap(t)];
    ExtendRun(s, more, Send(t));      more := more + [Send(t)];
  }
}
