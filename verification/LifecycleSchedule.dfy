/** The lifecycle manager's timer: out-of-cycle checks neither postpone the
    scheduled one nor advance its backoff. */
module LifecycleSchedule {
  import opened Lifecycle

  /** The parts of the state that only the end of a cycle touches. */
  ghost predicate SameSchedule(s: State, t: State) {
    && t.now >= s.now
    && t.currentDelay == s.currentDelay && t.due == s.due && t.nextTickAt == s.nextTickAt
  }

  lemma {:induction false} TryEachKeepsSchedule(c: Config, s: State, x: ReloadInput, candidates: seq<Token>, current: Token)
    ensures SameSchedule(s, TryEach(c, s, x, candidates, current).s)
    decreases |candidates|
  {
    if candidates != [] && !Answered(ReplyFor(x, candidates[0]).outcome) {
      TryEachKeepsSchedule(c, Present(c, s, x, candidates[0]), x, candidates[1..], current);
    }
  }

  lemma TryReloadKeepsSchedule(c: Config, s: State, x: ReloadInput)
    ensures SameSchedule(s, TryReload(c, s, x).s)
  {
    var g := Gather(c, s, x);
    assert SameSchedule(s, g.s);
    TryEachKeepsSchedule(c, g.s, x, g.candidates, s.shared.token);
  }

  lemma ReplacementKeepsSchedule(c: Config, s: State, x: CycleInput)
    ensures SameSchedule(s, ReplaceToken(c, s, x).s)
    ensures SameSchedule(s, ReloadInFlux(c, s, x.reload).s)
  {
    TryReloadKeepsSchedule(c, SetFlux(s, true), x.reload);
    var r := TryReload(c, SetFlux(s, true), x.reload);
    assert SameSchedule(r.s, TryRecover(c, r.s, x.hook).s);
  }

  /** What the reaction to a check does to the delay, by how it ended. */
  lemma ReactDelay(c: Config, k: Checked, x: CycleInput, scheduled: bool)
    ensures var t := React(c, k, x, scheduled);
      && t.s.now >= k.s.now && t.s.due == k.s.due && t.s.nextTickAt == k.s.nextTickAt
      && t.s.currentDelay ==
           if t.ok then c.checkInterval
           else if Recovering(k) then c.recoveryInterval
           else BackoffFrom(c, k.s.currentDelay, scheduled)
  {
    if Recovering(k) {
      ReplacementKeepsSchedule(c, k.s, x);
      var r := ReplaceToken(c, k.s, x);
      assert SameSchedule(r.s, SignalReauth(c, r.s, x.onReauthClears));
    } else if k.verdict.RenewFailed? {
      ReplacementKeepsSchedule(c, k.s, x);
    }
  }

  lemma CycleDelay(c: Config, s: State, x: CycleInput, scheduled: bool)
    ensures var k := CheckAndRenew(c, s, x);
      var t := Cycle(c, s, x, scheduled);
      && t.s.now >= s.now && t.s.due == s.due && t.s.nextTickAt == s.nextTickAt
      && t.s.currentDelay ==
           if t.ok then c.checkInterval
           else if Recovering(k) then c.recoveryInterval
           else BackoffFrom(c, s.currentDelay, scheduled)
  {
    var k := CheckAndRenew(c, s, x);
    assert SameSchedule(s, k.s);
    ReactDelay(c, k, x, scheduled);
  }

  // --------------------------------------------------------------- starvation

  /** The loop's own idea of the next tick is never later than the timer. */
  predicate Punctual(s: State) {
    s.nextTickAt <= s.due
  }

  lemma {:induction false} StepIsPunctual(c: Config, s: State, step: Step)
    requires Punctual(s) && Enabled(s, step)
    ensures Punctual(Do(c, s, step)) && Do(c, s, step).now >= s.now
  {
    match step {
      case Tick(x) => CycleDelay(c, Log(s, Began), x, true);
      case Reject(x) => CycleDelay(c, Log(s, Began).(nudged := false), x, false);
      case Reload(x) =>
        var s2 := ClearDenials(Log(s, Began));
        TryReloadKeepsSchedule(c, SetFlux(s2, true), x);
      case _ =>
    }
  }

  lemma {:induction false} RunIsPunctual(c: Config, s: State, steps: seq<Step>)
    requires Punctual(s) && IsRun(c, s, steps)
    ensures Punctual(Exec(c, s, steps))
    decreases |steps|
  {
    if steps != [] {
      StepIsPunctual(c, s, steps[0]);
      RunIsPunctual(c, Do(c, s, steps[0]), steps[1..]);
    }
  }

  function Max(a: nat, b: nat): nat {
    if a > b then a else b
  }

  /** Everything that can happen between two scheduled checks while no working
      token turns up: time passes, reports arrive, and out-of-cycle checks run. */
  predicate OutOfCycle(c: Config, s: State, step: Step)
    requires Enabled(s, step)
  {
    match step
    case Elapse(_) => true
    case Report => true
    case Adopt(_) => true
    case Reject(x) => !Cycle(c, Log(s, Began).(nudged := false), x, false).ok
    case Reload(x) => !ReloadInFlux(c, ClearDenials(Log(s, Began)), x).ok
    case Tick(_) => false
  }

  predicate AllOutOfCycle(c: Config, s: State, steps: seq<Step>)
    requires IsRun(c, s, steps)
    decreases |steps|
  {
    steps == [] || (OutOfCycle(c, s, steps[0]) && AllOutOfCycle(c, Do(c, s, steps[0]), steps[1..]))
  }

  lemma OutOfCycleNeverPostpones(c: Config, s: State, step: Step)
    requires Punctual(s) && Enabled(s, step) && OutOfCycle(c, s, step)
    ensures var t := Do(c, s, step); t.now >= s.now && t.due <= Max(s.due, t.now)
  {
    match step {
      case Reject(x) => CycleDelay(c, Log(s, Began).(nudged := false), x, false);
      case Reload(x) =>
        var s2 := ClearDenials(Log(s, Began));
        TryReloadKeepsSchedule(c, SetFlux(s2, true), x);
      case _ =>
    }
  }

  lemma {:induction false} RunNeverPostpones(c: Config, s: State, steps: seq<Step>)
    requires Punctual(s) && IsRun(c, s, steps) && AllOutOfCycle(c, s, steps)
    ensures var t := Exec(c, s, steps); t.now >= s.now && t.due <= Max(s.due, t.now)
    decreases |steps|
  {
    if steps != [] {
      OutOfCycleNeverPostpones(c, s, steps[0]);
      StepIsPunctual(c, s, steps[0]);
      RunNeverPostpones(c, Do(c, s, steps[0]), steps[1..]);
    }
  }

  /** Reports cannot starve the scheduled check: in any reachable state, however
      many out-of-cycle checks run without restoring a working token, the timer
      is due no later than it was, or at once. */
  lemma {:induction false} ReportsCannotStarve(c: Config, start: State, steps: seq<Step>, more: seq<Step>)
    requires Starts(c, start) && IsRun(c, start, steps)
    requires IsRun(c, Exec(c, start, steps), more)
    requires AllOutOfCycle(c, Exec(c, start, steps), more)
    ensures var s := Exec(c, start, steps);
      var t := Exec(c, s, more);
      t.due <= Max(s.due, t.now)
  {
    RunIsPunctual(c, start, steps);
    RunNeverPostpones(c, Exec(c, start, steps), more);
  }

  // ------------------------------------------------------------------ backoff

  /** A step whose check, if it runs one, fails for a passing reason: the token
      is not in question, and no fresher one turns up. */
  predicate Passing(c: Config, s: State, step: Step)
    requires Enabled(s, step)
  {
    match step
    case Tick(x) => !Cycle(c, Log(s, Began), x, true).ok && !Recovering(CheckAndRenew(c, Log(s, Began), x))
    case Reject(x) =>
      var s1 := Log(s, Began).(nudged := false);
      !Cycle(c, s1, x, false).ok && !Recovering(CheckAndRenew(c, s1, x))
    case _ => OutOfCycle(c, s, step)
  }

  predicate AllPassing(c: Config, s: State, steps: seq<Step>)
    requires IsRun(c, s, steps)
    decreases |steps|
  {
    steps == [] || (Passing(c, s, steps[0]) && AllPassing(c, Do(c, s, steps[0]), steps[1..]))
  }

  function Ticks(steps: seq<Step>): nat {
    if steps == [] then 0 else (if steps[0].Tick? then 1 else 0) + Ticks(steps[1..])
  }

  /** `d` doubled n times, never past the cap once it has been doubled. */
  function Doubled(c: Config, d: nat, n: nat): nat {
    if n == 0 then d
    else if d * Pow2(n) > c.maxDelay then c.maxDelay else d * Pow2(n)
  }

  lemma DoubledOnce(c: Config, d: nat, n: nat)
    ensures Doubled(c, BackoffFrom(c, d, true), n) == Doubled(c, d, n + 1)
  {
    var p := Pow2(n);
    assert d * Pow2(n + 1) == d * (2 * p) == (d * 2) * p;
    if d * 2 > c.maxDelay {
      MultipleIsLarger(d * 2, p);
      MultipleIsLarger(c.maxDelay, p);
    }
  }

  lemma MultipleIsLarger(a: nat, p: nat)
    requires p > 0
    ensures a * p >= a
  {
  }

  lemma PassingStepDelay(c: Config, s: State, step: Step)
    requires Enabled(s, step) && Passing(c, s, step)
    ensures Do(c, s, step).currentDelay ==
      if step.Tick? then BackoffFrom(c, s.currentDelay, true) else s.currentDelay
  {
    match step {
      case Tick(x) => CycleDelay(c, Log(s, Began), x, true);
      case Reject(x) => CycleDelay(c, Log(s, Began).(nudged := false), x, false);
      case Reload(x) =>
        var s2 := ClearDenials(Log(s, Began));
        TryReloadKeepsSchedule(c, SetFlux(s2, true), x);
      case _ =>
    }
  }

  /** Only scheduled ticks double the delay: over any mix of scheduled checks,
      reports, out-of-cycle checks and reload nudges that all fail for a passing
      reason, the delay is the starting one doubled once per scheduled tick, up
      to the cap. */
  lemma {:induction false} OnlyTicksDouble(c: Config, s: State, steps: seq<Step>)
    requires IsRun(c, s, steps) && AllPassing(c, s, steps)
    ensures Exec(c, s, steps).currentDelay == Doubled(c, s.currentDelay, Ticks(steps))
    decreases |steps|
  {
    if steps != [] {
      PassingStepDelay(c, s, steps[0]);
      OnlyTicksDouble(c, Do(c, s, steps[0]), steps[1..]);
      DoubledOnce(c, s.currentDelay, Ticks(steps[1..]));
    }
  }
}
