/** The recovery hook's backoff: its closed form, and how far apart the calls of
    one failure episode are. */
module LifecycleRecovery {
  import opened Wrappers
  import opened Lifecycle

  // -------------------------------------------------------------- closed form

  function Min(a: nat, b: nat): nat {
    if a < b then a else b
  }

  lemma {:induction false} Pow2Monotone(a: nat, b: nat)
    requires a <= b
    ensures Pow2(a) <= Pow2(b)
    decreases b
  {
    if a < b {
      Pow2Monotone(a, b - 1);
    }
  }

  lemma Pow2Of16()
    ensures Pow2(16) == 65536
  {
    assert Pow2(4) == 16;
    assert Pow2(8) == 256;
    assert Pow2(12) == 4096;
  }

  /** Within the intervals NewLifecycleManager sets up, the shift never overflows. */
  lemma ShiftIsExact(d: nat, shift: nat)
    requires d <= RECOVERY_POLL && shift <= 16
    ensures ShiftLeft64(d, shift) == d * Pow2(shift)
  {
    ShiftIsSmall(d, shift);
    SmallIsNotWrapped(d * Pow2(shift));
  }

  lemma ShiftIsSmall(d: nat, shift: nat)
    requires d <= RECOVERY_POLL && shift <= 16
    ensures d * Pow2(shift) <= 65536 * RECOVERY_POLL
  {
    Pow2Monotone(shift, 16);
    Pow2Of16();
    ScaleMonotone(d, Pow2(shift), 65536);
    ScaleMonotone(65536, d, RECOVERY_POLL);
  }

  lemma SmallIsNotWrapped(n: nat)
    requires n <= 65536 * RECOVERY_POLL
    ensures Wrap64(n) == n
  {
  }

  /** The delay after n failures, without the machine arithmetic. */
  function Backoff(c: Config, n: nat): nat {
    if n <= 1 then 0
    else if c.recoveryInterval == 0 then c.maxDelay
    else Min(c.recoveryInterval * Pow2(Min(n - 1, 16)), c.maxDelay)
  }

  lemma BackoffIsCappedDoubling(c: Config, n: nat)
    requires c.recoveryInterval <= RECOVERY_POLL
    ensures RecoverBackoff(c, n) == Backoff(c, n)
    ensures RecoverBackoff(c, n) <= c.maxDelay
  {
    if n > 1 {
      ShiftIsExact(c.recoveryInterval, Min(n - 1, 16));
    }
  }

  lemma BackoffIsMonotone(c: Config, m: nat, n: nat)
    requires c.recoveryInterval <= RECOVERY_POLL && m <= n
    ensures RecoverBackoff(c, m) <= RecoverBackoff(c, n)
  {
    BackoffIsCappedDoubling(c, m);
    BackoffIsCappedDoubling(c, n);
    if m > 1 && c.recoveryInterval > 0 {
      Pow2Monotone(Min(m - 1, 16), Min(n - 1, 16));
      ScaleMonotone(c.recoveryInterval, Pow2(Min(m - 1, 16)), Pow2(Min(n - 1, 16)));
    }
  }

  lemma ScaleMonotone(k: nat, a: nat, b: nat)
    requires a <= b
    ensures k * a <= k * b
  {
  }

  /** When sixteen doublings reach the cap, clamping the shift is invisible: from
      the second failure on the delay is recoveryInterval doubled n - 1 times, or
      the cap. */
  lemma BackoffDoublesUpToTheCap(c: Config, n: nat)
    requires 0 < c.recoveryInterval <= RECOVERY_POLL
    requires c.recoveryInterval * Pow2(16) >= c.maxDelay
    requires n >= 2
    ensures RecoverBackoff(c, n) == Min(c.recoveryInterval * Pow2(n - 1), c.maxDelay)
  {
    BackoffIsCappedDoubling(c, n);
    if n - 1 > 16 {
      Pow2Monotone(16, n - 1);
      ScaleMonotone(c.recoveryInterval, Pow2(16), Pow2(n - 1));
    }
  }

  /** The daemon's own settings meet that condition. */
  lemma DefaultsReachTheCap(c: Config)
    requires c.recoveryInterval == RECOVERY_POLL && c.maxDelay == MAX_DELAY
    ensures c.recoveryInterval * Pow2(16) >= c.maxDelay
    ensures RecoverBackoff(c, 5) == 160_000_000_000 && RecoverBackoff(c, 6) == MAX_DELAY == 300_000_000_000
  {
    Pow2Of16();
    assert Pow2(4) == 16;
    assert Pow2(5) == 32;
    BackoffIsCappedDoubling(c, 5);
    BackoffIsCappedDoubling(c, 6);
  }

  // --------------------------------------------------------------------- gaps

  /** The calls of one episode, each after the backoff its predecessors earned. */
  ghost predicate Paced(c: Config, episode: seq<Attempt>, now: nat) {
    && (forall i :: 0 <= i < |episode| ==> episode[i].called <= episode[i].failed <= now)
    && (forall i :: 0 < i < |episode| ==>
          episode[i].called >= episode[i - 1].failed + RecoverBackoff(c, i))
  }

  /** The last call of the hook the log tells of. */
  function LastHook(log: seq<Event>): Option<Event> {
    if log == [] then None
    else if log[|log| - 1].HookCalled? then Some(log[|log| - 1])
    else LastHook(log[..|log| - 1])
  }

  /** The hook's last call failed, and since then no token has been found to work and
      no expired reload candidate been adopted. */
  function Failing(log: seq<Event>): bool {
    if log == [] then false
    else
      match log[|log| - 1]
      case HookCalled(_, worked, _) => !worked
      case Lookup(_, _, _, works, stale) => !works && !stale && Failing(log[..|log| - 1])
      case _ => Failing(log[..|log| - 1])
  }

  /** The failures `after` are those before the call `prev`, and then that call's own. */
  ghost predicate Follows(prev: Option<Event>, after: seq<Attempt>) {
    && prev.Some? && prev.value.HookCalled? && !prev.value.worked
    && after != [] && after[..|after| - 1] == prev.value.after && after[|after| - 1].called == prev.value.at
  }

  /** An episode's calls up to and including one made at `at`. */
  function Calls(after: seq<Attempt>, at: nat): seq<Attempt> {
    after + [Attempt(at, at)]
  }

  /** Every call of the hook, the one that ends an episode included, came after the
      backoff; it directly follows the failures it names, and it names none only if
      a token was found to work, or an expired one adopted, after the last failure. */
  ghost predicate HookLog(c: Config, log: seq<Event>) {
    log == [] ||
    var before, e := log[..|log| - 1], log[|log| - 1];
    && HookLog(c, before)
    && (e.HookCalled? ==>
          && Paced(c, Calls(e.after, e.at), e.at)
          && (if e.after == [] then !Failing(before) else Follows(LastHook(before), e.after)))
  }

  ghost predicate RecoveryInv(c: Config, s: State) {
    && s.recoverFailures == |s.episode|
    && Paced(c, s.episode, s.now)
    && s.nextRecoverAt == NextAttempt(c, s.episode)
    && HookLog(c, s.log)
    && (if s.episode == [] then !Failing(s.log) else Follows(LastHook(s.log), s.episode))
  }

  function NextAttempt(c: Config, episode: seq<Attempt>): Option<nat> {
    var n := |episode|;
    if n == 0 || RecoverBackoff(c, n) == 0 then None
    else Some(episode[n - 1].failed + RecoverBackoff(c, n))
  }

  /** The log has grown without a call of the hook. */
  ghost predicate NoHooks(c: Config, log: seq<Event>, log': seq<Event>) {
    && LastHook(log') == LastHook(log)
    && (HookLog(c, log) ==> HookLog(c, log'))
    && (Failing(log') ==> Failing(log))
  }

  lemma LogNoHook(c: Config, log: seq<Event>, e: Event)
    requires !e.HookCalled?
    ensures NoHooks(c, log, log + [e])
  {
    assert (log + [e])[..|log|] == log;
  }

  ghost predicate SameRecovery(c: Config, s: State, t: State) {
    && t.now >= s.now && t.episode == s.episode
    && t.recoverFailures == s.recoverFailures && t.nextRecoverAt == s.nextRecoverAt
    && NoHooks(c, s.log, t.log)
  }

  lemma SameRecoveryKeepsPace(c: Config, s: State, t: State)
    requires RecoveryInv(c, s) && SameRecovery(c, s, t)
    ensures RecoveryInv(c, t)
  {
  }

  lemma {:induction false} TryEachKeepsRecovery(c: Config, s: State, x: ReloadInput, candidates: seq<Token>, current: Token)
    ensures SameRecovery(c, s, TryEach(c, s, x, candidates, current).s)
    ensures TryEach(c, s, x, candidates, current).ok ==> !Failing(TryEach(c, s, x, candidates, current).s.log)
    decreases |candidates|
  {
    if candidates != [] {
      PresentKeepsRecovery(c, s, x, candidates[0]);
      if !Answered(ReplyFor(x, candidates[0]).outcome) {
        TryEachKeepsRecovery(c, Present(c, s, x, candidates[0]), x, candidates[1..], current);
      }
    }
  }

  lemma PresentKeepsRecovery(c: Config, s: State, x: ReloadInput, candidate: Token)
    ensures SameRecovery(c, s, Present(c, s, x, candidate))
    ensures Answered(ReplyFor(x, candidate).outcome) ==> !Failing(Present(c, s, x, candidate).log)
  {
    var outcome := ReplyFor(x, candidate).outcome;
    LogNoHook(c, s.log, OfCandidate(candidate, s.now, outcome));
  }

  lemma TryReloadKeepsRecovery(c: Config, s: State, x: ReloadInput)
    ensures SameRecovery(c, s, TryReload(c, s, x).s)
    ensures TryReload(c, s, x).ok ==> !Failing(TryReload(c, s, x).s.log)
  {
    var g := Gather(c, s, x);
    assert SameRecovery(c, s, g.s);
    TryEachKeepsRecovery(c, g.s, x, g.candidates, s.shared.token);
  }

  /** The hook may be called: the backoff that the standing failures earned is over. */
  lemma CallIsPaced(c: Config, s: State)
    requires RecoveryInv(c, s) && (s.nextRecoverAt.None? || s.now >= s.nextRecoverAt.value)
    ensures Paced(c, Calls(s.episode, s.now), s.now)
  {
  }

  lemma CallKeepsHookLog(c: Config, s: State, worked: bool)
    requires RecoveryInv(c, s) && (s.nextRecoverAt.None? || s.now >= s.nextRecoverAt.value)
    ensures var log := s.log + [HookCalled(s.now, worked, s.episode)];
      HookLog(c, log) && LastHook(log) == Some(HookCalled(s.now, worked, s.episode))
  {
    CallIsPaced(c, s);
    assert (s.log + [HookCalled(s.now, worked, s.episode)])[..|s.log|] == s.log;
  }

  /** A failed call, from the state `s` it was made in to the state `t` it returned in. */
  lemma BackOffKeepsPace(c: Config, s: State, t: State)
    requires RecoveryInv(c, s) && (s.nextRecoverAt.None? || s.now >= s.nextRecoverAt.value)
    requires t.now >= s.now && t.episode == s.episode && t.recoverFailures == s.recoverFailures
    requires t.log == s.log + [HookCalled(s.now, false, s.episode)]
    ensures RecoveryInv(c, BackOffRecovery(c, t, s.now))
  {
    CallIsPaced(c, s);
    CallKeepsHookLog(c, s, false);
    FailedCallIsPaced(c, s.episode, s.now, t.now);
    assert (s.episode + [Attempt(s.now, t.now)])[..|s.episode|] == s.episode;
  }

  lemma FailedCallIsPaced(c: Config, before: seq<Attempt>, called: nat, failed: nat)
    requires Paced(c, Calls(before, called), called) && called <= failed
    ensures Paced(c, before + [Attempt(called, failed)], failed)
  {
    var calls, episode := Calls(before, called), before + [Attempt(called, failed)];
    forall i | 0 <= i < |episode| ensures episode[i].called == calls[i].called {
    }
    forall i | 0 <= i < |before| ensures episode[i] == calls[i] {
    }
  }

  lemma TryRecoverKeepsPace(c: Config, s: State, h: HookInput)
    requires RecoveryInv(c, s)
    ensures RecoveryInv(c, TryRecover(c, s, h).s)
    ensures TryRecover(c, s, h).ok ==> !Failing(TryRecover(c, s, h).s.log)
  {
    if c.hasHook && (s.nextRecoverAt.None? || s.now >= s.nextRecoverAt.value) {
      match h {
        case HookFails(took) => BackOffKeepsPace(c, s, Pass(Log(s, HookCalled(s.now, false, s.episode)), took));
        case HookReturns(token, took) =>
          if token == "" {
            BackOffKeepsPace(c, s, SetToken(Pass(Log(s, HookCalled(s.now, false, s.episode)), took), token, false));
          } else {
            SuccessKeepsPace(c, s, SetToken(Pass(Log(s, HookCalled(s.now, true, s.episode)), took), token, false));
          }
      }
    }
  }

  lemma SuccessKeepsPace(c: Config, s: State, t: State)
    requires RecoveryInv(c, s) && (s.nextRecoverAt.None? || s.now >= s.nextRecoverAt.value)
    requires t.now >= s.now && t.log == s.log + [HookCalled(s.now, true, s.episode)]
    ensures RecoveryInv(c, ResetRecoveryBackoff(t)) && !Failing(t.log)
  {
    CallKeepsHookLog(c, s, true);
  }

  lemma ReplaceTokenKeepsPace(c: Config, s: State, x: CycleInput)
    requires RecoveryInv(c, s)
    ensures RecoveryInv(c, ReplaceToken(c, s, x).s)
    ensures ReplaceToken(c, s, x).ok ==> !Failing(ReplaceToken(c, s, x).s.log)
  {
    TryReloadKeepsRecovery(c, SetFlux(s, true), x.reload);
    var r := TryReload(c, SetFlux(s, true), x.reload);
    SameRecoveryKeepsPace(c, s, r.s);
    if !r.ok {
      TryRecoverKeepsPace(c, r.s, x.hook);
    }
  }

  lemma ClearKeepsPace(c: Config, s: State)
    requires RecoveryInv(c, s) && !Failing(s.log)
    ensures RecoveryInv(c, Heal(c, s)) && RecoveryInv(c, ClearReauth(s))
  {
    LogNoHook(c, s.log, Lowered);
  }

  lemma SignalKeepsPace(c: Config, s: State, clears: bool)
    requires RecoveryInv(c, s)
    ensures RecoveryInv(c, SignalReauth(c, s, clears))
  {
    LogNoHook(c, s.log, Raised);
    LogNoHook(c, s.log + [Raised], OnReauth);
    SameRecoveryKeepsPace(c, s, SignalReauth(c, s, clears));
  }

  lemma ReactKeepsPace(c: Config, k: Checked, x: CycleInput, scheduled: bool)
    requires RecoveryInv(c, k.s) && (k.verdict.Healthy? ==> !Failing(k.s.log))
    ensures RecoveryInv(c, React(c, k, x, scheduled).s)
  {
    if k.verdict.Healthy? {
      ClearKeepsPace(c, k.s);
    } else if Recovering(k) {
      var r := ReplaceToken(c, k.s, x);
      ReplaceTokenKeepsPace(c, k.s, x);
      if r.ok {
        ClearKeepsPace(c, r.s);
      } else {
        SignalKeepsPace(c, r.s, x.onReauthClears);
      }
    } else if k.verdict.RenewFailed? {
      var r := ReloadInFlux(c, k.s, x.reload);
      ReloadInFluxKeepsPace(c, k.s, x.reload);
      if r.ok {
        ClearKeepsPace(c, r.s);
      }
    }
  }

  lemma CycleKeepsPace(c: Config, s: State, x: CycleInput, scheduled: bool)
    requires RecoveryInv(c, s)
    ensures RecoveryInv(c, Cycle(c, s, x, scheduled).s)
  {
    CheckKeepsRecovery(c, s, x);
    SameRecoveryKeepsPace(c, s, CheckAndRenew(c, s, x).s);
    ReactKeepsPace(c, CheckAndRenew(c, s, x), x, scheduled);
  }

  lemma CheckKeepsRecovery(c: Config, s: State, x: CycleInput)
    ensures SameRecovery(c, s, CheckAndRenew(c, s, x).s)
    ensures CheckAndRenew(c, s, x).verdict.Healthy? ==> !Failing(CheckAndRenew(c, s, x).s.log)
  {
    LogNoHook(c, s.log, OfCheck(s.shared.token, s.now, x.check));
  }

  lemma ReloadInFluxKeepsPace(c: Config, s: State, x: ReloadInput)
    requires RecoveryInv(c, s)
    ensures RecoveryInv(c, ReloadInFlux(c, s, x).s)
    ensures ReloadInFlux(c, s, x).ok ==> !Failing(ReloadInFlux(c, s, x).s.log)
  {
    TryReloadKeepsRecovery(c, SetFlux(s, true), x);
    SameRecoveryKeepsPace(c, s, ReloadInFlux(c, s, x).s);
  }

  lemma LogKeepsPace(c: Config, s: State, e: Event)
    requires RecoveryInv(c, s) && !e.HookCalled?
    ensures RecoveryInv(c, Log(s, e))
  {
    LogNoHook(c, s.log, e);
  }

  lemma {:induction false} StepKeepsPace(c: Config, s: State, step: Step)
    requires RecoveryInv(c, s) && Enabled(s, step)
    ensures RecoveryInv(c, Do(c, s, step))
  {
    LogKeepsPace(c, s, Began);
    var s1 := Log(s, Began);
    match step {
      case Tick(x) => CycleKeepsPace(c, s1, x, true);
      case Reject(x) => CycleKeepsPace(c, s1.(nudged := false), x, false);
      case Reload(x) =>
        LogKeepsPace(c, s1, DenylistCleared(s.now));
        ReloadInFluxKeepsPace(c, ClearDenials(s1), x);
        var r := ReloadInFlux(c, ClearDenials(s1), x);
        if r.ok {
          ClearKeepsPace(c, r.s);
        }
      case _ =>
    }
  }

  lemma {:induction false} RunKeepsPace(c: Config, s: State, steps: seq<Step>)
    requires RecoveryInv(c, s) && IsRun(c, s, steps)
    ensures RecoveryInv(c, Exec(c, s, steps))
    decreases |steps|
  {
    if steps != [] {
      StepKeepsPace(c, s, steps[0]);
      RunKeepsPace(c, Do(c, s, steps[0]), steps[1..]);
    }
  }

  lemma {:induction false} HookLogAt(c: Config, log: seq<Event>, k: nat)
    requires HookLog(c, log) && k < |log| && log[k].HookCalled?
    ensures Paced(c, Calls(log[k].after, log[k].at), log[k].at)
    ensures if log[k].after == [] then !Failing(log[..k]) else Follows(LastHook(log[..k]), log[k].after)
  {
    if k < |log| - 1 {
      HookLogAt(c, log[..|log| - 1], k);
      assert log[..|log| - 1][..k] == log[..k];
    }
  }

  /** Every call of the hook in any run, successful or not, that comes after n failed
      ones of its episode: the hook's call before it is the last of those n, and it
      comes no sooner than RecoverBackoff(n) after that one failed.  A call counts as
      the first of an episode only if since the hook last failed a token worked or an
      expired candidate was adopted. */
  lemma {:induction false} HookCallsArePaced(c: Config, start: State, steps: seq<Step>, k: nat)
    requires Starts(c, start) && IsRun(c, start, steps)
    requires k < |Exec(c, start, steps).log| && Exec(c, start, steps).log[k].HookCalled?
    ensures var log := Exec(c, start, steps).log;
      var n := |log[k].after|;
      if n == 0 then !Failing(log[..k])
      else
        && LastHook(log[..k]).Some? && LastHook(log[..k]).value.HookCalled? && !LastHook(log[..k]).value.worked
        && LastHook(log[..k]).value.at == log[k].after[n - 1].called <= log[k].after[n - 1].failed
        && |LastHook(log[..k]).value.after| == n - 1
        && log[k].at >= log[k].after[n - 1].failed + RecoverBackoff(c, n)
  {
    RunKeepsPace(c, start, steps);
    var log := Exec(c, start, steps).log;
    HookLogAt(c, log, k);
    var calls, n := Calls(log[k].after, log[k].at), |log[k].after|;
    if n > 0 {
      assert calls[n].called == log[k].at && calls[n - 1] == log[k].after[n - 1];
    }
  }

  /** From the second failure on no gap is shorter than this. */
  function ShortestGap(c: Config): nat {
    RecoverBackoff(c, 2)
  }

  lemma {:induction false} GapsAddUp(c: Config, episode: seq<Attempt>, now: nat, i: nat, j: nat)
    requires c.recoveryInterval <= RECOVERY_POLL
    requires Paced(c, episode, now) && 0 < i <= j < |episode|
    ensures episode[j].called >= episode[i].called + (j - i) * ShortestGap(c)
    decreases j
  {
    if i < j {
      GapsAddUp(c, episode, now, i, j - 1);
      BackoffIsMonotone(c, 2, j);
      assert (j - i) * ShortestGap(c) == (j - 1 - i) * ShortestGap(c) + ShortestGap(c);
    }
  }

  /** How many calls a stretch of time holds: of the calls of one episode up to any
      given one, that one counted too even if it worked, those within b - a of each
      other, leaving out the episode's very first, number at most one more than the
      shortest gaps that fit. */
  lemma {:induction false} HookCallsPerSpan(c: Config, start: State, steps: seq<Step>, k: nat,
                                            a: nat, b: nat, i: nat, j: nat)
    requires c.recoveryInterval <= RECOVERY_POLL
    requires Starts(c, start) && IsRun(c, start, steps)
    requires k < |Exec(c, start, steps).log| && Exec(c, start, steps).log[k].HookCalled?
    requires var e := Exec(c, start, steps).log[k];
      var calls := Calls(e.after, e.at);
      0 < i <= j < |calls| && a <= calls[i].called && calls[j].called <= b
    ensures (j - i + 1) * ShortestGap(c) <= b - a + ShortestGap(c)
  {
    RunKeepsPace(c, start, steps);
    var e := Exec(c, start, steps).log[k];
    HookLogAt(c, Exec(c, start, steps).log, k);
    GapsAddUp(c, Calls(e.after, e.at), e.at, i, j);
    assert (j - i + 1) * ShortestGap(c) == (j - i) * ShortestGap(c) + ShortestGap(c);
  }

  /** From the m-th failure on the backoff is at its cap. */
  lemma {:induction false} CappedGapsAddUp(c: Config, episode: seq<Attempt>, now: nat, m: nat, i: nat, j: nat)
    requires c.recoveryInterval <= RECOVERY_POLL
    requires Paced(c, episode, now) && RecoverBackoff(c, m) == c.maxDelay && m <= i + 1 && i <= j < |episode|
    ensures episode[j].called >= episode[i].called + (j - i) * c.maxDelay
    decreases j
  {
    if i < j {
      CappedGapsAddUp(c, episode, now, m, i, j - 1);
      BackoffIsMonotone(c, m, j);
      BackoffIsCappedDoubling(c, j);
      assert (j - i) * c.maxDelay == (j - 1 - i) * c.maxDelay + c.maxDelay;
    }
  }

  lemma {:induction false} CallsInOrder(c: Config, episode: seq<Attempt>, now: nat, i: nat, j: nat)
    requires Paced(c, episode, now) && i <= j < |episode|
    ensures episode[i].called <= episode[j].called
    decreases j
  {
    if i < j {
      CallsInOrder(c, episode, now, i, j - 1);
    }
  }

  lemma CapBound(n: nat, m: nat, cap: nat, span: nat)
    requires n > m ==> (n - m) * cap <= span
    ensures n * cap <= span + m * cap
  {
    if n > m {
      assert n * cap == (n - m) * cap + m * cap;
    } else {
      ScaleMonotone(cap, n, m);
    }
  }

  /** Where the backoff reaches its cap with the m-th failure: of the calls of one
      episode up to any given one, that one counted too even if it worked, the n from
      the i-th on that lie within b - a of each other are at most m more than the
      times maxDelay fits into b - a. */
  lemma {:induction false} HookCallsPerMaxDelay(c: Config, start: State, steps: seq<Step>, k: nat,
                                                a: nat, b: nat, i: nat, n: nat, m: nat)
    requires c.recoveryInterval <= RECOVERY_POLL && 0 < m && RecoverBackoff(c, m) == c.maxDelay
    requires Starts(c, start) && IsRun(c, start, steps)
    requires k < |Exec(c, start, steps).log| && Exec(c, start, steps).log[k].HookCalled?
    requires var e := Exec(c, start, steps).log[k];
      var calls := Calls(e.after, e.at);
      0 < n && i + n <= |calls| && a <= calls[i].called && calls[i + n - 1].called <= b
    ensures n * c.maxDelay <= b - a + m * c.maxDelay
  {
    RunKeepsPace(c, start, steps);
    var e := Exec(c, start, steps).log[k];
    HookLogAt(c, Exec(c, start, steps).log, k);
    EpisodeCalls(c, Calls(e.after, e.at), e.at, a, b, i, n, m);
  }

  lemma EpisodeCalls(c: Config, calls: seq<Attempt>, now: nat, a: nat, b: nat, i: nat, n: nat, m: nat)
    requires c.recoveryInterval <= RECOVERY_POLL && 0 < m && RecoverBackoff(c, m) == c.maxDelay
    requires Paced(c, calls, now) && 0 < n && i + n <= |calls|
    requires a <= calls[i].called && calls[i + n - 1].called <= b
    ensures n * c.maxDelay <= b - a + m * c.maxDelay
  {
    CallsInOrder(c, calls, now, i, i + n - 1);
    if n > m {
      var from := i + m - 1;
      CallsInOrder(c, calls, now, i, from);
      CappedGapsAddUp(c, calls, now, m, from, i + n - 1);
      assert i + n - 1 - from == n - m;
    }
    CapBound(n, m, c.maxDelay, b - a);
  }

  /** With the daemon's settings: at most six calls and one more per five minutes. */
  lemma {:induction false} HookCallsByDefault(c: Config, start: State, steps: seq<Step>, k: nat, a: nat, b: nat, i: nat, n: nat)
    requires c.recoveryInterval == RECOVERY_POLL && c.maxDelay == MAX_DELAY
    requires Starts(c, start) && IsRun(c, start, steps)
    requires k < |Exec(c, start, steps).log| && Exec(c, start, steps).log[k].HookCalled?
    requires var e := Exec(c, start, steps).log[k];
      var calls := Calls(e.after, e.at);
      0 < n && i + n <= |calls| && a <= calls[i].called && calls[i + n - 1].called <= b
    ensures n <= 6 + (b - a) / MAX_DELAY
  {
    DefaultsReachTheCap(c);
    HookCallsPerMaxDelay(c, start, steps, k, a, b, i, n, 6);
  }
}
