/** What one step of the lifecycle manager does, told from the token, the denylist,
    the flag, the standing hook failures and the answers of the outside alone: which
    answers condemn a token, when the hook is called, where the token comes from, who
    is denied, and when the timer fires next. */
module LifecycleChecks {
  import opened Wrappers
  import opened Lifecycle
  import opened LifecycleGate
  import opened LifecycleRecovery
  import D = TokenDenylist

  // ------------------------------------------------------------ the held token

  /** Vault is asked about the held token: there is one, and it is not suppressed. */
  predicate Asked(s: State) {
    s.shared.token != "" &&
    !(D.TokenKey(s.shared.token) in s.cache && s.now < s.cache[D.TokenKey(s.shared.token)])
  }

  /** The held token is known to be of no use. */
  predicate Condemned(s: State, check: Check) {
    !Asked(s) || check == LookupRefused || check == Expired || check == RenewRefused
  }

  predicate InOrder(s: State, check: Check) {
    Asked(s) && check == Fine
  }

  /** The loop looks for another token: this one is condemned, or the flag is up and
      the check did not find it in order. */
  predicate Searches(s: State, check: Check) {
    Condemned(s, check) || (s.shared.needsReauth && check != Fine)
  }

  /** The clock and the denylist by the time the held token has been checked. */
  function Entering(c: Config, s: State, x: CycleInput): State {
    var probed := Probe(s, s.shared.token);
    if !Asked(s) then probed
    else
      var later := Pass(probed, x.checkTook);
      if x.check == LookupRefused || x.check == Expired then Deny(c, later, s.shared.token) else later
  }

  /** The token a reload from `s` comes to, if any. */
  function Found(c: Config, s: State, r: ReloadInput): Option<Token> {
    if c.hasFile || c.hasBorrower then Best(s, r, Sources(c, s, r)) else None
  }

  // ---------------------------------------------------------------- the hook

  function HookCalls(log: seq<Event>): nat {
    if log == [] then 0
    else HookCalls(log[..|log| - 1]) + if log[|log| - 1].HookCalled? then 1 else 0
  }

  /** When the hook was last called. */
  function LastCall(log: seq<Event>): nat {
    if log == [] then 0
    else if log[|log| - 1].HookCalled? then log[|log| - 1].at
    else LastCall(log[..|log| - 1])
  }

  lemma CountOne(log: seq<Event>, e: Event)
    ensures HookCalls(log + [e]) == HookCalls(log) + if e.HookCalled? then 1 else 0
    ensures LastCall(log + [e]) == if e.HookCalled? then e.at else LastCall(log)
    ensures Failing(log + [e]) == match e
      case HookCalled(_, worked, _) => !worked
      case Lookup(_, _, _, works, stale) => !works && !stale && Failing(log)
      case _ => Failing(log)
  {
    assert (log + [e])[..|log|] == log;
  }

  /** Nothing but clock, denylist, token, views and log has moved, and no hook was called. */
  ghost predicate OnlyLooked(s: State, t: State) {
    && SameSchedule(s, t) && HookCalls(t.log) == HookCalls(s.log)
    && t.episode == s.episode && t.recoverFailures == s.recoverFailures && t.nextRecoverAt == s.nextRecoverAt
  }

  /** The fields a search leaves to the reaction that follows. */
  ghost predicate SameSchedule(s: State, t: State) {
    && t.currentDelay == s.currentDelay && t.due == s.due && t.nextTickAt == s.nextTickAt && t.nudged == s.nudged
    && t.shared.needsReauth == s.shared.needsReauth && t.now >= s.now
  }

  // ------------------------------------------------------------ one reload

  lemma PresentLooks(c: Config, s: State, r: ReloadInput, candidate: Token)
    ensures var t := Present(c, s, r, candidate);
      && OnlyLooked(s, t)
      && (!Answered(ReplyFor(r, candidate).outcome) ==> Failing(t.log) == Failing(s.log))
  {
    CountOne(s.log, OfCandidate(candidate, s.now, ReplyFor(r, candidate).outcome));
  }

  lemma {:induction false} TryEachLooks(c: Config, s: State, r: ReloadInput, candidates: seq<Token>, current: Token)
    ensures var u := TryEach(c, s, r, candidates, current);
      OnlyLooked(s, u.s) && (!u.ok ==> Failing(u.s.log) == Failing(s.log))
    decreases |candidates|
  {
    if candidates != [] {
      PresentLooks(c, s, r, candidates[0]);
      if !Answered(ReplyFor(r, candidates[0]).outcome) {
        TryEachLooks(c, Present(c, s, r, candidates[0]), r, candidates[1..], current);
      }
    }
  }

  lemma ReloadFacts(c: Config, s: State, r: ReloadInput)
    ensures var u := TryReload(c, s, r);
      && u.ok == Found(c, s, r).Some?
      && u.s.shared.token == (if u.ok then Found(c, s, r).value else s.shared.token)
      && OnlyLooked(s, u.s) && (!u.ok ==> Failing(u.s.log) == Failing(s.log))
  {
    ReloadAdoptsTheBest(c, s, r);
    GatherIsInvisible(c, s, r);
    var g := Gather(c, s, r);
    TryEachLooks(c, g.s, r, g.candidates, s.shared.token);
  }

  /** What a reload finds depends on the token held, the denylist and the clock only. */
  lemma {:induction false} BestDepends(s: State, t: State, r: ReloadInput, offers: seq<Offered>)
    requires t.shared.token == s.shared.token && t.cache == s.cache
    ensures Best(t, r, offers) == Best(s, r, offers)
  {
    if offers != [] {
      BestDepends(s, t, r, offers[1..]);
    }
  }

  lemma FoundDepends(c: Config, s: State, t: State, r: ReloadInput)
    requires t.shared.token == s.shared.token && t.cache == s.cache && t.now == s.now
    ensures Found(c, t, r) == Found(c, s, r)
  {
    BestDepends(s, t, r, Sources(c, s, r));
  }

  // ------------------------------------------------------------- one check

  lemma CheckFacts(c: Config, s: State, x: CycleInput)
    ensures var k := CheckAndRenew(c, s, x);
      k.s.now == Entering(c, s, x).now && k.s.cache == Entering(c, s, x).cache
  {
    var s1 := Probe(s, s.shared.token);
    var s2 := Pass(Log(s1, OfCheck(s.shared.token, s1.now, x.check)), x.checkTook);
    DenyDepends(c, s2, Pass(s1, x.checkTook), s.shared.token);
  }

  lemma DenyDepends(c: Config, s: State, t: State, token: Token)
    requires t.cache == s.cache && t.now == s.now
    ensures Deny(c, t, token).cache == Deny(c, s, token).cache && Deny(c, t, token).now == Deny(c, s, token).now
  {
  }

  lemma CheckJudges(c: Config, s: State, x: CycleInput)
    ensures var verdict := CheckAndRenew(c, s, x).verdict;
      && (verdict.Healthy? <==> InOrder(s, x.check))
      && (verdict.Rejected? <==> Condemned(s, x.check))
      && (verdict.RenewFailed? <==> Asked(s) && x.check == RenewFaulty)
  {
  }

  lemma CheckLooks(c: Config, s: State, x: CycleInput)
    ensures var k := CheckAndRenew(c, s, x);
      && OnlyLooked(s, k.s) && k.s.shared == s.shared
      && (!InOrder(s, x.check) ==> Failing(k.s.log) == Failing(s.log))
  {
    var e := OfCheck(s.shared.token, s.now, x.check);
    CountOne(s.log, e);
    CheckLogs(c, s, x);
    assert CheckAndRenew(c, s, x).s.log == if Asked(s) then s.log + [e] else s.log;
  }

  lemma CheckLogs(c: Config, s: State, x: CycleInput)
    ensures var t := CheckAndRenew(c, s, x).s;
      && t.log == (if Asked(s) then s.log + [OfCheck(s.shared.token, s.now, x.check)] else s.log)
      && SameSchedule(s, t) && t.shared == s.shared
      && t.episode == s.episode && t.recoverFailures == s.recoverFailures && t.nextRecoverAt == s.nextRecoverAt
  {
  }

  /** The hook was called once, or not at all, from `s` to `t`; `next` is when the
      standing failures allow a call. */
  ghost predicate HookCalledOnce(s: State, t: State) {
    HookCalls(t.log) == HookCalls(s.log) + 1
  }

  ghost predicate HookMayBeCalled(c: Config, next: Option<nat>, at: nat) {
    c.hasHook && (next.Some? ==> at >= next.value)
  }

  /** What the hook does for a search that found nothing. */
  ghost predicate Hooked(c: Config, s: State, h: HookInput, u: Tried) {
    if HookCalledOnce(s, u.s) then
      && HookMayBeCalled(c, s.nextRecoverAt, LastCall(u.s.log)) && LastCall(u.s.log) >= s.now
      && u.ok == (h.HookReturns? && h.token != "")
      && u.s.shared.token == (if h.HookReturns? then h.token else s.shared.token)
      && (if u.ok then u.s.episode == [] else Failing(u.s.log))
    else
      && HookCalls(u.s.log) == HookCalls(s.log)
      && !HookMayBeCalled(c, s.nextRecoverAt, u.s.now)
      && !u.ok && u.s.shared.token == s.shared.token
      && u.s.episode == s.episode && Failing(u.s.log) == Failing(s.log)
  }

  lemma RecoverFacts(c: Config, s: State, h: HookInput)
    ensures Hooked(c, s, h, TryRecover(c, s, h)) && SameSchedule(s, TryRecover(c, s, h).s)
  {
    CountOne(s.log, HookCalled(s.now, h.HookReturns? && h.token != "", s.episode));
  }

  /** Looking for another token: a source's, or else the hook's. */
  ghost predicate Replaces(c: Config, s: State, x: CycleInput, u: Tried) {
    && SameSchedule(s, u.s)
    && (if Found(c, s, x.reload).Some? then
          && u.ok && u.s.shared.token == Found(c, s, x.reload).value
          && HookCalls(u.s.log) == HookCalls(s.log)
        else Hooked(c, s, x.hook, u))
  }

  lemma ReplaceFacts(c: Config, s: State, x: CycleInput)
    ensures Replaces(c, s, x, ReplaceToken(c, s, x))
  {
    var s1 := SetFlux(s, true);
    FoundDepends(c, s, s1, x.reload);
    ReloadFacts(c, s1, x.reload);
    var r := TryReload(c, s1, x.reload);
    if !r.ok {
      RecoverFacts(c, r.s, x.hook);
    }
  }

  // ------------------------------------------------------------ one cycle

  function DelayAfter(c: Config, s: State, x: CycleInput, scheduled: bool, ok: bool): nat {
    if ok then c.checkInterval
    else if Searches(s, x.check) then c.recoveryInterval
    else if !scheduled then s.currentDelay
    else if s.currentDelay * 2 > c.maxDelay then c.maxDelay
    else s.currentDelay * 2
  }

  /** What a check that is not in order leads to. */
  ghost predicate Reacts(c: Config, s: State, x: CycleInput, u: Tried) {
    var e := Entering(c, s, x);
    if InOrder(s, x.check) then
      u.ok && u.s.shared.token == s.shared.token && HookCalls(u.s.log) == HookCalls(s.log)
    else if Searches(s, x.check) || x.check == RenewFaulty then
      if Found(c, e, x.reload).Some? then
        u.ok && u.s.shared.token == Found(c, e, x.reload).value && HookCalls(u.s.log) == HookCalls(s.log)
      else if Searches(s, x.check) then SearchedInVain(c, s, x, u)
      else !u.ok && u.s.shared.token == s.shared.token && HookCalls(u.s.log) == HookCalls(s.log)
    else
      !u.ok && u.s.shared.token == s.shared.token && HookCalls(u.s.log) == HookCalls(s.log)
  }

  /** The token after a search in vain: none if OnReauth fired and clears it, or if the
      hook left none; else the one held before. */
  ghost function LeftWith(c: Config, s: State, x: CycleInput, t: State): Token {
    if c.hasOnReauth && !s.shared.needsReauth && x.onReauthClears then ""
    else if HookCalledOnce(s, t) && x.hook.HookReturns? then ""
    else s.shared.token
  }

  /** No source had a token: the hook was called if it may be, and its token is taken;
      without one the flag is up. */
  ghost predicate SearchedInVain(c: Config, s: State, x: CycleInput, u: Tried) {
    (!u.ok ==> u.s.shared.token == LeftWith(c, s, x, u.s)) &&
    if HookCalledOnce(s, u.s) then
      && HookMayBeCalled(c, s.nextRecoverAt, LastCall(u.s.log)) && LastCall(u.s.log) >= s.now
      && u.ok == (x.hook.HookReturns? && x.hook.token != "")
      && (u.ok ==> u.s.shared.token == x.hook.token)
    else
      && HookCalls(u.s.log) == HookCalls(s.log)
      && !HookMayBeCalled(c, s.nextRecoverAt, u.s.now)
      && !u.ok
  }

  /** The flag afterwards, the callbacks, and what became of a waiting report. */
  ghost predicate Flags(c: Config, s: State, x: CycleInput, u: Tried) {
    && u.s.shared.needsReauth == (!u.ok && Searches(s, x.check))
    && (u.ok ==> !u.s.nudged && u.s.episode == [] && u.s.recoverFailures == 0 && u.s.nextRecoverAt == None)
    && (!u.ok ==> u.s.nudged == s.nudged)
    && (!u.ok ==>
          if HookCalledOnce(s, u.s) then Failing(u.s.log)
          else Failing(u.s.log) == Failing(s.log) && u.s.episode == s.episode)
  }

  ghost predicate CycleFacts(c: Config, s: State, x: CycleInput, scheduled: bool, u: Tried) {
    && Reacts(c, s, x, u) && Flags(c, s, x, u)
    && u.s.currentDelay == DelayAfter(c, s, x, scheduled, u.ok)
    && u.s.now >= s.now && u.s.due == s.due && u.s.nextTickAt == s.nextTickAt
  }

  lemma HealFacts(c: Config, s: State)
    ensures var t := Heal(c, s);
      && t.shared.token == s.shared.token && !t.shared.needsReauth && !t.nudged
      && t.currentDelay == c.checkInterval && t.now == s.now && t.due == s.due && t.nextTickAt == s.nextTickAt
      && HookCalls(t.log) == HookCalls(s.log) && LastCall(t.log) == LastCall(s.log)
      && t.episode == [] && t.recoverFailures == 0 && t.nextRecoverAt == None
  {
    CountOne(s.log, Lowered);
  }

  lemma SignalFacts(c: Config, s: State, clears: bool)
    ensures var t := SignalReauth(c, s, clears);
      && t.shared.needsReauth && t.now == s.now && SameHooks(s, t)
      && t.currentDelay == s.currentDelay && t.due == s.due && t.nextTickAt == s.nextTickAt && t.nudged == s.nudged
      && t.shared.token == if clears && c.hasOnReauth && !s.shared.needsReauth then "" else s.shared.token
  {
    CountOne(s.log, Raised);
    CountOne(s.log + [Raised], OnReauth);
  }

  ghost predicate SameHooks(s: State, t: State) {
    && HookCalls(t.log) == HookCalls(s.log) && LastCall(t.log) == LastCall(s.log)
    && Failing(t.log) == Failing(s.log) && t.episode == s.episode
  }

  /** A cycle, from the state in which the loop took it up. */
  lemma CycleIs(c: Config, s: State, x: CycleInput, scheduled: bool)
    ensures CycleFacts(c, s, x, scheduled, Cycle(c, s, x, scheduled))
  {
    CheckFacts(c, s, x);
    CheckJudges(c, s, x);
    CheckLooks(c, s, x);
    var k := CheckAndRenew(c, s, x);
    FoundDepends(c, Entering(c, s, x), k.s, x.reload);
    if InOrder(s, x.check) {
      InOrderIs(c, s, k, x, scheduled);
    } else if Searches(s, x.check) {
      SearchIs(c, s, k, x, scheduled);
    } else if x.check == RenewFaulty {
      RenewalIs(c, s, k, x, scheduled);
    } else {
      PassingIs(c, s, k, x, scheduled);
    }
  }

  lemma InOrderIs(c: Config, s: State, k: Checked, x: CycleInput, scheduled: bool)
    requires OnlyLooked(s, k.s) && k.s.shared == s.shared && k.verdict.Healthy? && InOrder(s, x.check)
    ensures CycleFacts(c, s, x, scheduled, React(c, k, x, scheduled))
  {
    HealFacts(c, k.s);
  }

  lemma PassingIs(c: Config, s: State, k: Checked, x: CycleInput, scheduled: bool)
    requires OnlyLooked(s, k.s) && k.s.shared == s.shared && Failing(k.s.log) == Failing(s.log) && !k.verdict.Healthy? && !Recovering(k)
    requires !InOrder(s, x.check) && !Searches(s, x.check) && x.check != RenewFaulty && !k.verdict.RenewFailed?
    ensures CycleFacts(c, s, x, scheduled, React(c, k, x, scheduled))
  {
  }

  lemma SearchIs(c: Config, s: State, k: Checked, x: CycleInput, scheduled: bool)
    requires OnlyLooked(s, k.s) && k.s.shared == s.shared && Failing(k.s.log) == Failing(s.log) && Recovering(k)
    requires Searches(s, x.check) && !InOrder(s, x.check)
    requires Found(c, k.s, x.reload) == Found(c, Entering(c, s, x), x.reload)
    ensures CycleFacts(c, s, x, scheduled, React(c, k, x, scheduled))
  {
    ReplaceFacts(c, k.s, x);
    var r := ReplaceToken(c, k.s, x);
    if r.ok {
      SearchSucceeds(c, s, k, x, scheduled, r);
    } else {
      SearchFails(c, s, k, x, scheduled, r);
    }
  }

  lemma SearchSucceeds(c: Config, s: State, k: Checked, x: CycleInput, scheduled: bool, r: Tried)
    requires OnlyLooked(s, k.s) && k.s.shared == s.shared
    requires Searches(s, x.check) && !InOrder(s, x.check)
    requires Found(c, k.s, x.reload) == Found(c, Entering(c, s, x), x.reload)
    requires Replaces(c, k.s, x, r) && r.ok
    ensures CycleFacts(c, s, x, scheduled, Tried(Heal(c, r.s), true))
  {
    HealFacts(c, r.s);
  }

  lemma SearchFails(c: Config, s: State, k: Checked, x: CycleInput, scheduled: bool, r: Tried)
    requires OnlyLooked(s, k.s) && k.s.shared == s.shared && Failing(k.s.log) == Failing(s.log)
    requires Searches(s, x.check) && !InOrder(s, x.check)
    requires Found(c, k.s, x.reload) == Found(c, Entering(c, s, x), x.reload)
    requires Replaces(c, k.s, x, r) && !r.ok
    ensures CycleFacts(c, s, x, scheduled,
                       Tried(SignalReauth(c, r.s, x.onReauthClears).(currentDelay := c.recoveryInterval), false))
  {
    SignalFacts(c, r.s, x.onReauthClears);
    VainAfter(c, s, k, x, r, SignalReauth(c, r.s, x.onReauthClears).(currentDelay := c.recoveryInterval));
  }

  lemma VainAfter(c: Config, s: State, k: Checked, x: CycleInput, r: Tried, t: State)
    requires OnlyLooked(s, k.s) && Replaces(c, k.s, x, r) && !r.ok
    requires SameHooks(r.s, t) && t.now == r.s.now && k.s.shared == s.shared
    requires t.shared.token == if x.onReauthClears && c.hasOnReauth && !r.s.shared.needsReauth then "" else r.s.shared.token
    ensures SearchedInVain(c, s, x, Tried(t, false))
  {
  }

  lemma RenewalIs(c: Config, s: State, k: Checked, x: CycleInput, scheduled: bool)
    requires OnlyLooked(s, k.s) && k.s.shared == s.shared && Failing(k.s.log) == Failing(s.log)
    requires !Searches(s, x.check) && !InOrder(s, x.check) && x.check == RenewFaulty
    requires k.verdict.RenewFailed? && !Recovering(k)
    requires Found(c, k.s, x.reload) == Found(c, Entering(c, s, x), x.reload)
    ensures CycleFacts(c, s, x, scheduled, React(c, k, x, scheduled))
  {
    var s1 := SetFlux(k.s, true);
    FoundDepends(c, k.s, s1, x.reload);
    ReloadFacts(c, s1, x.reload);
    var r := ReloadInFlux(c, k.s, x.reload);
    if r.ok {
      HealFacts(c, r.s);
    }
  }

  // ------------------------------------------------------- one step of the loop

  function CheckStep(x: CycleInput, scheduled: bool): Step {
    if scheduled then Tick(x) else Reject(x)
  }

  /** The hook was called in the step and left a token. */
  ghost predicate HookHelped(s: State, x: CycleInput, t: State) {
    HookCalledOnce(s, t) && x.hook.HookReturns? && x.hook.token != ""
  }

  predicate SourceHelped(c: Config, s: State, x: CycleInput) {
    && !InOrder(s, x.check) && (Searches(s, x.check) || x.check == RenewFaulty)
    && Found(c, Entering(c, s, x), x.reload).Some?
  }

  /** The step ended with a token to go on with. */
  ghost predicate Succeeded(c: Config, s: State, x: CycleInput, t: State) {
    InOrder(s, x.check) || SourceHelped(c, s, x) || HookHelped(s, x, t)
  }

  /** The state in which a check step starts its cycle. */
  function TakenUp(s: State, scheduled: bool): State {
    Log(s, Began).(nudged := scheduled && s.nudged)
  }

  lemma TakenUpIs(c: Config, s: State, x: CycleInput, scheduled: bool)
    ensures var s0 := TakenUp(s, scheduled);
      && HookCalls(s0.log) == HookCalls(s.log) && LastCall(s0.log) == LastCall(s.log) && Failing(s0.log) == Failing(s.log)
      && InOrder(s0, x.check) == InOrder(s, x.check) && Searches(s0, x.check) == Searches(s, x.check)
      && Found(c, Entering(c, s0, x), x.reload) == Found(c, Entering(c, s, x), x.reload)
  {
    CountOne(s.log, Began);
    TakenUpFinds(c, s, x, scheduled);
  }

  lemma TakenUpFinds(c: Config, s: State, x: CycleInput, scheduled: bool)
    ensures Found(c, Entering(c, TakenUp(s, scheduled), x), x.reload) == Found(c, Entering(c, s, x), x.reload)
  {
    var s0 := TakenUp(s, scheduled);
    DenyDepends(c, Pass(Probe(s, s.shared.token), x.checkTook), Pass(Probe(s0, s.shared.token), x.checkTook), s.shared.token);
    FoundDepends(c, Entering(c, s, x), Entering(c, s0, x), x.reload);
  }

  /** The state a check step ends in, but for the timer. */
  lemma StepIsCycle(c: Config, s: State, x: CycleInput, scheduled: bool) returns (u: Tried)
    requires Enabled(s, CheckStep(x, scheduled))
    ensures CycleFacts(c, TakenUp(s, scheduled), x, scheduled, u)
    ensures var t := Do(c, s, CheckStep(x, scheduled));
      && t == u.s.(due := t.due, nextTickAt := t.nextTickAt)
      && t.due == u.s.now + ArmedDelay(u.s, scheduled, u.ok, if scheduled then 0 else s.nextTickAt)
      && t.nextTickAt == s.now + ArmedDelay(u.s, scheduled, u.ok, if scheduled then 0 else s.nextTickAt)
    ensures u.ok <==> Succeeded(c, s, x, Do(c, s, CheckStep(x, scheduled)))
  {
    var s0 := TakenUp(s, scheduled);
    u := Cycle(c, s0, x, scheduled);
    CycleIs(c, s0, x, scheduled);
    TakenUpIs(c, s, x, scheduled);
    if scheduled {
      assert s0 == Log(s, Began);
    }
    OkIsSuccess(c, s, x, scheduled, u, Do(c, s, CheckStep(x, scheduled)));
  }

  lemma OkIsSuccess(c: Config, s: State, x: CycleInput, scheduled: bool, u: Tried, t: State)
    requires CycleFacts(c, TakenUp(s, scheduled), x, scheduled, u) && t.log == u.s.log
    ensures u.ok <==> Succeeded(c, s, x, t)
  {
    TakenUpIs(c, s, x, scheduled);
  }

  /** When the flag is up after a check: exactly if the token was condemned, or the flag
      was up and the token not in order, and neither a source nor the hook gave another. */
  lemma FlagIsUpExactly(c: Config, s: State, x: CycleInput, scheduled: bool)
    requires Enabled(s, CheckStep(x, scheduled))
    ensures var t := Do(c, s, CheckStep(x, scheduled));
      t.shared.needsReauth <==> Searches(s, x.check) && !SourceHelped(c, s, x) && !HookHelped(s, x, t)
  {
    var u := StepIsCycle(c, s, x, scheduled);
    TakenUpIs(c, s, x, scheduled);
  }

  /** A failure that says nothing about the token is harmless: with a token held, not
      suppressed, and the flag down, a faulty lookup or renewal leaves the flag down,
      calls no hook and fires no callback, and a faulty lookup leaves the token alone. */
  lemma PassingFailureIsHarmless(c: Config, s: State, x: CycleInput, scheduled: bool)
    requires Enabled(s, CheckStep(x, scheduled)) && SignalInv(c, s)
    requires Asked(s) && !s.shared.needsReauth && (x.check == LookupFaulty || x.check == RenewFaulty)
    ensures var t := Do(c, s, CheckStep(x, scheduled));
      && !t.shared.needsReauth
      && HookCalls(t.log) == HookCalls(s.log) && Callbacks(t.log) == Callbacks(s.log)
      && (x.check == LookupFaulty ==> t.shared.token == s.shared.token)
  {
    var u := StepIsCycle(c, s, x, scheduled);
    TakenUpIs(c, s, x, scheduled);
    CallbackPerRise(c, s, x, scheduled);
  }

  /** OnReauth fires in a check step exactly when the flag goes up in it. */
  lemma CallbackPerRise(c: Config, s: State, x: CycleInput, scheduled: bool)
    requires Enabled(s, CheckStep(x, scheduled)) && SignalInv(c, s)
    ensures var t := Do(c, s, CheckStep(x, scheduled));
      Callbacks(t.log) == Callbacks(s.log)
        + if c.hasOnReauth && !s.shared.needsReauth && t.shared.needsReauth then 1 else 0
  {
    LogKeepsSignals(c, s, Began);
    AppendEvent(s.log, Began);
    CycleSignals(c, TakenUp(s, scheduled), x, scheduled);
  }

  /** Where the token comes from: kept if in order, else a source's if one offers, else
      the hook's; a step that does not search keeps what it held. */
  lemma TokenComesFrom(c: Config, s: State, x: CycleInput, scheduled: bool)
    requires Enabled(s, CheckStep(x, scheduled))
    ensures var t := Do(c, s, CheckStep(x, scheduled));
      && (InOrder(s, x.check) ==> t.shared.token == s.shared.token)
      && (SourceHelped(c, s, x) ==> t.shared.token == Found(c, Entering(c, s, x), x.reload).value)
      && (HookHelped(s, x, t) ==> t.shared.token == x.hook.token && !t.shared.needsReauth)
      && (!SourceHelped(c, s, x) && !Searches(s, x.check) ==> t.shared.token == s.shared.token)
      && (Searches(s, x.check) && !Succeeded(c, s, x, t) ==> t.shared.token == LeftWith(c, s, x, t))
  {
    var u := StepIsCycle(c, s, x, scheduled);
    TakenUpIs(c, s, x, scheduled);
  }

  /** When the hook is called in a check step: once, exactly if the step searches, no
      source has a token, a hook is configured and the standing failures allow it by the
      time the search gets to it. */
  lemma HookIsCalledExactly(c: Config, s: State, x: CycleInput, scheduled: bool)
    requires Enabled(s, CheckStep(x, scheduled))
    ensures var t := Do(c, s, CheckStep(x, scheduled));
      var at := if HookCalledOnce(s, t) then LastCall(t.log) else t.now;
      && (HookCalls(t.log) == HookCalls(s.log) || HookCalledOnce(s, t))
      && at >= s.now
      && (HookCalledOnce(s, t) <==>
            Searches(s, x.check) && !SourceHelped(c, s, x) && HookMayBeCalled(c, s.nextRecoverAt, at))
  {
    var u := StepIsCycle(c, s, x, scheduled);
    TakenUpIs(c, s, x, scheduled);
  }

  /** A step that ends with a token ends the failure episode and drops a waiting report. */
  lemma SuccessEndsTheEpisode(c: Config, s: State, x: CycleInput, scheduled: bool)
    requires Enabled(s, CheckStep(x, scheduled)) && Succeeded(c, s, x, Do(c, s, CheckStep(x, scheduled)))
    ensures var t := Do(c, s, CheckStep(x, scheduled));
      t.recoverFailures == 0 && t.nextRecoverAt == None && t.episode == [] && !t.nudged
  {
    var u := StepIsCycle(c, s, x, scheduled);
  }

  /** When the timer fires next: after the delay earned, and out of cycle, without a
      token, no later than it would have been, but not before now. */
  lemma TimerIsSetExactly(c: Config, s: State, x: CycleInput, scheduled: bool)
    requires Enabled(s, CheckStep(x, scheduled))
    ensures var t := Do(c, s, CheckStep(x, scheduled));
      var ok := Succeeded(c, s, x, t);
      && t.currentDelay == DelayAfter(c, s, x, scheduled, ok)
      && t.nextTickAt == t.due - (t.now - s.now)
      && (scheduled || ok ==> t.due == t.now + t.currentDelay)
      && (!scheduled && !ok ==>
            t.due == if s.nextTickAt <= t.now then t.now
                     else if s.nextTickAt <= t.now + t.currentDelay then s.nextTickAt
                     else t.now + t.currentDelay)
  {
    var u := StepIsCycle(c, s, x, scheduled);
    TakenUpIs(c, s, x, scheduled);
  }

  /** A reload nudge forgets all denials, adopts what the sources offer, and returns to
      the normal interval if there is anything; otherwise flag, token, timer and the
      failures standing are as before. It never calls the hook. */
  lemma NudgeIs(c: Config, s: State, r: ReloadInput)
    ensures var t := Do(c, s, Reload(r));
      var found := Found(c, s.(cache := map[]), r);
      && HookCalls(t.log) == HookCalls(s.log)
      && (found.Some? ==>
            && t.shared.token == found.value && !t.shared.needsReauth
            && t.currentDelay == c.checkInterval && t.due == t.nextTickAt == t.now + c.checkInterval
            && t.recoverFailures == 0 && t.nextRecoverAt == None && t.episode == [])
      && (found.None? ==>
            && t.shared.token == s.shared.token && t.shared.needsReauth == s.shared.needsReauth
            && t.currentDelay == s.currentDelay && t.due == s.due && t.nextTickAt == s.nextTickAt
            && t.recoverFailures == s.recoverFailures && t.nextRecoverAt == s.nextRecoverAt && t.episode == s.episode
            && Failing(t.log) == Failing(s.log))
  {
    var s1 := ClearDenials(Log(s, Began));
    var s2 := SetFlux(s1, true);
    ClearingIs(s);
    FoundDepends(c, s.(cache := map[]), s2, r);
    ReloadFacts(c, s2, r);
    var u := ReloadInFlux(c, s1, r);
    assert OnlyLooked(s1, u.s) && u.ok == Found(c, s.(cache := map[]), r).Some?;
    if u.ok {
      ResumeIs(c, u.s);
    }
  }

  lemma ClearingIs(s: State)
    ensures var s1 := ClearDenials(Log(s, Began));
      && OnlyLooked(s, s1) && Failing(s1.log) == Failing(s.log) && s1.shared == s.shared && s1.cache == map[] && s1.now == s.now
  {
    CountOne(s.log, Began);
    CountOne(s.log + [Began], DenylistCleared(s.now));
  }

  lemma ResumeIs(c: Config, s: State)
    ensures var t := Resume(c, s);
      && HookCalls(t.log) == HookCalls(s.log) && t.shared.token == s.shared.token && !t.shared.needsReauth
      && t.now == s.now && t.currentDelay == c.checkInterval && t.due == t.nextTickAt == t.now + c.checkInterval
      && t.recoverFailures == 0 && t.nextRecoverAt == None && t.episode == []
  {
    CountOne(s.log, Lowered);
  }

  /** The other steps: a report waits to be taken up, a login elsewhere replaces the
      token, time passes; each leaves everything else to the checks. */
  lemma OtherStepsAre(c: Config, s: State, d: nat, token: Token)
    ensures Enabled(Do(c, s, Report), Reject(CycleInput(Fine, 0, ReloadInput("", "", "", 0, map[]), HookFails(0), false)))
    ensures Do(c, s, Report) == s.(nudged := true)
    ensures Do(c, s, Adopt(token)).shared == s.shared.(token := token, provisional := false)
    ensures Do(c, s, Adopt(token)).log == s.log && Do(c, s, Adopt(token)).due == s.due
    ensures Do(c, s, Elapse(d)) == s.(now := s.now + d)
  {
  }

  // ------------------------------------------------ the hook over whole runs

  /** No failure counts once a token has been found. */
  ghost predicate Rested(c: Config, s: State) {
    RecoveryInv(c, s) && (!Failing(s.log) ==> s.episode == [])
  }

  lemma {:induction false} StepIsRested(c: Config, s: State, step: Step)
    requires Rested(c, s) && Enabled(s, step)
    ensures Rested(c, Do(c, s, step))
  {
    StepKeepsPace(c, s, step);
    match step {
      case Tick(x) => CheckIsRested(c, s, x, true);
      case Reject(x) => CheckIsRested(c, s, x, false);
      case Reload(r) => NudgeIs(c, s, r);
      case _ =>
    }
  }

  lemma CheckIsRested(c: Config, s: State, x: CycleInput, scheduled: bool)
    requires !Failing(s.log) ==> s.episode == []
    requires Enabled(s, CheckStep(x, scheduled))
    ensures var t := Do(c, s, CheckStep(x, scheduled)); !Failing(t.log) ==> t.episode == []
  {
    var u := StepIsCycle(c, s, x, scheduled);
    TakenUpIs(c, s, x, scheduled);
  }

  lemma {:induction false} RunIsRested(c: Config, s: State, steps: seq<Step>)
    requires Rested(c, s) && IsRun(c, s, steps)
    ensures Rested(c, Exec(c, s, steps))
    decreases |steps|
  {
    if steps != [] {
      StepIsRested(c, s, steps[0]);
      RunIsRested(c, Do(c, s, steps[0]), steps[1..]);
    }
  }

  /** When the failures standing in the log next allow a call: at once if there are
      none, else when the last of them is RecoverBackoff(n) in the past. */
  ghost predicate Allowed(c: Config, s: State, at: nat) {
    || !Failing(s.log)
    || (s.episode != [] && Follows(LastHook(s.log), s.episode)
        && at >= s.episode[|s.episode| - 1].failed + RecoverBackoff(c, |s.episode|))
  }

  /** In every reachable state, a check that condemns its token and finds no other at a
      source calls a configured hook exactly if the failures standing in the log allow
      it; and a token the hook returns is the client's, with the flag down and OnReauth
      not fired. */
  lemma {:induction false} RejectionReachesTheHook(c: Config, start: State, steps: seq<Step>, x: CycleInput, scheduled: bool)
    requires Starts(c, start) && IsRun(c, start, steps)
    requires Enabled(Exec(c, start, steps), CheckStep(x, scheduled))
    requires var s := Exec(c, start, steps); Condemned(s, x.check) && !SourceHelped(c, s, x)
    ensures var s := Exec(c, start, steps);
      var t := Do(c, s, CheckStep(x, scheduled));
      var at := if HookCalledOnce(s, t) then LastCall(t.log) else t.now;
      && (HookCalls(t.log) == HookCalls(s.log) || HookCalledOnce(s, t))
      && at >= s.now
      && (HookCalledOnce(s, t) <==> c.hasHook && Allowed(c, s, at))
      && (HookCalledOnce(s, t) && x.hook.HookReturns? && x.hook.token != "" ==>
            t.shared.token == x.hook.token && !t.shared.needsReauth && Callbacks(t.log) == Callbacks(s.log))
      && (!HookHelped(s, x, t) ==> t.shared.needsReauth)
  {
    var s := Exec(c, start, steps);
    RunIsRested(c, start, steps);
    RunKeepsSignals(c, start, steps);
    HookIsCalledExactly(c, s, x, scheduled);
    TokenComesFrom(c, s, x, scheduled);
    FlagIsUpExactly(c, s, x, scheduled);
    CallbackPerRise(c, s, x, scheduled);
    var t := Do(c, s, CheckStep(x, scheduled));
    AllowedIsDue(c, s, if HookCalledOnce(s, t) then LastCall(t.log) else t.now);
  }

  lemma AllowedIsDue(c: Config, s: State, at: nat)
    requires Rested(c, s) && at >= s.now
    ensures c.hasHook ==> (Allowed(c, s, at) <==> HookMayBeCalled(c, s.nextRecoverAt, at))
  {
  }

  // ------------------------------------------------------------- the denials

  /** An answer that condemns the token asked about: a 403, or, for the held token, a
      lookup that finds it expired. */
  predicate Condemns(e: Event) {
    e.Lookup? && e.token != "" && (e.outcome == Refused || (e.outcome == Lapsed && !e.stale))
  }

  /** Whom the log denies: those condemned since the last Clear, and before it those
      denied at the start. */
  function DeniedKeys(log: seq<Event>, first: set<string>): set<string> {
    if log == [] then first
    else
      var before, e := log[..|log| - 1], log[|log| - 1];
      if e.DenylistCleared? then {}
      else DeniedKeys(before, first) + if Condemns(e) then {D.TokenKey(e.token)} else {}
  }

  lemma DenyOne(log: seq<Event>, first: set<string>, e: Event)
    ensures DeniedKeys(log + [e], first)
         == if e.DenylistCleared? then {}
            else DeniedKeys(log, first) + if Condemns(e) then {D.TokenKey(e.token)} else {}
  {
    assert (log + [e])[..|log|] == log;
  }

  ghost predicate Recorded(s: State, first: set<string>) {
    s.record.Keys == DeniedKeys(s.log, first)
  }

  lemma PresentRecords(c: Config, s: State, r: ReloadInput, candidate: Token, first: set<string>)
    requires Recorded(s, first)
    ensures Recorded(Present(c, s, r, candidate), first)
  {
    DenyOne(s.log, first, OfCandidate(candidate, s.now, ReplyFor(r, candidate).outcome));
  }

  lemma {:induction false} TryEachRecords(c: Config, s: State, r: ReloadInput, candidates: seq<Token>, current: Token,
                                          first: set<string>)
    requires Recorded(s, first)
    ensures Recorded(TryEach(c, s, r, candidates, current).s, first)
    decreases |candidates|
  {
    if candidates != [] {
      PresentRecords(c, s, r, candidates[0], first);
      if !Answered(ReplyFor(r, candidates[0]).outcome) {
        TryEachRecords(c, Present(c, s, r, candidates[0]), r, candidates[1..], current, first);
      }
    }
  }

  lemma TryReloadRecords(c: Config, s: State, r: ReloadInput, first: set<string>)
    requires Recorded(s, first)
    ensures Recorded(TryReload(c, s, r).s, first)
  {
    GatherIsInvisible(c, s, r);
    var g := Gather(c, s, r);
    TryEachRecords(c, g.s, r, g.candidates, s.shared.token, first);
  }

  lemma TryRecoverRecords(c: Config, s: State, h: HookInput, first: set<string>)
    requires Recorded(s, first)
    ensures Recorded(TryRecover(c, s, h).s, first)
  {
    DenyOne(s.log, first, HookCalled(s.now, h.HookReturns? && h.token != "", s.episode));
  }

  lemma FlagsRecord(c: Config, s: State, clears: bool, first: set<string>)
    requires Recorded(s, first)
    ensures Recorded(ClearReauth(s), first) && Recorded(Heal(c, s), first) && Recorded(SignalReauth(c, s, clears), first)
  {
    DenyOne(s.log, first, Lowered);
    DenyOne(s.log, first, Raised);
    DenyOne(s.log + [Raised], first, OnReauth);
  }

  lemma CheckRecords(c: Config, s: State, x: CycleInput, first: set<string>)
    requires Recorded(s, first)
    ensures Recorded(CheckAndRenew(c, s, x).s, first)
  {
    DenyOne(s.log, first, OfCheck(s.shared.token, s.now, x.check));
    CheckShape(c, s, x);
  }

  lemma ReplaceTokenRecords(c: Config, s: State, x: CycleInput, first: set<string>)
    requires Recorded(s, first)
    ensures Recorded(ReplaceToken(c, s, x).s, first)
  {
    TryReloadRecords(c, SetFlux(s, true), x.reload, first);
    TryRecoverRecords(c, TryReload(c, SetFlux(s, true), x.reload).s, x.hook, first);
  }

  lemma ReactRecords(c: Config, k: Checked, x: CycleInput, scheduled: bool, first: set<string>)
    requires Recorded(k.s, first)
    ensures Recorded(React(c, k, x, scheduled).s, first)
  {
    if k.verdict.Healthy? {
      FlagsRecord(c, k.s, false, first);
    } else if Recovering(k) {
      ReplaceTokenRecords(c, k.s, x, first);
      FlagsRecord(c, ReplaceToken(c, k.s, x).s, x.onReauthClears, first);
    } else if k.verdict.RenewFailed? {
      TryReloadRecords(c, SetFlux(k.s, true), x.reload, first);
      FlagsRecord(c, ReloadInFlux(c, k.s, x.reload).s, false, first);
    }
  }

  lemma {:induction false} StepRecords(c: Config, s: State, step: Step, first: set<string>)
    requires Recorded(s, first) && Enabled(s, step)
    ensures Recorded(Do(c, s, step), first)
  {
    DenyOne(s.log, first, Began);
    var s1 := Log(s, Began);
    match step {
      case Tick(x) =>
        CheckRecords(c, s1, x, first);
        ReactRecords(c, CheckAndRenew(c, s1, x), x, true, first);
      case Reject(x) =>
        var s2 := s1.(nudged := false);
        CheckRecords(c, s2, x, first);
        ReactRecords(c, CheckAndRenew(c, s2, x), x, false, first);
      case Reload(r) =>
        DenyOne(s1.log, first, DenylistCleared(s.now));
        TryReloadRecords(c, SetFlux(ClearDenials(s1), true), r, first);
        FlagsRecord(c, ReloadInFlux(c, ClearDenials(s1), r).s, false, first);
      case _ =>
    }
  }

  /** Denials are earned: over any run the tokens on record as denied are exactly those
      Vault answered with a 403, and the held ones it found expired, since the denylist
      was last cleared, and until then those denied at the start. */
  lemma {:induction false} DenialsAreEarned(c: Config, start: State, steps: seq<Step>)
    requires Starts(c, start) && IsRun(c, start, steps)
    ensures var e := Exec(c, start, steps); e.record.Keys == DeniedKeys(e.log, start.record.Keys)
  {
    RunRecords(c, start, steps, start.record.Keys);
  }

  lemma {:induction false} RunRecords(c: Config, s: State, steps: seq<Step>, first: set<string>)
    requires Recorded(s, first) && IsRun(c, s, steps)
    ensures Recorded(Exec(c, s, steps), first)
    decreases |steps|
  {
    if steps != [] {
      StepRecords(c, s, steps[0], first);
      RunRecords(c, Do(c, s, steps[0]), steps[1..], first);
    }
  }
}
