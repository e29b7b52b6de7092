/** Lookups of a dead token: the denylist keeps the lifecycle manager from asking
    Vault about it more than once per window, save after a Clear. */
module LifecycleStorm {
  import opened Wrappers
  import opened Lifecycle
  import D = TokenDenylist

  // ---------------------------------------------------------- reading the log

  predicate Asks(e: Event, token: Token) {
    e.Lookup? && e.token == token
  }

  /** When the token was last looked up since the denylist was last cleared. */
  function LastAsked(log: seq<Event>, token: Token): Option<nat> {
    if log == [] then None
    else
      var e := log[|log| - 1];
      if e.DenylistCleared? then None
      else if Asks(e, token) then Some(e.at)
      else LastAsked(log[..|log| - 1], token)
  }

  /** Each lookup of the token comes a window after the previous one, unless the
      denylist was cleared in between. */
  ghost predicate Spaced(log: seq<Event>, token: Token, window: nat) {
    log == [] ||
    var before := log[..|log| - 1];
    && Spaced(before, token, window)
    && (Asks(log[|log| - 1], token) && LastAsked(before, token).Some? ==>
          log[|log| - 1].at >= LastAsked(before, token).value + window)
  }

  function Time(e: Event): nat {
    match e
    case Lookup(_, at, _, _, _) => at
    case DenylistCleared(when) => when
    case _ => 0
  }

  predicate Timed(e: Event) {
    e.Lookup? || e.DenylistCleared?
  }

  ghost predicate Ordered(log: seq<Event>) {
    forall i, j :: 0 <= i < j < |log| && Timed(log[j]) ==> Time(log[i]) <= Time(log[j])
  }

  /** Vault answered every lookup of the token with a 403, and no more than 16
      different tokens were ever rejected. */
  ghost predicate DeadToken(s: State, token: Token) {
    && (forall i :: 0 <= i < |s.log| && Asks(s.log[i], token) ==> s.log[i].outcome.Refused?)
    && |s.rejected| <= 16
  }

  ghost predicate Inv(c: Config, s: State, token: Token) {
    && D.Refines(s.cache, s.record, s.now, c.denyWindow)
    && s.record.Keys <= s.rejected
    && Spaced(s.log, token, c.denyWindow)
    && Ordered(s.log)
    && (forall i :: 0 <= i < |s.log| ==> Time(s.log[i]) <= s.now)
    && (LastAsked(s.log, token).Some? ==>
          && D.TokenKey(token) in s.record
          && s.record[D.TokenKey(token)] >= LastAsked(s.log, token).value)
  }

  // ------------------------------------------------------------------- growth

  /** History is only ever added to. */
  ghost predicate Grows(s: State, t: State) {
    && s.log <= t.log && s.rejected <= t.rejected && s.now <= t.now
    && forall i :: |s.log| <= i < |t.log| && Timed(t.log[i]) ==> s.now <= Time(t.log[i])
  }

  lemma GrowthKeepsDeath(s: State, t: State, token: Token)
    requires Grows(s, t) && DeadToken(t, token)
    ensures DeadToken(s, token)
  {
    D.SubsetIsSmaller(s.rejected, t.rejected);
    assert forall i :: 0 <= i < |s.log| ==> s.log[i] == t.log[i];
  }

  lemma {:induction false} TryEachGrows(c: Config, s: State, x: ReloadInput, candidates: seq<Token>, current: Token)
    ensures Grows(s, TryEach(c, s, x, candidates, current).s)
    decreases |candidates|
  {
    if candidates != [] {
      assert Grows(s, Present(c, s, x, candidates[0]));
      if !Answered(ReplyFor(x, candidates[0]).outcome) {
        TryEachGrows(c, Present(c, s, x, candidates[0]), x, candidates[1..], current);
      }
    }
  }

  lemma TryReloadGrows(c: Config, s: State, x: ReloadInput)
    ensures Grows(s, TryReload(c, s, x).s)
  {
    var g := Gather(c, s, x);
    assert Grows(s, g.s);
    TryEachGrows(c, g.s, x, g.candidates, s.shared.token);
  }

  lemma TryRecoverGrows(c: Config, s: State, h: HookInput)
    ensures Grows(s, TryRecover(c, s, h).s)
  {
  }

  lemma ReplacementGrows(c: Config, s: State, x: CycleInput)
    ensures Grows(s, ReplaceToken(c, s, x).s)
    ensures Grows(s, ReloadInFlux(c, s, x.reload).s)
  {
    TryReloadGrows(c, SetFlux(s, true), x.reload);
    TryRecoverGrows(c, TryReload(c, SetFlux(s, true), x.reload).s, x.hook);
  }

  lemma GrowsTwice(s: State, t: State, u: State)
    requires Grows(s, t) && Grows(t, u)
    ensures Grows(s, u)
  {
    assert forall i :: 0 <= i < |t.log| ==> u.log[i] == t.log[i];
  }

  lemma FlagsGrow(c: Config, s: State, clears: bool)
    ensures Grows(s, Heal(c, s)) && Grows(s, ClearReauth(s)) && Grows(s, SignalReauth(c, s, clears))
  {
  }

  lemma ReactGrows(c: Config, k: Checked, x: CycleInput, scheduled: bool)
    ensures Grows(k.s, React(c, k, x, scheduled).s)
  {
    var t := React(c, k, x, scheduled).s;
    if k.verdict.Healthy? {
      FlagsGrow(c, k.s, false);
    } else if Recovering(k) {
      var r := ReplaceToken(c, k.s, x).s;
      ReplacementGrows(c, k.s, x);
      FlagsGrow(c, r, x.onReauthClears);
      GrowsTwice(k.s, r, t);
    } else if k.verdict.RenewFailed? {
      var r := ReloadInFlux(c, k.s, x.reload).s;
      ReplacementGrows(c, k.s, x);
      FlagsGrow(c, r, false);
      GrowsTwice(k.s, r, t);
    }
  }

  lemma CycleGrows(c: Config, s: State, x: CycleInput, scheduled: bool)
    ensures Grows(s, Cycle(c, s, x, scheduled).s)
  {
    var k := CheckAndRenew(c, s, x);
    CheckGrows(c, s, x);
    ReactGrows(c, k, x, scheduled);
    GrowsTwice(s, k.s, React(c, k, x, scheduled).s);
  }

  lemma CheckGrows(c: Config, s: State, x: CycleInput)
    ensures Grows(s, CheckAndRenew(c, s, x).s)
  {
  }

  function Cleared(s: State): State {
    ClearDenials(Log(s, Began))
  }

  lemma {:induction false} StepGrows(c: Config, s: State, step: Step)
    requires Enabled(s, step)
    ensures Grows(s, Do(c, s, step))
  {
    match step {
      case Tick(x) =>
        var s1 := Log(s, Began);
        CycleGrows(c, s1, x, true);
        GrowsTwice(s, s1, Cycle(c, s1, x, true).s);
      case Reject(x) =>
        var s1 := Log(s, Began).(nudged := false);
        CycleGrows(c, s1, x, false);
        GrowsTwice(s, s1, Cycle(c, s1, x, false).s);
      case Reload(x) =>
        var r := ReloadInFlux(c, Cleared(s), x).s;
        TryReloadGrows(c, SetFlux(Cleared(s), true), x);
        GrowsTwice(s, Cleared(s), r);
        FlagsGrow(c, r, false);
        GrowsTwice(s, r, ClearReauth(r));
      case _ =>
    }
  }

  lemma {:induction false} RunGrows(c: Config, s: State, steps: seq<Step>)
    requires IsRun(c, s, steps)
    ensures Grows(s, Exec(c, s, steps))
    decreases |steps|
  {
    if steps != [] {
      StepGrows(c, s, steps[0]);
      RunGrows(c, Do(c, s, steps[0]), steps[1..]);
    }
  }

  // ---------------------------------------------------------------- invariant

  lemma KeysAreInjective(a: Token, b: Token)
    ensures D.TokenKey(a) == D.TokenKey(b) ==> a == b
  {
    assert D.TokenKey(a)[1..] == a && D.TokenKey(b)[1..] == b;
  }

  /** The token's suppression, if any, has lapsed. */
  predicate Ready(c: Config, s: State, token: Token) {
    !D.Fresh(s.record, D.TokenKey(token), s.now, c.denyWindow)
  }

  /** With at most 16 tokens ever rejected nothing is evicted, so a token that is
      not suppressed was not denied within the window. */
  lemma NotDeniedIsReady(c: Config, s: State, token: Token)
    requires D.Refines(s.cache, s.record, s.now, c.denyWindow)
    requires s.record.Keys <= s.rejected && |s.rejected| <= D.MAX_DENIED
    requires token != "" && !Denied(s, token)
    ensures Ready(c, s, token)
  {
    var key := D.TokenKey(token);
    if key in s.record {
      var others := D.LaterOrTied(s.record, key);
      assert others <= s.record.Keys - {key};
      D.SubsetIsSmaller(others, s.record.Keys - {key});
      D.SubsetIsSmaller(s.record.Keys, s.rejected);
      if D.Fresh(s.record, key, s.now, c.denyWindow) {
        D.RecentIsSuppressed(s.cache, s.record, s.now, c.denyWindow, key, s.now);
      }
    }
  }

  lemma PassKeepsInv(c: Config, s: State, d: nat, token: Token)
    requires Inv(c, s, token)
    ensures Inv(c, Pass(s, d), token)
  {
    D.ProbeKeepsRefinement(s.cache, s.record, s.now, c.denyWindow, "", s.now + d);
  }

  lemma ProbeKeepsInv(c: Config, s: State, probed: Token, token: Token)
    requires Inv(c, s, token)
    ensures Inv(c, Probe(s, probed), token)
  {
    D.ProbeKeepsRefinement(s.cache, s.record, s.now, c.denyWindow, D.TokenKey(probed), s.now);
  }

  /** Logging an event that is not a lookup of the token, at the present moment. */
  lemma LogKeepsInv(c: Config, s: State, e: Event, token: Token)
    requires Inv(c, s, token) && !Asks(e, token) && Time(e) <= s.now
    requires Timed(e) ==> Time(e) == s.now
    ensures Inv(c, Log(s, e), token)
  {
    assert (s.log + [e])[..|s.log|] == s.log;
  }

  lemma DenyKeepsInv(c: Config, s: State, denied: Token, token: Token)
    requires ValidConfig(c) && Inv(c, s, token)
    ensures Inv(c, Deny(c, s, denied), token)
  {
    if denied != "" {
      var key := D.TokenKey(denied);
      D.DenyKeepsRefinement(s.cache, s.record, s.now, c.denyWindow, key, s.now, c.pick(s.cache, s.now));
    }
  }

  /** A lookup of the token followed by the denial its 403 earns. */
  lemma AskKeepsInv(c: Config, s: State, took: nat, token: Token)
    requires ValidConfig(c) && Inv(c, s, token) && token != "" && Ready(c, s, token)
    ensures Inv(c, Deny(c, Pass(Log(s, Lookup(token, s.now, Refused, false, false)), took), token), token)
  {
    var s2 := Pass(Log(s, Lookup(token, s.now, Refused, false, false)), took);
    AskedLog(c, s, token);
    D.ProbeKeepsRefinement(s.cache, s.record, s.now, c.denyWindow, "", s2.now);
    D.DenyKeepsRefinement(s2.cache, s2.record, s2.now, c.denyWindow, D.TokenKey(token), s2.now, c.pick(s2.cache, s2.now));
  }

  lemma AskedLog(c: Config, s: State, token: Token)
    requires Inv(c, s, token) && Ready(c, s, token)
    ensures var log := Log(s, Lookup(token, s.now, Refused, false, false)).log;
      && Spaced(log, token, c.denyWindow) && Ordered(log)
      && (forall i :: 0 <= i < |log| ==> Time(log[i]) <= s.now)
      && LastAsked(log, token) == Some(s.now)
  {
    var log := Log(s, Lookup(token, s.now, Refused, false, false)).log;
    assert log[..|s.log|] == s.log;
  }

  lemma OtherAskKeepsInv(c: Config, s: State, e: Event, took: nat, token: Token)
    requires Inv(c, s, token) && e.Lookup? && e.at == s.now && e.token != token
    ensures Inv(c, Pass(Log(s, e), took), token)
  {
    LogKeepsInv(c, s, e, token);
    PassKeepsInv(c, Log(s, e), took, token);
  }

  lemma PresentKeepsInv(c: Config, s: State, x: ReloadInput, candidate: Token, token: Token)
    requires ValidConfig(c) && Inv(c, s, token) && candidate != "" && Ready(c, s, candidate)
    requires DeadToken(Present(c, s, x, candidate), token)
    ensures Inv(c, Present(c, s, x, candidate), token)
  {
    var r := ReplyFor(x, candidate);
    var s1 := SetToken(s, candidate, true);
    SameHistoryKeepsInv(c, s, s1, token);
    if candidate == token {
      PresentingTheDead(c, s, x, token);
      AskKeepsInv(c, s1, r.took, token);
    } else {
      OtherAskKeepsInv(c, s1, OfCandidate(candidate, s.now, r.outcome), r.took, token);
      var s2 := Pass(Log(s1, OfCandidate(candidate, s.now, r.outcome)), r.took);
      DenyKeepsInv(c, s2, candidate, token);
      SameHistoryKeepsInv(c, s2, Publish(s2, s2.shared.(provisional := false)), token);
    }
  }

  lemma PresentingTheDead(c: Config, s: State, x: ReloadInput, token: Token)
    requires DeadToken(Present(c, s, x, token), token)
    ensures ReplyFor(x, token).outcome.Refused?
  {
    var t := Present(c, s, x, token);
    assert t.log[|s.log|] == OfCandidate(token, s.now, ReplyFor(x, token).outcome);
    assert Asks(t.log[|s.log|], token);
  }

  /** The candidates still to be tried are distinct and none of them is suppressed. */
  ghost predicate AllReady(c: Config, s: State, candidates: seq<Token>) {
    && (forall i, j :: 0 <= i < j < |candidates| ==> candidates[i] != candidates[j])
    && (forall i :: 0 <= i < |candidates| ==> candidates[i] != "" && Ready(c, s, candidates[i]))
  }

  lemma PresentKeepsReady(c: Config, s: State, x: ReloadInput, candidates: seq<Token>)
    requires candidates != [] && AllReady(c, s, candidates)
    ensures AllReady(c, Present(c, s, x, candidates[0]), candidates[1..])
  {
    var t := Present(c, s, x, candidates[0]);
    forall i | 0 <= i < |candidates[1..]|
      ensures candidates[1..][i] != "" && Ready(c, t, candidates[1..][i])
    {
      assert candidates[1..][i] == candidates[i + 1];
      KeysAreInjective(candidates[0], candidates[i + 1]);
      assert Ready(c, s, candidates[i + 1]);
    }
  }

  lemma {:induction false} TryEachKeepsInv(c: Config, s: State, x: ReloadInput, candidates: seq<Token>, current: Token,
                                           token: Token)
    requires ValidConfig(c) && Inv(c, s, token) && AllReady(c, s, candidates)
    requires DeadToken(TryEach(c, s, x, candidates, current).s, token)
    ensures Inv(c, TryEach(c, s, x, candidates, current).s, token)
    decreases |candidates|
  {
    if candidates != [] {
      var s1 := Present(c, s, x, candidates[0]);
      TryEachGrows(c, s1, x, candidates[1..], current);
      if !Answered(ReplyFor(x, candidates[0]).outcome) {
        GrowthKeepsDeath(s1, TryEach(c, s1, x, candidates[1..], current).s, token);
      }
      PresentKeepsInv(c, s, x, candidates[0], token);
      PresentKeepsReady(c, s, x, candidates);
      if !Answered(ReplyFor(x, candidates[0]).outcome) {
        TryEachKeepsInv(c, s1, x, candidates[1..], current, token);
      }
    }
  }

  lemma OfferKeepsReady(c: Config, s: State, l: seq<Token>, offered: Token, token: Token)
    requires Inv(c, s, token) && |s.rejected| <= D.MAX_DENIED && AllReady(c, s, l)
    ensures Inv(c, AfterOffer(s, offered), token)
    ensures AllReady(c, AfterOffer(s, offered), Offer(s, l, offered))
    ensures AfterOffer(s, offered).rejected == s.rejected
  {
    ProbeKeepsInv(c, s, offered, token);
    if offered != "" && !Denied(s, offered) {
      NotDeniedIsReady(c, s, offered);
    }
  }

  lemma GatherKeepsReady(c: Config, s: State, x: ReloadInput, token: Token)
    requires Inv(c, s, token) && |s.rejected| <= D.MAX_DENIED
    ensures Inv(c, Gather(c, s, x).s, token)
    ensures AllReady(c, Gather(c, s, x).s, Gather(c, s, x).candidates)
  {
    var s1 := if c.hasFile then AfterOffer(s, x.file) else s;
    var l1 := if c.hasFile then Offer(s, [], x.file) else [];
    if c.hasFile {
      OfferKeepsReady(c, s, [], x.file, token);
    }
    var s2 := AfterOffer(s1, x.env);
    var l2 := Offer(s1, l1, x.env);
    OfferKeepsReady(c, s1, l1, x.env, token);
    if c.hasBorrower {
      var s3 := Pass(s2, x.borrowTook);
      PassKeepsInv(c, s2, x.borrowTook, token);
      assert AllReady(c, s3, l2);
      OfferKeepsReady(c, s3, l2, x.borrowed, token);
    }
  }

  lemma TryReloadKeepsInv(c: Config, s: State, x: ReloadInput, token: Token)
    requires ValidConfig(c) && Inv(c, s, token) && DeadToken(TryReload(c, s, x).s, token)
    ensures Inv(c, TryReload(c, s, x).s, token)
  {
    TryReloadGrows(c, s, x);
    GrowthKeepsDeath(s, TryReload(c, s, x).s, token);
    GatherKeepsReady(c, s, x, token);
    var g := Gather(c, s, x);
    if (c.hasFile || c.hasBorrower) && g.candidates != [] {
      TryEachKeepsInv(c, g.s, x, g.candidates, s.shared.token, token);
    }
  }

  lemma TryRecoverKeepsInv(c: Config, s: State, h: HookInput, token: Token)
    requires Inv(c, s, token)
    ensures Inv(c, TryRecover(c, s, h).s, token)
  {
    var worked := h.HookReturns? && h.token != "";
    LogKeepsInv(c, s, HookCalled(s.now, worked, s.episode), token);
    PassKeepsInv(c, Log(s, HookCalled(s.now, worked, s.episode)), h.took, token);
  }

  lemma ReplaceTokenKeepsInv(c: Config, s: State, x: CycleInput, token: Token)
    requires ValidConfig(c) && Inv(c, s, token) && DeadToken(ReplaceToken(c, s, x).s, token)
    ensures Inv(c, ReplaceToken(c, s, x).s, token)
  {
    var r := TryReload(c, SetFlux(s, true), x.reload);
    TryRecoverGrows(c, r.s, x.hook);
    GrowthKeepsDeath(r.s, ReplaceToken(c, s, x).s, token);
    TryReloadKeepsInv(c, SetFlux(s, true), x.reload, token);
    TryRecoverKeepsInv(c, r.s, x.hook, token);
  }

  lemma ReloadInFluxKeepsInv(c: Config, s: State, x: ReloadInput, token: Token)
    requires ValidConfig(c) && Inv(c, s, token) && DeadToken(ReloadInFlux(c, s, x).s, token)
    ensures Inv(c, ReloadInFlux(c, s, x).s, token)
  {
    TryReloadKeepsInv(c, SetFlux(s, true), x, token);
  }

  /** The invariant speaks of the denylist, the log and the clock only. */
  ghost predicate SameHistory(s: State, t: State) {
    && t.cache == s.cache && t.record == s.record && t.rejected == s.rejected
    && t.log == s.log && t.now == s.now
  }

  lemma SameHistoryKeepsInv(c: Config, s: State, t: State, token: Token)
    requires Inv(c, s, token) && SameHistory(s, t)
    ensures Inv(c, t, token)
  {
  }

  lemma ClearReauthKeepsInv(c: Config, s: State, token: Token)
    requires Inv(c, s, token)
    ensures Inv(c, ClearReauth(s), token)
  {
    if s.shared.needsReauth {
      LogKeepsInv(c, s, Lowered, token);
      SameHistoryKeepsInv(c, Log(s, Lowered), ClearReauth(s), token);
    } else {
      SameHistoryKeepsInv(c, s, ClearReauth(s), token);
    }
  }

  lemma SignalKeepsInv(c: Config, s: State, clears: bool, token: Token)
    requires Inv(c, s, token)
    ensures Inv(c, SignalReauth(c, s, clears), token)
  {
    if !s.shared.needsReauth {
      var up := Log(s, Raised);
      LogKeepsInv(c, s, Raised, token);
      if c.hasOnReauth {
        LogKeepsInv(c, up, OnReauth, token);
        SameHistoryKeepsInv(c, Log(up, OnReauth), SignalReauth(c, s, clears), token);
      } else {
        SameHistoryKeepsInv(c, up, SignalReauth(c, s, clears), token);
      }
    }
  }

  lemma FlagsKeepInv(c: Config, s: State, clears: bool, token: Token)
    requires Inv(c, s, token)
    ensures Inv(c, Heal(c, s), token) && Inv(c, ClearReauth(s), token)
    ensures Inv(c, SignalReauth(c, s, clears), token)
  {
    ClearReauthKeepsInv(c, s, token);
    SameHistoryKeepsInv(c, ClearReauth(s), Heal(c, s), token);
    SignalKeepsInv(c, s, clears, token);
  }

  lemma ReactKeepsInv(c: Config, k: Checked, x: CycleInput, scheduled: bool, token: Token)
    requires ValidConfig(c) && Inv(c, k.s, token) && DeadToken(React(c, k, x, scheduled).s, token)
    ensures Inv(c, React(c, k, x, scheduled).s, token)
  {
    if k.verdict.Healthy? {
      FlagsKeepInv(c, k.s, false, token);
    } else if Recovering(k) {
      ReplacingKeepsInv(c, k, x, scheduled, token);
    } else if k.verdict.RenewFailed? {
      RenewingKeepsInv(c, k, x, scheduled, token);
    } else {
      SameHistoryKeepsInv(c, k.s, React(c, k, x, scheduled).s, token);
    }
  }

  lemma ReplacingKeepsInv(c: Config, k: Checked, x: CycleInput, scheduled: bool, token: Token)
    requires ValidConfig(c) && Inv(c, k.s, token) && DeadToken(React(c, k, x, scheduled).s, token)
    requires Recovering(k)
    ensures Inv(c, React(c, k, x, scheduled).s, token)
  {
    var r := ReplaceToken(c, k.s, x);
    var u := if r.ok then Heal(c, r.s) else SignalReauth(c, r.s, x.onReauthClears);
    FlagsGrow(c, r.s, x.onReauthClears);
    assert SameHistory(u, React(c, k, x, scheduled).s);
    GrowthKeepsDeath(r.s, u, token);
    ReplaceTokenKeepsInv(c, k.s, x, token);
    FlagsKeepInv(c, r.s, x.onReauthClears, token);
    SameHistoryKeepsInv(c, u, React(c, k, x, scheduled).s, token);
  }

  lemma RenewingKeepsInv(c: Config, k: Checked, x: CycleInput, scheduled: bool, token: Token)
    requires ValidConfig(c) && Inv(c, k.s, token) && DeadToken(React(c, k, x, scheduled).s, token)
    requires k.verdict.RenewFailed? && !Recovering(k)
    ensures Inv(c, React(c, k, x, scheduled).s, token)
  {
    var r := ReloadInFlux(c, k.s, x.reload);
    var u := if r.ok then Heal(c, r.s) else r.s;
    FlagsGrow(c, r.s, false);
    assert SameHistory(u, React(c, k, x, scheduled).s);
    GrowthKeepsDeath(r.s, u, token);
    ReloadInFluxKeepsInv(c, k.s, x.reload, token);
    FlagsKeepInv(c, r.s, false, token);
    SameHistoryKeepsInv(c, u, React(c, k, x, scheduled).s, token);
  }

  lemma CheckKeepsInv(c: Config, s: State, x: CycleInput, token: Token)
    requires ValidConfig(c) && Inv(c, s, token) && DeadToken(CheckAndRenew(c, s, x).s, token)
    ensures Inv(c, CheckAndRenew(c, s, x).s, token)
  {
    var held := s.shared.token;
    if held != "" {
      ProbeKeepsInv(c, s, held, token);
      if !Denied(s, held) {
        CheckGrows(c, s, x);
        GrowthKeepsDeath(s, CheckAndRenew(c, s, x).s, token);
        NotDeniedIsReady(c, s, held);
        if held == token {
          CheckOfTokenKeepsInv(c, s, x);
        } else {
          CheckOfOtherKeepsInv(c, s, x, token);
        }
      }
    }
  }

  lemma CheckOfTokenKeepsInv(c: Config, s: State, x: CycleInput)
    requires var token := s.shared.token;
      && ValidConfig(c) && Inv(c, Probe(s, token), token) && token != "" && !Denied(s, token)
      && Ready(c, s, token) && DeadToken(CheckAndRenew(c, s, x).s, token)
    ensures Inv(c, CheckAndRenew(c, s, x).s, s.shared.token)
  {
    var token := s.shared.token;
    var s1 := Probe(s, token);
    var t := CheckAndRenew(c, s, x).s;
    assert t.log[|s.log|] == OfCheck(token, s1.now, x.check);
    assert Asks(t.log[|s.log|], token);
    AskKeepsInv(c, s1, x.checkTook, token);
  }

  lemma CheckOfOtherKeepsInv(c: Config, s: State, x: CycleInput, token: Token)
    requires var held := s.shared.token;
      && ValidConfig(c) && Inv(c, Probe(s, held), token) && held != "" && !Denied(s, held) && held != token
    ensures Inv(c, CheckAndRenew(c, s, x).s, token)
  {
    var s1 := Probe(s, s.shared.token);
    var s2 := OtherLookupKeepsInv(c, s1, OfCheck(s.shared.token, s1.now, x.check), x.checkTook, token);
    assert CheckAndRenew(c, s, x).s == s2 || CheckAndRenew(c, s, x).s == Deny(c, s2, s.shared.token);
  }

  /** A lookup of another token, followed or not by its denial. */
  lemma OtherLookupKeepsInv(c: Config, s: State, e: Event, took: nat, token: Token)
      returns (t: State)
    requires ValidConfig(c) && Inv(c, s, token) && e.Lookup? && e.at == s.now && e.token != token
    ensures t == Pass(Log(s, e), took)
    ensures Inv(c, t, token) && Inv(c, Deny(c, t, e.token), token)
  {
    t := Pass(Log(s, e), took);
    OtherAskKeepsInv(c, s, e, took, token);
    DenyKeepsInv(c, t, e.token, token);
  }

  lemma CycleKeepsInv(c: Config, s: State, x: CycleInput, scheduled: bool, token: Token)
    requires ValidConfig(c) && Inv(c, s, token) && DeadToken(Cycle(c, s, x, scheduled).s, token)
    ensures Inv(c, Cycle(c, s, x, scheduled).s, token)
  {
    var k := CheckAndRenew(c, s, x);
    ReactGrows(c, k, x, scheduled);
    GrowthKeepsDeath(k.s, React(c, k, x, scheduled).s, token);
    CheckKeepsInv(c, s, x, token);
    ReactKeepsInv(c, k, x, scheduled, token);
  }

  lemma {:induction false} StepKeepsInv(c: Config, s: State, step: Step, token: Token)
    requires ValidConfig(c) && Inv(c, s, token) && Enabled(s, step) && DeadToken(Do(c, s, step), token)
    ensures Inv(c, Do(c, s, step), token)
  {
    match step {
      case Elapse(d) => PassKeepsInv(c, s, d, token);
      case Tick(x) => CheckStepKeepsInv(c, s, step, Log(s, Began), x, true, token);
      case Reject(x) => CheckStepKeepsInv(c, s, step, Log(s, Began).(nudged := false), x, false, token);
      case Reload(x) => ReloadStepKeepsInv(c, s, x, token);
      case _ => SameHistoryKeepsInv(c, s, Do(c, s, step), token);
    }
  }

  lemma CheckStepKeepsInv(c: Config, s: State, step: Step, s1: State, x: CycleInput, scheduled: bool, token: Token)
    requires ValidConfig(c) && Inv(c, s, token) && Enabled(s, step) && DeadToken(Do(c, s, step), token)
    requires SameHistory(Log(s, Began), s1)
    requires SameHistory(Cycle(c, s1, x, scheduled).s, Do(c, s, step))
    ensures Inv(c, Do(c, s, step), token)
  {
    LogKeepsInv(c, s, Began, token);
    SameHistoryKeepsInv(c, Log(s, Began), s1, token);
    CycleKeepsInv(c, s1, x, scheduled, token);
    SameHistoryKeepsInv(c, Cycle(c, s1, x, scheduled).s, Do(c, s, step), token);
  }

  lemma ReloadStepKeepsInv(c: Config, s: State, x: ReloadInput, token: Token)
    requires ValidConfig(c) && Inv(c, s, token) && DeadToken(Do(c, s, Reload(x)), token)
    ensures Inv(c, Do(c, s, Reload(x)), token)
  {
    var r := ReloadInFlux(c, Cleared(s), x);
    var u := if r.ok then ClearReauth(r.s) else r.s;
    assert SameHistory(u, Do(c, s, Reload(x)));
    FlagsGrow(c, r.s, false);
    GrowthKeepsDeath(r.s, u, token);
    ClearKeepsInv(c, s, token);
    ReloadInFluxKeepsInv(c, Cleared(s), x, token);
    FlagsKeepInv(c, r.s, false, token);
    SameHistoryKeepsInv(c, u, Do(c, s, Reload(x)), token);
  }

  lemma ClearKeepsInv(c: Config, s: State, token: Token)
    requires Inv(c, s, token)
    ensures Inv(c, Cleared(s), token)
  {
    var s1 := Log(s, Began);
    LogKeepsInv(c, s, Began, token);
    var log := Cleared(s).log;
    assert log == s1.log + [DenylistCleared(s.now)];
    assert log[..|s1.log|] == s1.log;
  }

  lemma {:induction false} RunKeepsInv(c: Config, s: State, steps: seq<Step>, token: Token)
    requires ValidConfig(c) && Inv(c, s, token) && IsRun(c, s, steps) && DeadToken(Exec(c, s, steps), token)
    ensures Inv(c, Exec(c, s, steps), token)
    decreases |steps|
  {
    if steps != [] {
      var s1 := Do(c, s, steps[0]);
      RunGrows(c, s1, steps[1..]);
      GrowthKeepsDeath(s1, Exec(c, s1, steps[1..]), token);
      StepKeepsInv(c, s, steps[0], token);
      RunKeepsInv(c, s1, steps[1..], token);
    }
  }

  // ----------------------------------------------------------------- theorems

  lemma {:induction false} LastAskedIsLatest(log: seq<Event>, token: Token, i: nat)
    requires i < |log| && Asks(log[i], token) && Ordered(log)
    requires forall k :: i < k < |log| ==> !log[k].DenylistCleared?
    ensures LastAsked(log, token).Some? && LastAsked(log, token).value >= log[i].at
    decreases |log|
  {
    var n := |log| - 1;
    if !Asks(log[n], token) {
      LastAskedIsLatest(log[..n], token, i);
    }
  }

  lemma {:induction false} SpacedPairs(log: seq<Event>, token: Token, window: nat, i: nat, j: nat)
    requires Spaced(log, token, window) && Ordered(log)
    requires i < j < |log| && Asks(log[i], token) && Asks(log[j], token)
    requires forall k :: i < k < j ==> !log[k].DenylistCleared?
    ensures log[j].at >= log[i].at + window
    decreases |log|
  {
    var n := |log| - 1;
    var before := log[..n];
    if j < n {
      SpacedPairs(before, token, window, i, j);
    } else {
      LastAskedIsLatest(before, token, i);
    }
  }

  /** Two lookups of a dead token are at least one window apart, or the denylist
      was cleared between them, in every run that rejects at most 16 tokens. */
  lemma {:induction false} DeadTokenLookupsAreSpaced(c: Config, start: State, steps: seq<Step>,
                                                     token: Token, i: nat, j: nat)
    requires ValidConfig(c) && Starts(c, start) && D.Refines(start.cache, start.record, start.now, c.denyWindow)
    requires IsRun(c, start, steps)
    requires DeadToken(Exec(c, start, steps), token)
    requires i < j < |Exec(c, start, steps).log|
    requires Asks(Exec(c, start, steps).log[i], token)
    requires Asks(Exec(c, start, steps).log[j], token)
    ensures var log := Exec(c, start, steps).log;
      || log[j].at >= log[i].at + c.denyWindow
      || exists k :: i < k < j && log[k].DenylistCleared?
  {
    RunKeepsInv(c, start, steps, token);
    var log := Exec(c, start, steps).log;
    if forall k :: i < k < j ==> !log[k].DenylistCleared? {
      SpacedPairs(log, token, c.denyWindow, i, j);
    }
  }

  function Asked(log: seq<Event>, token: Token): nat {
    if log == [] then 0
    else Asked(log[..|log| - 1], token) + if Asks(log[|log| - 1], token) then 1 else 0
  }

  function Clears(log: seq<Event>): nat {
    if log == [] then 0
    else Clears(log[..|log| - 1]) + if log[|log| - 1].DenylistCleared? then 1 else 0
  }

  /** Lookups are paid for: one window each, drawn from the clears, from the time
      that has passed, and from one window in hand. */
  ghost predicate WithinBudget(log: seq<Event>, token: Token, window: nat, start: nat, now: nat) {
    var last := LastAsked(log, token);
    && (last.Some? ==> start <= last.value <= now)
    && Asked(log, token) * window
         <= Clears(log) * window + if last.Some? then window + last.value - start else now - start
  }

  lemma OneMore(n: nat, window: nat)
    ensures (n + 1) * window == n * window + window
  {
  }

  lemma {:induction false} LookupBudget(log: seq<Event>, token: Token, window: nat, start: nat, now: nat)
    requires Spaced(log, token, window) && Ordered(log) && start <= now
    requires forall i :: 0 <= i < |log| && Timed(log[i]) ==> start <= Time(log[i]) <= now
    ensures WithinBudget(log, token, window, start, now)
    decreases |log|
  {
    if log != [] {
      var n := |log| - 1;
      var before := log[..n];
      var upTo := if Timed(log[n]) then Time(log[n]) else now;
      assert Ordered(before);
      LookupBudget(before, token, window, start, upTo);
      BudgetStep(log, token, window, start, upTo, now);
    }
  }

  lemma BudgetStep(log: seq<Event>, token: Token, window: nat, start: nat, upTo: nat, now: nat)
    requires log != [] && start <= upTo <= now
    requires Timed(log[|log| - 1]) ==> upTo == Time(log[|log| - 1])
    requires WithinBudget(log[..|log| - 1], token, window, start, upTo)
    requires Spaced(log, token, window)
    ensures WithinBudget(log, token, window, start, now)
  {
    var before := log[..|log| - 1];
    OneMore(Asked(before, token), window);
    OneMore(Clears(before), window);
  }

  /** The storm bound: a run of length T with k clears sends at most
      1 + k + T / window lookups of a dead token. */
  lemma {:induction false} DeadTokenLookupsAreFew(c: Config, start: State, steps: seq<Step>, token: Token)
    requires ValidConfig(c) && Starts(c, start) && D.Refines(start.cache, start.record, start.now, c.denyWindow)
    requires IsRun(c, start, steps)
    requires DeadToken(Exec(c, start, steps), token)
    ensures var e := Exec(c, start, steps);
      Asked(e.log, token) * c.denyWindow <= (1 + Clears(e.log)) * c.denyWindow + (e.now - start.now)
  {
    RunKeepsInv(c, start, steps, token);
    RunGrows(c, start, steps);
    LookupsOf(c, start, Exec(c, start, steps), token);
  }

  /** The bound, for the state a run ends in. */
  lemma LookupsOf(c: Config, start: State, e: State, token: Token)
    requires Inv(c, e, token) && Grows(start, e) && start.log == []
    ensures Asked(e.log, token) * c.denyWindow <= (1 + Clears(e.log)) * c.denyWindow + (e.now - start.now)
  {
    LookupBudget(e.log, token, c.denyWindow, start.now, e.now);
    BudgetBound(e.log, token, c.denyWindow, start.now, e.now);
  }

  lemma BudgetBound(log: seq<Event>, token: Token, window: nat, start: nat, now: nat)
    requires WithinBudget(log, token, window, start, now) && start <= now
    ensures Asked(log, token) * window <= (1 + Clears(log)) * window + (now - start)
  {
    OneMore(Clears(log), window);
  }
}
