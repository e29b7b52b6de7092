/** What the lifecycle manager promises the other users of the Vault client: the
    gate is up while the client holds an unproven token, a reload adopts the first
    acceptable candidate or changes nothing, and OnReauth fires once per episode. */
module LifecycleGate {
  import opened Wrappers
  import opened Lifecycle
  import D = TokenDenylist

  // --------------------------------------------------------------------- gate

  predicate Safe(v: Shared) {
    v.provisional ==> v.inFlux
  }

  ghost predicate Gated(s: State) {
    && Safe(s.shared)
    && forall i :: 0 <= i < |s.views| ==> Safe(s.views[i])
  }

  /** Gathering candidates touches only the denylist and the clock. */
  lemma GatherIsInvisible(c: Config, s: State, x: ReloadInput)
    ensures var g := Gather(c, s, x).s;
      g == s.(cache := g.cache, now := g.now) && g.now >= s.now
  {
  }

  lemma {:induction false} TryEachIsGated(c: Config, s: State, x: ReloadInput, candidates: seq<Token>, current: Token)
    requires Gated(s) && s.shared.inFlux
    ensures var t := TryEach(c, s, x, candidates, current).s;
      Gated(t) && t.shared.inFlux && !t.shared.provisional && t.shared.needsReauth == s.shared.needsReauth
    decreases |candidates|
  {
    if candidates != [] {
      var s1 := Present(c, s, x, candidates[0]);
      assert Gated(s1) && s1.shared.inFlux;
      if !Answered(ReplyFor(x, candidates[0]).outcome) {
        TryEachIsGated(c, s1, x, candidates[1..], current);
      }
    }
  }

  ghost predicate Resting(s: State) {
    Gated(s) && !s.shared.inFlux
  }

  lemma TryReloadIsGated(c: Config, s: State, x: ReloadInput)
    requires Gated(s) && s.shared.inFlux && !s.shared.provisional
    ensures var t := TryReload(c, s, x).s;
      Gated(t) && t.shared.inFlux && !t.shared.provisional && t.shared.needsReauth == s.shared.needsReauth
  {
    GatherIsInvisible(c, s, x);
    var g := Gather(c, s, x);
    if c.hasFile || c.hasBorrower {
      if g.candidates != [] {
        TryEachIsGated(c, g.s, x, g.candidates, s.shared.token);
      }
    }
  }

  lemma ReloadInFluxIsGated(c: Config, s: State, x: ReloadInput)
    requires Resting(s)
    ensures Resting(ReloadInFlux(c, s, x).s)
    ensures ReloadInFlux(c, s, x).s.shared.needsReauth == s.shared.needsReauth
  {
    TryReloadIsGated(c, SetFlux(s, true), x);
  }

  lemma TryRecoverIsGated(c: Config, s: State, h: HookInput)
    requires Gated(s) && s.shared.inFlux && !s.shared.provisional
    ensures var t := TryRecover(c, s, h).s;
      Gated(t) && t.shared.inFlux && !t.shared.provisional && t.shared.needsReauth == s.shared.needsReauth
  {
  }

  lemma ReplaceTokenIsGated(c: Config, s: State, x: CycleInput)
    requires Resting(s)
    ensures Resting(ReplaceToken(c, s, x).s)
    ensures ReplaceToken(c, s, x).s.shared.needsReauth == s.shared.needsReauth
  {
    TryReloadIsGated(c, SetFlux(s, true), x.reload);
    var r := TryReload(c, SetFlux(s, true), x.reload);
    if !r.ok {
      TryRecoverIsGated(c, r.s, x.hook);
    }
  }

  lemma CheckIsInvisible(c: Config, s: State, x: CycleInput)
    ensures var k := CheckAndRenew(c, s, x).s; k.shared == s.shared && k.views == s.views
  {
  }

  lemma FlagsAreGated(c: Config, s: State, clears: bool)
    requires Resting(s)
    ensures Resting(Heal(c, s)) && Resting(ClearReauth(s)) && Resting(SignalReauth(c, s, clears))
  {
  }

  lemma ReactIsGated(c: Config, k: Checked, x: CycleInput, scheduled: bool)
    requires Resting(k.s)
    ensures Resting(React(c, k, x, scheduled).s)
  {
    if k.verdict.Healthy? {
      FlagsAreGated(c, k.s, x.onReauthClears);
    } else if Recovering(k) {
      ReplaceTokenIsGated(c, k.s, x);
      FlagsAreGated(c, ReplaceToken(c, k.s, x).s, x.onReauthClears);
    } else if k.verdict.RenewFailed? {
      ReloadInFluxIsGated(c, k.s, x.reload);
      FlagsAreGated(c, ReloadInFlux(c, k.s, x.reload).s, x.onReauthClears);
    }
  }

  lemma CycleIsGated(c: Config, s: State, x: CycleInput, scheduled: bool)
    requires Resting(s)
    ensures Resting(Cycle(c, s, x, scheduled).s)
  {
    CheckIsInvisible(c, s, x);
    ReactIsGated(c, CheckAndRenew(c, s, x), x, scheduled);
  }

  lemma {:induction false} StepIsGated(c: Config, s: State, step: Step)
    requires Resting(s) && Enabled(s, step)
    ensures Resting(Do(c, s, step))
  {
    match step {
      case Tick(x) => CycleIsGated(c, Log(s, Began), x, true);
      case Reject(x) => CycleIsGated(c, Log(s, Began).(nudged := false), x, false);
      case Reload(x) =>
        var r := ReloadInFlux(c, ClearDenials(Log(s, Began)), x);
        ReloadInFluxIsGated(c, ClearDenials(Log(s, Began)), x);
        FlagsAreGated(c, r.s, false);
      case _ =>
    }
  }

  lemma {:induction false} RunIsGated(c: Config, s: State, steps: seq<Step>)
    requires Resting(s) && IsRun(c, s, steps)
    ensures Resting(Exec(c, s, steps))
    decreases |steps|
  {
    if steps != [] {
      StepIsGated(c, s, steps[0]);
      RunIsGated(c, Do(c, s, steps[0]), steps[1..]);
    }
  }

  /** Gate soundness: of everything a concurrent reader could have seen over a
      run, no view that answers NeedsReauth with false carries a reload candidate
      whose lookup Vault has not answered. */
  lemma {:induction false} GateIsSound(c: Config, start: State, steps: seq<Step>, i: nat)
    requires Starts(c, start) && IsRun(c, start, steps)
    requires i < |Exec(c, start, steps).views|
    ensures var v := Exec(c, start, steps).views[i];
      !NeedsReauth(v) ==> !v.provisional
  {
    RunIsGated(c, start, steps);
  }

  // ------------------------------------------------------------------- reload

  /** A token one of the sources offers, and when. */
  datatype Offered = Offered(token: Token, at: nat)

  /** The sources in order of preference: file, environment, peer. */
  function Sources(c: Config, s: State, x: ReloadInput): seq<Offered> {
    (if c.hasFile then [Offered(x.file, s.now)] else [])
    + [Offered(x.env, s.now)]
    + (if c.hasBorrower then [Offered(x.borrowed, s.now + x.borrowTook)] else [])
  }

  predicate Acceptable(s: State, x: ReloadInput, o: Offered) {
    && o.token != "" && o.token != s.shared.token
    && !D.Suppressed(s.cache, D.TokenKey(o.token), o.at)
    && Answered(ReplyFor(x, o.token).outcome)
  }

  function FirstAnswered(x: ReloadInput, candidates: seq<Token>): Option<Token> {
    if candidates == [] then None
    else if Answered(ReplyFor(x, candidates[0]).outcome) then Some(candidates[0])
    else FirstAnswered(x, candidates[1..])
  }

  lemma {:induction false} FirstAnsweredOfAppend(x: ReloadInput, l: seq<Token>, t: Token)
    ensures FirstAnswered(x, l + [t]) ==
      if FirstAnswered(x, l).Some? then FirstAnswered(x, l)
      else if Answered(ReplyFor(x, t).outcome) then Some(t) else None
  {
    if l == [] {
      assert l + [t] == [t];
    } else {
      assert (l + [t])[1..] == l[1..] + [t];
      FirstAnsweredOfAppend(x, l[1..], t);
    }
  }

  lemma {:induction false} AnsweredMemberIsFound(x: ReloadInput, l: seq<Token>, t: Token)
    requires t in l && Answered(ReplyFor(x, t).outcome)
    ensures FirstAnswered(x, l).Some?
  {
    if l[0] != t {
      AnsweredMemberIsFound(x, l[1..], t);
    }
  }

  /** Dropping lapsed entries does not change what is suppressed later on. */
  lemma ProbingIsHarmless(m: D.Cache, key: string, t: nat, other: string, later: nat)
    requires t <= later
    ensures D.Suppressed(D.Probed(m, key, t), other, later) == D.Suppressed(m, other, later)
  {
  }

  /** `now` is a later moment of `s` that suppresses the same tokens. */
  ghost predicate SameVerdicts(s: State, now: State) {
    && now.shared == s.shared && s.now <= now.now
    && forall key, later: nat :: later >= now.now ==>
         D.Suppressed(now.cache, key, later) == D.Suppressed(s.cache, key, later)
  }

  lemma OfferStep(s: State, now: State, x: ReloadInput, l: seq<Token>, token: Token)
    requires SameVerdicts(s, now)
    ensures SameVerdicts(s, AfterOffer(now, token)) && AfterOffer(now, token).now == now.now
    ensures FirstAnswered(x, Offer(now, l, token)) ==
      if FirstAnswered(x, l).Some? then FirstAnswered(x, l)
      else if Acceptable(s, x, Offered(token, now.now)) then Some(token) else None
  {
    FirstAnsweredOfAppend(x, l, token);
    if token in l && Answered(ReplyFor(x, token).outcome) {
      AnsweredMemberIsFound(x, l, token);
    }
    forall key, later: nat | later >= now.now
      ensures D.Suppressed(AfterOffer(now, token).cache, key, later) == D.Suppressed(s.cache, key, later)
    {
      ProbingIsHarmless(now.cache, D.TokenKey(token), now.now, key, later);
    }
  }

  /** The first acceptable offer, searched directly. */
  function Best(s: State, x: ReloadInput, offers: seq<Offered>): Option<Token> {
    if offers == [] then None
    else if Acceptable(s, x, offers[0]) then Some(offers[0].token)
    else Best(s, x, offers[1..])
  }

  lemma GatherKeepsTheBest(c: Config, s: State, x: ReloadInput)
    ensures FirstAnswered(x, Gather(c, s, x).candidates) == Best(s, x, Sources(c, s, x))
  {
    var s1 := if c.hasFile then AfterOffer(s, x.file) else s;
    var l1 := if c.hasFile then Offer(s, [], x.file) else [];
    OfferStep(s, s, x, [], x.file);
    var s2 := AfterOffer(s1, x.env);
    var l2 := Offer(s1, l1, x.env);
    OfferStep(s, s1, x, l1, x.env);
    var s3 := Pass(s2, x.borrowTook);
    assert SameVerdicts(s, s3);
    OfferStep(s, s3, x, l2, x.borrowed);
    var third := if c.hasBorrower then [Offered(x.borrowed, s3.now)] else [];
    var rest := [Offered(x.env, s.now)] + third;
    assert rest[1..] == third;
    assert Best(s, x, third) == if c.hasBorrower && Acceptable(s, x, Offered(x.borrowed, s3.now))
      then Some(x.borrowed) else None;
    if c.hasFile {
      assert Sources(c, s, x)[1..] == rest;
    } else {
      assert Sources(c, s, x) == rest;
    }
  }

  lemma {:induction false} TryEachTakesTheFirst(c: Config, s: State, x: ReloadInput, candidates: seq<Token>, current: Token)
    ensures var t := TryEach(c, s, x, candidates, current);
      && t.ok == FirstAnswered(x, candidates).Some?
      && t.s.shared.token == (if t.ok then FirstAnswered(x, candidates).value else current)
    decreases |candidates|
  {
    if candidates != [] && !Answered(ReplyFor(x, candidates[0]).outcome) {
      TryEachTakesTheFirst(c, Present(c, s, x, candidates[0]), x, candidates[1..], current);
    }
  }

  /** tryReload succeeds exactly when some source offers an acceptable token: one
      that is non-empty, not the token already held, not suppressed when it was
      offered, and whose lookup Vault answers.  It then leaves the first such token in the
      order file, environment, peer; otherwise the client holds the token it held
      on entry.  With neither a token file nor a peer configured it does nothing. */
  lemma {:induction false} ReloadAdoptsTheBest(c: Config, s: State, x: ReloadInput)
    ensures var t := TryReload(c, s, x);
      var best := if c.hasFile || c.hasBorrower then Best(s, x, Sources(c, s, x)) else None;
      && t.ok == best.Some?
      && t.s.shared.token == (if t.ok then best.value else s.shared.token)
  {
    GatherKeepsTheBest(c, s, x);
    GatherIsInvisible(c, s, x);
    var g := Gather(c, s, x);
    TryEachTakesTheFirst(c, g.s, x, g.candidates, s.shared.token);
  }

  // ------------------------------------------------------------------ signals

  /** The needs-reauth flag as the log tells it. */
  function Flag(log: seq<Event>): bool {
    if log == [] then false
    else
      match log[|log| - 1]
      case Raised => true
      case Lowered => false
      case _ => Flag(log[..|log| - 1])
  }

  /** A lookup or the hook has yielded a working token since the loop last took up work. */
  predicate HealedSince(log: seq<Event>) {
    log != [] &&
    match log[|log| - 1]
    case Began => false
    case Lookup(_, _, _, works, _) => works || HealedSince(log[..|log| - 1])
    case HookCalled(_, worked, _) => worked || HealedSince(log[..|log| - 1])
    case _ => HealedSince(log[..|log| - 1])
  }

  /** A reload has adopted an expired candidate since the loop last took up work. */
  predicate StaleSince(log: seq<Event>) {
    log != [] &&
    match log[|log| - 1]
    case Began => false
    case Lookup(_, _, _, _, stale) => stale || StaleSince(log[..|log| - 1])
    case _ => StaleSince(log[..|log| - 1])
  }

  /** The work under way has come to a token so far, or it has not. */
  predicate Replaced(log: seq<Event>) {
    HealedSince(log) != StaleSince(log)
  }

  predicate Searching(log: seq<Event>) {
    !HealedSince(log) && !StaleSince(log)
  }

  /** No rise of the flag is still waiting for its callback. */
  predicate Settled(callback: bool, log: seq<Event>) {
    callback && log != [] ==> !log[|log| - 1].Raised?
  }

  /** The flag rises only when down; it falls only when up, and after a working token
      exactly when no expired candidate was adopted; each rise is followed at once by
      OnReauth, which fires at no other time. */
  predicate WellSignalled(callback: bool, log: seq<Event>) {
    log == [] ||
    var before := log[..|log| - 1];
    && WellSignalled(callback, before)
    && match log[|log| - 1]
       case Raised => !Flag(before) && Settled(callback, before)
       case Lowered => Flag(before) && Replaced(before) && Settled(callback, before)
       case OnReauth => callback && before != [] && before[|before| - 1].Raised?
       case _ => Settled(callback, before)
  }

  ghost predicate SignalInv(c: Config, s: State) {
    && WellSignalled(c.hasOnReauth, s.log)
    && Settled(c.hasOnReauth, s.log)
    && Flag(s.log) == s.shared.needsReauth
  }

  lemma AppendEvent(log: seq<Event>, e: Event)
    ensures (log + [e])[..|log|] == log && (log + [e])[|log|] == e
  {
  }

  /** Logging anything but a signal keeps the signal history intact. */
  lemma LogKeepsSignals(c: Config, s: State, e: Event)
    requires SignalInv(c, s) && !e.Raised? && !e.Lowered? && !e.OnReauth?
    ensures SignalInv(c, Log(s, e))
    ensures e.Began? ==> Searching(Log(s, e).log)
    ensures Searching(s.log) && e.DenylistCleared? ==> Searching(Log(s, e).log)
  {
    AppendEvent(s.log, e);
  }

  /** What looking up a token or calling the hook adds to a search. */
  lemma LogMovesSearch(s: State, e: Event)
    requires Searching(s.log) && (e.Lookup? || e.HookCalled?)
    ensures HealedSince(Log(s, e).log) <==> (e.Lookup? && e.works) || (e.HookCalled? && e.worked)
    ensures StaleSince(Log(s, e).log) <==> e.Lookup? && e.stale
  {
    AppendEvent(s.log, e);
  }

  /** What a stretch of work may do to the log when it raises and lowers nothing. */
  ghost predicate Quietly(c: Config, s: State, t: State) {
    && SignalInv(c, t)
    && t.shared.needsReauth == s.shared.needsReauth
    && Callbacks(t.log) == Callbacks(s.log)
  }

  function Callbacks(log: seq<Event>): nat {
    if log == [] then 0
    else Callbacks(log[..|log| - 1]) + if log[|log| - 1].OnReauth? then 1 else 0
  }

  /** A search that went on from `s` to `t`, finding a token or not. */
  ghost predicate Searches(c: Config, s: State, t: Tried) {
    && Quietly(c, s, t.s)
    && (if t.ok then Replaced(t.s.log) else Searching(t.s.log))
  }

  /** A reload's token is an expired one exactly if that is what its lookup answered. */
  ghost predicate StaleAsAnswered(x: ReloadInput, t: Tried) {
    t.ok ==> (StaleSince(t.s.log) <==> ReplyFor(x, t.s.shared.token).outcome.Lapsed?)
  }

  lemma {:induction false} TryEachIsQuiet(c: Config, s: State, x: ReloadInput, candidates: seq<Token>, current: Token)
    requires SignalInv(c, s) && Searching(s.log)
    ensures Searches(c, s, TryEach(c, s, x, candidates, current))
    ensures StaleAsAnswered(x, TryEach(c, s, x, candidates, current))
    decreases |candidates|
  {
    if candidates != [] {
      var e := OfCandidate(candidates[0], s.now, ReplyFor(x, candidates[0]).outcome);
      PresentIsQuiet(c, s, x, candidates[0]);
      if !Answered(e.outcome) {
        TryEachIsQuiet(c, Present(c, s, x, candidates[0]), x, candidates[1..], current);
      }
    }
  }

  lemma PresentIsQuiet(c: Config, s: State, x: ReloadInput, candidate: Token)
    requires SignalInv(c, s) && Searching(s.log)
    ensures var t := Present(c, s, x, candidate);
      && Searches(c, s, Tried(t, Answered(ReplyFor(x, candidate).outcome)))
      && (StaleSince(t.log) <==> ReplyFor(x, candidate).outcome.Lapsed?)
      && t.shared.token == candidate
  {
    var e := OfCandidate(candidate, s.now, ReplyFor(x, candidate).outcome);
    LogKeepsSignals(c, s, e);
    LogMovesSearch(s, e);
    AppendEvent(s.log, e);
    assert Present(c, s, x, candidate).log == s.log + [e];
  }

  lemma TryReloadIsQuiet(c: Config, s: State, x: ReloadInput)
    requires SignalInv(c, s) && Searching(s.log)
    ensures Searches(c, s, TryReload(c, s, x)) && StaleAsAnswered(x, TryReload(c, s, x))
  {
    GatherIsInvisible(c, s, x);
    var g := Gather(c, s, x);
    TryEachIsQuiet(c, g.s, x, g.candidates, s.shared.token);
  }

  lemma TryRecoverIsQuiet(c: Config, s: State, h: HookInput)
    requires SignalInv(c, s) && Searching(s.log)
    ensures Searches(c, s, TryRecover(c, s, h))
  {
    var worked := h.HookReturns? && h.token != "";
    var e := HookCalled(s.now, worked, s.episode);
    LogKeepsSignals(c, s, e);
    LogMovesSearch(s, e);
    AppendEvent(s.log, e);
  }

  lemma ReplaceTokenIsQuiet(c: Config, s: State, x: CycleInput)
    requires SignalInv(c, s) && Searching(s.log)
    ensures Searches(c, s, ReplaceToken(c, s, x))
  {
    TryReloadIsQuiet(c, SetFlux(s, true), x.reload);
    var r := TryReload(c, SetFlux(s, true), x.reload);
    if !r.ok {
      TryRecoverIsQuiet(c, r.s, x.hook);
    }
  }

  lemma ReloadInFluxIsQuiet(c: Config, s: State, x: ReloadInput)
    requires SignalInv(c, s) && Searching(s.log)
    ensures Searches(c, s, ReloadInFlux(c, s, x)) && StaleAsAnswered(x, ReloadInFlux(c, s, x))
  {
    TryReloadIsQuiet(c, SetFlux(s, true), x);
  }

  /** The state after Vault was asked about the held token. */
  function AfterAsking(s: State, x: CycleInput): State {
    Pass(Log(Probe(s, s.shared.token), OfCheck(s.shared.token, s.now, x.check)), x.checkTook)
  }

  lemma CheckShape(c: Config, s: State, x: CycleInput)
    ensures var t := CheckAndRenew(c, s, x).s;
      if s.shared.token == "" || Denied(s, s.shared.token) then t == Probe(s, s.shared.token)
      else if x.check == LookupRefused || x.check == Expired then t == Deny(c, AfterAsking(s, x), s.shared.token)
      else t == AfterAsking(s, x)
  {
  }

  lemma CheckIsQuiet(c: Config, s: State, x: CycleInput)
    requires SignalInv(c, s) && Searching(s.log)
    ensures Searches(c, s, Tried(CheckAndRenew(c, s, x).s, CheckAndRenew(c, s, x).verdict.Healthy?))
  {
    var token := s.shared.token;
    if token != "" && !Denied(s, token) {
      var e := OfCheck(token, s.now, x.check);
      LogKeepsSignals(c, s, e);
      LogMovesSearch(s, e);
      AppendEvent(s.log, e);
      CheckShape(c, s, x);
      assert CheckAndRenew(c, s, x).s.log == s.log + [e];
    }
  }

  lemma ClearKeepsSignals(c: Config, s: State)
    requires SignalInv(c, s) && Replaced(s.log)
    ensures SignalInv(c, ClearReauth(s)) && !ClearReauth(s).shared.needsReauth
    ensures Callbacks(ClearReauth(s).log) == Callbacks(s.log)
  {
    AppendEvent(s.log, Lowered);
  }

  lemma SignalKeepsSignals(c: Config, s: State, clears: bool)
    requires SignalInv(c, s)
    ensures SignalInv(c, SignalReauth(c, s, clears)) && SignalReauth(c, s, clears).shared.needsReauth
    ensures Callbacks(SignalReauth(c, s, clears).log) ==
      Callbacks(s.log) + if c.hasOnReauth && !s.shared.needsReauth then 1 else 0
  {
    if !s.shared.needsReauth {
      RaiseIsWellSignalled(c.hasOnReauth, s.log);
    }
  }

  lemma RaiseIsWellSignalled(callback: bool, log: seq<Event>)
    requires WellSignalled(callback, log) && Settled(callback, log) && !Flag(log)
    ensures WellSignalled(callback, log + [Raised]) && Flag(log + [Raised]) && Callbacks(log + [Raised]) == Callbacks(log)
    ensures callback ==>
      && WellSignalled(callback, log + [Raised] + [OnReauth]) && Flag(log + [Raised] + [OnReauth])
      && Callbacks(log + [Raised] + [OnReauth]) == Callbacks(log) + 1
  {
    AppendEvent(log, Raised);
    AppendEvent(log + [Raised], OnReauth);
  }

  /** What a piece of work from `s` to `t` signals. */
  ghost predicate SignalsRightly(c: Config, s: State, t: Tried) {
    && SignalInv(c, t.s)
    && (t.ok ==> !t.s.shared.needsReauth && Callbacks(t.s.log) == Callbacks(s.log))
    && (!t.ok ==>
          && (s.shared.needsReauth ==> t.s.shared.needsReauth)
          && Callbacks(t.s.log) == Callbacks(s.log)
               + if c.hasOnReauth && !s.shared.needsReauth && t.s.shared.needsReauth then 1 else 0)
  }

  lemma ReactSignals(c: Config, k: Checked, x: CycleInput, scheduled: bool)
    requires SignalInv(c, k.s) && (if k.verdict.Healthy? then Replaced(k.s.log) else Searching(k.s.log))
    ensures SignalsRightly(c, k.s, React(c, k, x, scheduled))
  {
    if k.verdict.Healthy? {
      ClearKeepsSignals(c, k.s);
    } else if Recovering(k) {
      ReplaceTokenIsQuiet(c, k.s, x);
      var r := ReplaceToken(c, k.s, x);
      if r.ok {
        ClearKeepsSignals(c, r.s);
      } else {
        SignalKeepsSignals(c, r.s, x.onReauthClears);
      }
    } else if k.verdict.RenewFailed? {
      ReloadInFluxIsQuiet(c, k.s, x.reload);
      var r := ReloadInFlux(c, k.s, x.reload);
      if r.ok {
        ClearKeepsSignals(c, r.s);
      }
    }
  }

  /** A cycle that ends with a token replaced or confirmed never fires OnReauth and
      leaves the flag down; one that does not fires it exactly when it raises the flag. */
  lemma CycleSignals(c: Config, s: State, x: CycleInput, scheduled: bool)
    requires SignalInv(c, s) && Searching(s.log)
    ensures SignalsRightly(c, s, Cycle(c, s, x, scheduled))
  {
    CheckIsQuiet(c, s, x);
    ReactSignals(c, CheckAndRenew(c, s, x), x, scheduled);
  }

  lemma {:induction false} StepKeepsSignals(c: Config, s: State, step: Step)
    requires SignalInv(c, s) && Enabled(s, step)
    ensures SignalInv(c, Do(c, s, step))
  {
    LogKeepsSignals(c, s, Began);
    match step {
      case Tick(x) => CycleSignals(c, Log(s, Began), x, true);
      case Reject(x) => CycleSignals(c, Log(s, Began).(nudged := false), x, false);
      case Reload(x) =>
        LogKeepsSignals(c, Log(s, Began).(cache := map[], record := map[]), DenylistCleared(s.now));
        var s2 := ClearDenials(Log(s, Began));
        ReloadInFluxIsQuiet(c, s2, x);
        var r := ReloadInFlux(c, s2, x);
        if r.ok {
          ClearKeepsSignals(c, r.s);
        }
      case _ =>
    }
  }

  lemma {:induction false} RunKeepsSignals(c: Config, s: State, steps: seq<Step>)
    requires SignalInv(c, s) && IsRun(c, s, steps)
    ensures SignalInv(c, Exec(c, s, steps))
    decreases |steps|
  {
    if steps != [] {
      StepKeepsSignals(c, s, steps[0]);
      RunKeepsSignals(c, Do(c, s, steps[0]), steps[1..]);
    }
  }

  function Rises(log: seq<Event>): nat {
    if log == [] then 0
    else Rises(log[..|log| - 1]) + if log[|log| - 1].Raised? then 1 else 0
  }

  function Falls(log: seq<Event>): nat {
    if log == [] then 0
    else Falls(log[..|log| - 1]) + if log[|log| - 1].Lowered? then 1 else 0
  }

  lemma {:induction false} SignalsAreCounted(callback: bool, log: seq<Event>)
    requires WellSignalled(callback, log)
    ensures Rises(log) == Falls(log) + if Flag(log) then 1 else 0
    ensures callback ==> Rises(log) == Callbacks(log) + if Settled(callback, log) then 0 else 1
    ensures !callback ==> Callbacks(log) == 0
  {
    if log != [] {
      SignalsAreCounted(callback, log[..|log| - 1]);
    }
  }

  /** One signal per episode: over any run the flag rises and falls in turn, and
      OnReauth fires exactly once for each rise. */
  lemma {:induction false} OneSignalPerEpisode(c: Config, start: State, steps: seq<Step>)
    requires Starts(c, start) && IsRun(c, start, steps)
    ensures var e := Exec(c, start, steps);
      && WellSignalled(c.hasOnReauth, e.log)
      && Rises(e.log) == Falls(e.log) + (if e.shared.needsReauth then 1 else 0)
      && Callbacks(e.log) == (if c.hasOnReauth then Rises(e.log) else 0)
  {
    RunKeepsSignals(c, start, steps);
    SignalsAreCounted(c.hasOnReauth, Exec(c, start, steps).log);
  }

  lemma {:induction false} FallsAreReplacements(callback: bool, log: seq<Event>, k: nat)
    requires WellSignalled(callback, log) && k < |log| && log[k].Lowered?
    ensures Replaced(log[..k])
  {
    if k < |log| - 1 {
      FallsAreReplacements(callback, log[..|log| - 1], k);
      assert log[..|log| - 1][..k] == log[..k];
    }
  }

  /** When the flag falls: over any run, a fall comes in a piece of work in which a
      lookup or the hook yielded a working token, if and only if the reload of that
      piece of work did not adopt an expired candidate. */
  lemma {:induction false} FallsAreEarnedExactly(c: Config, start: State, steps: seq<Step>, k: nat)
    requires Starts(c, start) && IsRun(c, start, steps)
    requires k < |Exec(c, start, steps).log| && Exec(c, start, steps).log[k].Lowered?
    ensures var before := Exec(c, start, steps).log[..k]; HealedSince(before) <==> !StaleSince(before)
  {
    RunKeepsSignals(c, start, steps);
    FallsAreReplacements(c.hasOnReauth, Exec(c, start, steps).log, k);
  }

  // -------------------------------------------------- an expired token adopted

  /** A reload that finds an expired token in the file, whose lookup Vault answers. */
  predicate OffersLapsed(c: Config, s: State, r: ReloadInput) {
    && c.hasFile && r.file != "" && r.file != s.shared.token
    && ReplyFor(r, r.file).outcome.Lapsed?
  }

  function BorrowDelay(c: Config, r: ReloadInput): nat {
    if c.hasBorrower then r.borrowTook else 0
  }

  /** Whatever else is going on, a reload nudge adopts such a token and lowers the flag. */
  lemma LapsedIsAdopted(c: Config, s: State, r: ReloadInput)
    requires OffersLapsed(c, s, r) && s.shared.needsReauth
    ensures var t := Do(c, s, Reload(r));
      && t.shared.token == r.file && !t.shared.needsReauth
      && t.log == s.log + [Began] + [DenylistCleared(s.now)] + [OfCandidate(r.file, s.now + BorrowDelay(c, r), Lapsed)] + [Lowered]
      && t.cache == map[] && t.due == t.now + c.checkInterval
  {
    var s2 := SetFlux(ClearDenials(Log(s, Began)), true);
    GatherPutsFileFirst(c, s2, r);
    var g := Gather(c, s2, r);
    assert TryReload(c, s2, r) == Tried(Present(c, g.s, r, r.file), true);
    assert Present(c, g.s, r, r.file).log == g.s.log + [OfCandidate(r.file, g.s.now, Lapsed)];
  }

  lemma GatherPutsFileFirst(c: Config, s: State, r: ReloadInput)
    requires OffersLapsed(c, s, r) && s.cache == map[]
    ensures var g := Gather(c, s, r);
      && g.candidates != [] && g.candidates[0] == r.file && g.s.cache == map[]
      && g.s.shared == s.shared && g.s.log == s.log && g.s.now == s.now + BorrowDelay(c, r)
  {
    assert D.Probed(map[], D.TokenKey(r.file), s.now) == map[];
  }

  /** No source offers anything but the token held, and the hook fails. */
  predicate NothingElse(held: Token, x: CycleInput) {
    && (x.reload.file == "" || x.reload.file == held) && x.reload.env == "" && x.reload.borrowed == ""
    && x.hook.HookFails?
  }

  lemma FailedCycleRaises(c: Config, s: State, x: CycleInput, scheduled: bool)
    requires CheckAndRenew(c, s, x).verdict.Rejected? && NothingElse(s.shared.token, x)
    ensures !Cycle(c, s, x, scheduled).ok && Cycle(c, s, x, scheduled).s.shared.needsReauth
  {
    var k := CheckAndRenew(c, s, x);
    var s1 := SetFlux(k.s, true);
    CheckIsInvisible(c, s, x);
    ReloadAdoptsTheBest(c, s1, x.reload);
    NothingIsBest(c, s1, x);
    assert !TryReload(c, s1, x.reload).ok;
    assert !ReplaceToken(c, k.s, x).ok;
  }

  lemma NothingIsBest(c: Config, s: State, x: CycleInput)
    requires NothingElse(s.shared.token, x)
    ensures Best(s, x.reload, Sources(c, s, x.reload)) == None
  {
    NoneAcceptable(s, x.reload, Sources(c, s, x.reload));
  }

  lemma {:induction false} NoneAcceptable(s: State, x: ReloadInput, offers: seq<Offered>)
    requires forall o :: o in offers ==> !Acceptable(s, x, o)
    ensures Best(s, x, offers) == None
  {
    if offers != [] {
      NoneAcceptable(s, x, offers[1..]);
    }
  }

  lemma LapsedLowers(c: Config, s: State, r: ReloadInput, t: State)
    requires SignalInv(c, s) && s.shared.needsReauth && OffersLapsed(c, s, r) && t == Do(c, s, Reload(r))
    ensures t.shared.token == r.file && !t.shared.needsReauth && t.due == t.now + c.checkInterval
    ensures t.cache == map[] && t.log != [] && t.log[|t.log| - 1].Lowered? && !HealedSince(t.log[..|t.log| - 1])
    ensures Callbacks(t.log) == Callbacks(s.log) && SignalInv(c, t)
  {
    LapsedIsAdopted(c, s, r);
    StepKeepsSignals(c, s, Reload(r));
    LapsedFallIsUnearned(s.log, DenylistCleared(s.now), OfCandidate(r.file, s.now + BorrowDelay(c, r), Lapsed));
  }

  lemma LapsedFallIsUnearned(log: seq<Event>, cleared: Event, lookup: Event)
    requires cleared.DenylistCleared? && lookup.Lookup? && !lookup.works
    ensures var all := log + [Began] + [cleared] + [lookup] + [Lowered];
      && !HealedSince(all[..|all| - 1]) && all[|all| - 1].Lowered?
      && Callbacks(all) == Callbacks(log)
  {
    var l1 := log + [Began];
    var l2 := l1 + [cleared];
    var l3 := l2 + [lookup];
    AppendEvent(log, Began);
    AppendEvent(l1, cleared);
    AppendEvent(l2, lookup);
    AppendEvent(l3, Lowered);
    assert !HealedSince(l1) && Callbacks(l1) == Callbacks(log);
    assert !HealedSince(l2) && Callbacks(l2) == Callbacks(l1);
    assert !HealedSince(l3) && Callbacks(l3) == Callbacks(l2);
  }

  lemma NextCheckRaises(c: Config, t: State, x: CycleInput)
    requires SignalInv(c, t) && !t.shared.needsReauth && t.now >= t.due
    requires t.shared.token == "" || (t.cache == map[] && x.check.Expired?)
    requires NothingElse(t.shared.token, x)
    ensures var v := Do(c, t, Tick(x));
      v.shared.needsReauth && Callbacks(v.log) == Callbacks(t.log) + if c.hasOnReauth then 1 else 0
  {
    var u := Log(t, Began);
    LogKeepsSignals(c, t, Began);
    AppendEvent(t.log, Began);
    assert CheckAndRenew(c, u, x).verdict.Rejected?;
    FailedCycleRaises(c, u, x, true);
    CycleSignals(c, u, x, true);
  }

  /** From any reachable state with the flag up: a nudge finds an expired token in the
      file and lowers the flag, with no working token found (`t`); the next scheduled
      check calls the same token expired, raises the flag and fires OnReauth again (`v`). */
  lemma {:induction false} ExpiredFileFlaps(c: Config, start: State, steps: seq<Step>, r: ReloadInput, x: CycleInput)
      returns (t: State, v: State)
    requires Starts(c, start) && IsRun(c, start, steps)
    requires Exec(c, start, steps).shared.needsReauth && OffersLapsed(c, Exec(c, start, steps), r)
    requires x.check.Expired? && NothingElse(r.file, x)
    ensures t == Do(c, Exec(c, start, steps), Reload(r))
    ensures !t.shared.needsReauth && t.shared.token == r.file
    ensures t.log != [] && t.log[|t.log| - 1].Lowered? && !HealedSince(t.log[..|t.log| - 1])
    ensures IsRun(c, t, [Elapse(c.checkInterval), Tick(x)]) && v == Exec(c, t, [Elapse(c.checkInterval), Tick(x)])
    ensures v.shared.needsReauth
    ensures Callbacks(v.log) == Callbacks(t.log) + if c.hasOnReauth then 1 else 0
  {
    var s := Exec(c, start, steps);
    RunKeepsSignals(c, start, steps);
    t := Do(c, s, Reload(r));
    LapsedLowers(c, s, r, t);
    NextCheckRaises(c, Pass(t, c.checkInterval), x);
    v := WaitAndCheck(c, t, x);
  }

  lemma WaitAndCheck(c: Config, t: State, x: CycleInput) returns (v: State)
    requires t.now + c.checkInterval >= t.due
    ensures IsRun(c, t, [Elapse(c.checkInterval), Tick(x)])
    ensures v == Exec(c, t, [Elapse(c.checkInterval), Tick(x)]) == Do(c, Pass(t, c.checkInterval), Tick(x))
  {
    var u := Pass(t, c.checkInterval);
    v := Do(c, u, Tick(x));
    RunOfOne(c, u, Tick(x));
    assert [Elapse(c.checkInterval), Tick(x)][1..] == [Tick(x)];
  }

  lemma RunOfOne(c: Config, s: State, step: Step)
    requires Enabled(s, step)
    ensures IsRun(c, s, [step]) && Exec(c, s, [step]) == Do(c, s, step)
  {
    var rest := [step][1..];
    assert rest == [];
    assert IsRun(c, Do(c, s, step), rest) && Exec(c, Do(c, s, step), rest) == Do(c, s, step);
  }

  /** Such a state is reached by a daemon that starts without a token and finds none. */
  lemma FlagGoesUp(c: Config, now: nat, x: CycleInput)
    requires NothingElse("", x)
    ensures var start := Started(c, now, "", map[], map[]);
      var steps := [Elapse(c.checkInterval), Tick(x)];
      && Starts(c, start) && IsRun(c, start, steps) && Exec(c, start, steps).shared.needsReauth
  {
    var start := Started(c, now, "", map[], map[]);
    var v := WaitAndCheck(c, start, x);
    NextCheckRaises(c, Pass(start, c.checkInterval), x);
  }
}
