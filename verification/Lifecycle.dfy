/** The token lifecycle manager (internal/auth/lifecycle.go) as functions on its
    state.  One call of a function is one pass of the source function of the same
    name; what Vault, the token file, the environment, a peer or the recovery hook
    answer, and how long they take, are inputs.  The state also records what other
    goroutines could see and what was asked of Vault. */
module Lifecycle {
  import opened Wrappers
  import D = TokenDenylist

  type Token = string

  datatype Config = Config(
    checkInterval: nat,
    recoveryInterval: nat,
    maxDelay: nat,
    hasFile: bool,            // tokenFilePath is set
    hasBorrower: bool,
    hasHook: bool,            // an unattended-recovery hook is registered
    hasOnReauth: bool,
    denyWindow: nat,
    pick: (D.Cache, nat) -> string)   // which of equally old denylist entries an overflow evicts

  ghost predicate ValidConfig(c: Config) {
    c.denyWindow > 0 && forall m, t :: m != map[] ==> D.IsOldest(m, c.pick(m, t))
  }

  const RECOVERY_POLL: nat := 10_000_000_000
  const MAX_DELAY: nat := 300_000_000_000

  /** NewLifecycleManager's intervals. */
  function NewConfig(checkInterval: nat, hasFile: bool, hasBorrower: bool, hasHook: bool, hasOnReauth: bool,
                     pick: (D.Cache, nat) -> string): (c: Config)
    ensures c.recoveryInterval <= c.checkInterval && c.recoveryInterval <= RECOVERY_POLL
    ensures c.recoveryInterval == c.checkInterval || c.recoveryInterval == RECOVERY_POLL
  {
    Config(checkInterval, if RECOVERY_POLL > checkInterval then checkInterval else RECOVERY_POLL, MAX_DELAY,
           hasFile, hasBorrower, hasHook, hasOnReauth, D.DENY_PROBE_INTERVAL, pick)
  }

  // ------------------------------------------------------------------- inputs

  /** A lookup's answer: a token in force, one that has expired, a 403, or no answer. */
  datatype Outcome = Accepted | Lapsed | Refused | Faulty

  /** The lookup returned no error, which is all that tryReload asks. */
  predicate Answered(outcome: Outcome) {
    outcome.Accepted? || outcome.Lapsed?
  }

  datatype Reply = Reply(outcome: Outcome, took: nat)

  /** What checkAndRenew learns about the token on the client. */
  datatype Check =
    | LookupRefused           // 403
    | LookupFaulty            // any other lookup error
    | Expired                 // lookup answered, with a past expire_time
    | Fine                    // lookup answered; nothing to renew, or renewed
    | RenewRefused            // lookup answered, the renewal got a 403
    | RenewFaulty             // lookup answered, the renewal failed otherwise

  datatype ReloadInput = ReloadInput(
    file: Token, env: Token, borrowed: Token, borrowTook: nat,
    replies: map<Token, Reply>)

  datatype HookInput =
    | HookFails(took: nat)
    | HookReturns(token: Token, took: nat)   // no error; the client now holds this token

  datatype CycleInput = CycleInput(
    check: Check, checkTook: nat, reload: ReloadInput, hook: HookInput,
    onReauthClears: bool)     // the OnReauth callback clears the token (web mode)

  // -------------------------------------------------------------------- state

  /** What a concurrent user of the client can observe.  `provisional` is true
      while the token is a reload candidate whose lookup Vault has not yet answered. */
  datatype Shared = Shared(token: Token, provisional: bool, needsReauth: bool, inFlux: bool)

  function NeedsReauth(v: Shared): bool {
    v.needsReauth || v.inFlux
  }

  /** Of a lookup, `works`: the token was found in order; `stale`: it was a reload
      candidate, adopted although expired. */
  datatype Event =
    | Began                                   // the loop took up a new piece of work
    | Lookup(token: Token, at: nat, outcome: Outcome, works: bool, stale: bool)
    | HookCalled(at: nat, worked: bool, after: seq<Attempt>)         // after: the episode's failed calls before it
    | DenylistCleared(when: nat)
    | Raised                                  // needsReauth went up
    | Lowered                                 // needsReauth went down
    | OnReauth

  /** One failed call of the recovery hook. */
  datatype Attempt = Attempt(called: nat, failed: nat)

  datatype State = State(
    now: nat,
    shared: Shared,
    cache: D.Cache,
    currentDelay: nat,
    recoverFailures: nat,
    nextRecoverAt: Option<nat>,
    due: nat,                 // when the timer fires
    nextTickAt: nat,          // the loop's own idea of it
    nudged: bool,             // rejectCh holds its one element
    // history
    views: seq<Shared>,       // every value `shared` has had
    log: seq<Event>,
    record: D.Record,         // denials since the denylist was last cleared
    rejected: set<string>,    // keys of the tokens ever denied
    episode: seq<Attempt>)    // hook failures since the last working token

  function OfCandidate(token: Token, at: nat, outcome: Outcome): Event {
    Lookup(token, at, outcome, outcome.Accepted?, outcome.Lapsed?)
  }

  function OfCheck(token: Token, at: nat, check: Check): Event {
    Lookup(token, at, LookupOutcome(check), check.Fine?, false)
  }

  function Publish(s: State, v: Shared): State {
    s.(shared := v, views := s.views + [v])
  }

  function SetToken(s: State, token: Token, provisional: bool): State {
    Publish(s, s.shared.(token := token, provisional := provisional))
  }

  function Log(s: State, e: Event): State {
    s.(log := s.log + [e])
  }

  function Pass(s: State, d: nat): State {
    s.(now := s.now + d)
  }

  // ----------------------------------------------------------------- denylist

  predicate Denied(s: State, token: Token) {
    token != "" && D.Suppressed(s.cache, D.TokenKey(token), s.now)
  }

  function Probe(s: State, token: Token): State {
    if token == "" then s else s.(cache := D.Probed(s.cache, D.TokenKey(token), s.now))
  }

  function Deny(c: Config, s: State, token: Token): State {
    if token == "" then s
    else
      var key := D.TokenKey(token);
      s.(cache := D.DeniedWith(s.cache, key, s.now, c.denyWindow, c.pick(s.cache, s.now)),
         record := s.record[key := s.now], rejected := s.rejected + {key})
  }

  // ------------------------------------------------------------------- reload

  /** addCandidate: what the list of candidates becomes when `token` is offered. */
  function Offer(s: State, candidates: seq<Token>, token: Token): seq<Token> {
    if token == "" || token == s.shared.token || Denied(s, token) || token in candidates
    then candidates
    else candidates + [token]
  }

  function AfterOffer(s: State, token: Token): State {
    if token == "" || token == s.shared.token then s else Probe(s, token)
  }

  datatype Gathered = Gathered(s: State, candidates: seq<Token>)

  function Gather(c: Config, s: State, x: ReloadInput): Gathered {
    var s1 := if c.hasFile then AfterOffer(s, x.file) else s;
    var l1 := if c.hasFile then Offer(s, [], x.file) else [];
    var s2 := AfterOffer(s1, x.env);
    var l2 := Offer(s1, l1, x.env);
    if !c.hasBorrower then Gathered(s2, l2)
    else
      var s3 := Pass(s2, x.borrowTook);
      Gathered(AfterOffer(s3, x.borrowed), Offer(s3, l2, x.borrowed))
  }

  function ReplyFor(x: ReloadInput, token: Token): Reply {
    if token in x.replies then x.replies[token] else Reply(Faulty, 0)
  }

  datatype Tried = Tried(s: State, ok: bool)

  /** Present one candidate to Vault. */
  function Present(c: Config, s: State, x: ReloadInput, candidate: Token): State {
    var r := ReplyFor(x, candidate);
    var asked := Pass(Log(SetToken(s, candidate, true), OfCandidate(candidate, s.now, r.outcome)), r.took);
    match r.outcome
    case Accepted | Lapsed => Publish(asked, asked.shared.(provisional := false))
    case Refused => Deny(c, asked, candidate)
    case Faulty => asked
  }

  function TryEach(c: Config, s: State, x: ReloadInput, candidates: seq<Token>, current: Token): Tried
    decreases |candidates|
  {
    if candidates == [] then Tried(SetToken(s, current, false), false)
    else
      var s1 := Present(c, s, x, candidates[0]);
      if Answered(ReplyFor(x, candidates[0]).outcome) then Tried(s1, true)
      else TryEach(c, s1, x, candidates[1..], current)
  }

  function TryReload(c: Config, s: State, x: ReloadInput): Tried {
    if !c.hasFile && !c.hasBorrower then Tried(s, false)
    else
      var g := Gather(c, s, x);
      if g.candidates == [] then Tried(g.s, false)
      else TryEach(c, g.s, x, g.candidates, s.shared.token)
  }

  // ----------------------------------------------------------------- recovery

  const INT64_MODULUS := 0x1_0000_0000_0000_0000

  /** A number as 64-bit two's complement keeps it. */
  function Wrap64(n: int): int {
    var x := n % INT64_MODULUS;
    if x >= INT64_MODULUS / 2 then x - INT64_MODULUS else x
  }

  /** A Duration shifted left. */
  function ShiftLeft64(d: int, shift: nat): int {
    Wrap64(d * Pow2(shift))
  }

  function Pow2(n: nat): (p: nat)
    ensures p > 0
  {
    if n == 0 then 1 else 2 * Pow2(n - 1)
  }

  function RecoverBackoff(c: Config, failures: nat): nat {
    if failures <= 1 then 0
    else
      var d := ShiftLeft64(c.recoveryInterval, if failures - 1 > 16 then 16 else failures - 1);
      if d <= 0 || d > c.maxDelay then c.maxDelay else d
  }

  function BackOffRecovery(c: Config, s: State, called: nat): State {
    var n := s.recoverFailures + 1;
    var d := RecoverBackoff(c, n);
    s.(recoverFailures := n,
       nextRecoverAt := if d > 0 then Some(s.now + d) else None,
       episode := s.episode + [Attempt(called, s.now)])
  }

  function ResetRecoveryBackoff(s: State): State {
    s.(recoverFailures := 0, nextRecoverAt := None, episode := [])
  }

  function TryRecover(c: Config, s: State, h: HookInput): Tried {
    if !c.hasHook || (s.nextRecoverAt.Some? && s.now < s.nextRecoverAt.value) then Tried(s, false)
    else
      match h
      case HookFails(took) =>
        Tried(BackOffRecovery(c, Pass(Log(s, HookCalled(s.now, false, s.episode)), took), s.now), false)
      case HookReturns(token, took) =>
        var s1 := SetToken(Pass(Log(s, HookCalled(s.now, token != "", s.episode)), took), token, false);
        if token == "" then Tried(BackOffRecovery(c, s1, s.now), false)
        else Tried(ResetRecoveryBackoff(s1), true)
  }

  // --------------------------------------------------------------- gate flags

  function SetFlux(s: State, on: bool): State {
    Publish(s, s.shared.(inFlux := on))
  }

  function SignalReauth(c: Config, s: State, clears: bool): State {
    if s.shared.needsReauth then s
    else
      var up := Log(Publish(s, s.shared.(needsReauth := true)), Raised);
      if !c.hasOnReauth then up
      else
        var called := Log(up, OnReauth);
        if clears then SetToken(called, "", false) else called
  }

  function ClearReauth(s: State): State {
    var down := Publish(s, s.shared.(needsReauth := false));
    ResetRecoveryBackoff(if s.shared.needsReauth then Log(down, Lowered) else down)
  }

  // -------------------------------------------------------------------- check

  /** How checkAndRenew's error is classified by the loop. */
  datatype Verdict =
    | Healthy
    | Rejected                // 403 (from the lookup or the renewal), expired, denied, no token
    | RenewFailed
    | Transient

  datatype Checked = Checked(s: State, verdict: Verdict)

  function LookupOutcome(check: Check): Outcome {
    match check
    case LookupRefused => Refused
    case LookupFaulty => Faulty
    case Expired => Lapsed
    case _ => Accepted
  }

  function CheckAndRenew(c: Config, s: State, x: CycleInput): Checked {
    var token := s.shared.token;
    if token == "" then Checked(s, Rejected)
    else
      var s1 := Probe(s, token);
      if Denied(s, token) then Checked(s1, Rejected)
      else
        var s2 := Pass(Log(s1, OfCheck(token, s1.now, x.check)), x.checkTook);
        match x.check
        case LookupRefused => Checked(Deny(c, s2, token), Rejected)
        case Expired => Checked(Deny(c, s2, token), Rejected)
        case LookupFaulty => Checked(s2, Transient)
        case Fine => Checked(s2, Healthy)
        case RenewRefused => Checked(s2, Rejected)
        case RenewFaulty => Checked(s2, RenewFailed)
  }

  // -------------------------------------------------------------------- cycle

  function BackoffFrom(c: Config, current: nat, scheduled: bool): nat {
    if !scheduled then current
    else if current * 2 > c.maxDelay then c.maxDelay else current * 2
  }

  /** Reset the timer. */
  function Arm(s: State, delay: nat): State {
    s.(due := s.now + delay)
  }

  function ArmedDelay(s: State, scheduled: bool, healthy: bool, deadline: nat): nat {
    if !scheduled && !healthy && deadline - s.now < s.currentDelay then
      if deadline - s.now < 0 then 0 else deadline - s.now
    else s.currentDelay
  }

  /** The paths that end with a working token: clear, drain, return to checkInterval. */
  function Heal(c: Config, s: State): State {
    ClearReauth(s).(currentDelay := c.checkInterval, nudged := false)
  }

  function ReplaceToken(c: Config, s: State, x: CycleInput): Tried {
    var r := TryReload(c, SetFlux(s, true), x.reload);
    var t := if r.ok then r else TryRecover(c, r.s, x.hook);
    Tried(SetFlux(t.s, false), t.ok)
  }

  function ReloadInFlux(c: Config, s: State, x: ReloadInput): Tried {
    var r := TryReload(c, SetFlux(s, true), x);
    Tried(SetFlux(r.s, false), r.ok)
  }

  /** Whether the loop answers a failed check by looking for another token. */
  predicate Recovering(k: Checked) {
    !k.verdict.Healthy? && (k.verdict.Rejected? || k.s.shared.needsReauth || k.s.shared.token == "")
  }

  /** How the loop reacts to a check; `ok` says it ended with a working token. */
  function React(c: Config, k: Checked, x: CycleInput, scheduled: bool): Tried {
    if k.verdict.Healthy? then Tried(Heal(c, k.s), true)
    else if Recovering(k) then
      var r := ReplaceToken(c, k.s, x);
      if r.ok then Tried(Heal(c, r.s), true)
      else Tried(SignalReauth(c, r.s, x.onReauthClears).(currentDelay := c.recoveryInterval), false)
    else if k.verdict.RenewFailed? then
      var r := ReloadInFlux(c, k.s, x.reload);
      if r.ok then Tried(Heal(c, r.s), true)
      else Tried(r.s.(currentDelay := BackoffFrom(c, r.s.currentDelay, scheduled)), false)
    else
      Tried(k.s.(currentDelay := BackoffFrom(c, k.s.currentDelay, scheduled)), false)
  }

  /** runCheckCycle before it arms the timer. */
  function Cycle(c: Config, s: State, x: CycleInput, scheduled: bool): Tried {
    React(c, CheckAndRenew(c, s, x), x, scheduled)
  }

  datatype Ran = Ran(s: State, armed: nat)

  function RunCheckCycle(c: Config, s: State, x: CycleInput, scheduled: bool, deadline: nat): Ran {
    var r := Cycle(c, s, x, scheduled);
    var delay := ArmedDelay(r.s, scheduled, r.ok, deadline);
    Ran(Arm(r.s, delay), delay)
  }

  // --------------------------------------------------------------------- loop

  function ClearDenials(s: State): State {
    Log(s.(cache := map[], record := map[]), DenylistCleared(s.now))
  }

  /** A reload nudge found a working token: back to the normal interval. */
  function Resume(c: Config, s: State): State {
    var s1 := ClearReauth(s);
    s1.(currentDelay := c.checkInterval, due := s1.now + c.checkInterval, nextTickAt := s1.now + c.checkInterval)
  }

  datatype Step =
    | Elapse(d: nat)
    | Report                            // NotifyRejected queued a nudge
    | Adopt(token: Token)               // a login elsewhere in the daemon installed a token
    | Tick(x: CycleInput)               // <-timer.C
    | Reject(x: CycleInput)             // <-rejectCh
    | Reload(r: ReloadInput)            // <-reloadCh

  predicate Enabled(s: State, step: Step) {
    match step
    case Tick(_) => s.now >= s.due
    case Reject(_) => s.nudged
    case _ => true
  }

  function Do(c: Config, s: State, step: Step): State
    requires Enabled(s, step)
  {
    match step
    case Elapse(d) => Pass(s, d)
    case Report => s.(nudged := true)
    case Adopt(token) => SetToken(s, token, false)
    case Tick(x) =>
      var r := RunCheckCycle(c, Log(s, Began), x, true, 0);
      r.s.(nextTickAt := s.now + r.armed)
    case Reject(x) =>
      var r := RunCheckCycle(c, Log(s, Began).(nudged := false), x, false, s.nextTickAt);
      r.s.(nextTickAt := s.now + r.armed)
    case Reload(x) =>
      var r := ReloadInFlux(c, ClearDenials(Log(s, Began)), x);
      if r.ok then Resume(c, r.s) else r.s
  }

  predicate IsRun(c: Config, s: State, steps: seq<Step>)
    decreases |steps|
  {
    steps == [] || (Enabled(s, steps[0]) && IsRun(c, Do(c, s, steps[0]), steps[1..]))
  }

  function Exec(c: Config, s: State, steps: seq<Step>): State
    requires IsRun(c, s, steps)
    decreases |steps|
  {
    if steps == [] then s else Exec(c, Do(c, s, steps[0]), steps[1..])
  }

  /** Start: the timer is armed for the check interval and nothing has happened.  The
      denylist may be one that start-up has been filling. */
  function Started(c: Config, now: nat, token: Token, cache: D.Cache, record: D.Record): State {
    var v := Shared(token, false, false, false);
    State(now, v, cache, c.checkInterval, 0, None, now + c.checkInterval, now + c.checkInterval, false,
          [v], [], record, record.Keys, [])
  }

  predicate Starts(c: Config, s: State) {
    s == Started(c, s.now, s.shared.token, s.cache, s.record)
  }
}
