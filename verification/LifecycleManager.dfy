/** The lifecycle manager in the form the source gives it: an object whose methods
    update its fields.  Each method is proved to take the object from one state of
    the Lifecycle model to the next, so what is proved there of every run holds of
    every sequence of calls here. */
module LifecycleManagement {
  import opened Wrappers
  import opened Lifecycle
  import D = TokenDenylist

  class LifecycleManager {
    const c: Config

    // the shared client's token and the two gate flags
    var token: Token
    var needsReauth: bool
    var tokenInFlux: bool

    var denied: D.Cache
    var currentDelay: nat
    var recoverFailures: nat
    var nextRecoverAt: Option<nat>

    // the loop: the clock, the timer and its tracking variable, rejectCh
    var now: nat
    var due: nat
    var nextTickAt: nat
    var nudged: bool

    ghost var provisional: bool
    ghost var views: seq<Shared>
    ghost var log: seq<Event>
    ghost var record: D.Record
    ghost var rejected: set<string>
    ghost var episode: seq<Attempt>

    ghost function Snapshot(): State
      reads this
    {
      State(now, Shared(token, provisional, needsReauth, tokenInFlux), denied, currentDelay,
            recoverFailures, nextRecoverAt, due, nextTickAt, nudged,
            views, log, record, rejected, episode)
    }

    constructor (c: Config, now: nat, token: Token, handed: D.Cache, ghost past: D.Record)
      ensures this.c == c && Snapshot() == Started(c, now, token, handed, past)
    {
      this.c := c;
      this.now, this.token, needsReauth, tokenInFlux := now, token, false, false;
      denied, currentDelay, recoverFailures, nextRecoverAt := handed, c.checkInterval, 0, None;
      due, nextTickAt, nudged := now + c.checkInterval, now + c.checkInterval, false;
      provisional, views := false, [Shared(token, false, false, false)];
      log, record, rejected, episode := [], past, past.Keys, [];
    }

    // ------------------------------------------------------------- primitives

    method Wait(d: nat)
      modifies this`now
      ensures Snapshot() == Pass(old(Snapshot()), d)
    {
      now := now + d;
    }

    ghost method Note(e: Event)
      modifies this`log
      ensures Snapshot() == Log(old(Snapshot()), e)
    {
      log := log + [e];
    }

    ghost method See()
      modifies this`views
      ensures Snapshot() == Publish(old(Snapshot()), old(Snapshot()).shared)
    {
      views := views + [Shared(token, provisional, needsReauth, tokenInFlux)];
    }

    method InstallToken(tok: Token, ghost unproven: bool)
      modifies this`token, this`provisional, this`views
      ensures Snapshot() == SetToken(old(Snapshot()), tok, unproven)
    {
      token, provisional := tok, unproven;
      See();
    }

    method SetInFlux(on: bool)
      modifies this`tokenInFlux, this`views
      ensures Snapshot() == SetFlux(old(Snapshot()), on)
    {
      tokenInFlux := on;
      See();
    }

    method IsDenied(tok: Token) returns (suppressed: bool)
      modifies this`denied
      ensures suppressed == Denied(old(Snapshot()), tok)
      ensures Snapshot() == Probe(old(Snapshot()), tok)
    {
      if tok == "" {
        return false;
      }
      var key := D.TokenKey(tok);
      suppressed := key in denied && now < denied[key];
      if key in denied && !suppressed {
        denied := denied - {key};
      }
    }

    method NoteRejection(tok: Token)
      modifies this`denied, this`record, this`rejected
      ensures Snapshot() == Deny(c, old(Snapshot()), tok)
    {
      if tok != "" {
        var key := D.TokenKey(tok);
        if key !in denied && |denied| >= D.MAX_DENIED {
          denied := denied - {c.pick(denied, now)};
        }
        denied := denied[key := now + c.denyWindow];
        record, rejected := record[key := now], rejected + {key};
      }
    }

    // ----------------------------------------------------------------- reload

    method AddCandidate(candidates: seq<Token>, tok: Token) returns (more: seq<Token>)
      modifies this`denied
      ensures more == Offer(old(Snapshot()), candidates, tok)
      ensures Snapshot() == AfterOffer(old(Snapshot()), tok)
    {
      if tok == "" || tok == token {
        return candidates;
      }
      var suppressed := IsDenied(tok);
      if suppressed {
        return candidates;
      }
      for i := 0 to |candidates|
        invariant tok !in candidates[..i]
      {
        if candidates[i] == tok {
          return candidates;
        }
      }
      assert candidates[..|candidates|] == candidates;
      return candidates + [tok];
    }

    method GatherCandidates(x: ReloadInput) returns (candidates: seq<Token>)
      modifies this`denied, this`now
      ensures Gathered(Snapshot(), candidates) == Gather(c, old(Snapshot()), x)
    {
      candidates := [];
      if c.hasFile {
        candidates := AddCandidate(candidates, x.file);
      }
      candidates := AddCandidate(candidates, x.env);
      if c.hasBorrower {
        Wait(x.borrowTook);
        candidates := AddCandidate(candidates, x.borrowed);
      }
    }

    /** Install one candidate and ask Vault about it. */
    method PresentCandidate(x: ReloadInput, candidate: Token) returns (ok: bool)
      modifies this
      ensures Snapshot() == Present(c, old(Snapshot()), x, candidate)
      ensures ok == Answered(ReplyFor(x, candidate).outcome)
    {
      var r := ReplyFor(x, candidate);
      InstallToken(candidate, true);
      Note(OfCandidate(candidate, now, r.outcome));
      Wait(r.took);
      match r.outcome {
        case Accepted | Lapsed =>
          provisional := false;
          See();
          return true;
        case Refused => NoteRejection(candidate);
        case Faulty =>
      }
      return false;
    }

    method TryReloadToken(x: ReloadInput) returns (ok: bool)
      modifies this
      ensures Tried(Snapshot(), ok) == TryReload(c, old(Snapshot()), x)
    {
      if !c.hasFile && !c.hasBorrower {
        return false;
      }
      var current := token;
      var candidates := GatherCandidates(x);
      if |candidates| == 0 {
        return false;
      }
      ghost var gathered := Snapshot();
      for i := 0 to |candidates|
        invariant TryEach(c, gathered, x, candidates, current) == TryEach(c, Snapshot(), x, candidates[i..], current)
      {
        assert candidates[i..][0] == candidates[i] && candidates[i..][1..] == candidates[i + 1..];
        var accepted := PresentCandidate(x, candidates[i]);
        if accepted {
          return true;
        }
      }
      InstallToken(current, false);
      return false;
    }

    // --------------------------------------------------------------- recovery

    method BackOff(ghost called: nat)
      modifies this`recoverFailures, this`nextRecoverAt, this`episode
      ensures Snapshot() == BackOffRecovery(c, old(Snapshot()), called)
    {
      recoverFailures := recoverFailures + 1;
      var d := RecoverBackoff(c, recoverFailures);
      if d > 0 {
        nextRecoverAt := Some(now + d);
      } else {
        nextRecoverAt := None;
      }
      episode := episode + [Attempt(called, now)];
    }

    method ResetBackoff()
      modifies this`recoverFailures, this`nextRecoverAt, this`episode
      ensures Snapshot() == ResetRecoveryBackoff(old(Snapshot()))
    {
      recoverFailures, nextRecoverAt, episode := 0, None, [];
    }

    method TryRecoverToken(h: HookInput) returns (ok: bool)
      modifies this
      ensures Tried(Snapshot(), ok) == TryRecover(c, old(Snapshot()), h)
    {
      if !c.hasHook {
        return false;
      }
      if nextRecoverAt.Some? && now < nextRecoverAt.value {
        return false;
      }
      ghost var called := now;
      match h {
        case HookFails(took) =>
          Note(HookCalled(now, false, episode));
          Wait(took);
          BackOff(called);
          return false;
        case HookReturns(minted, took) =>
          Note(HookCalled(now, minted != "", episode));
          Wait(took);
          InstallToken(minted, false);
          if token == "" {
            BackOff(called);
            return false;
          }
          ResetBackoff();
          return true;
      }
    }

    // ---------------------------------------------------------------- signals

    method Signal(clears: bool)
      modifies this
      ensures Snapshot() == SignalReauth(c, old(Snapshot()), clears)
    {
      if needsReauth {
        return;
      }
      needsReauth := true;
      See();
      Note(Raised);
      if c.hasOnReauth {
        Note(OnReauth);
        if clears {
          InstallToken("", false);
        }
      }
    }

    method ClearSignal()
      modifies this
      ensures Snapshot() == ClearReauth(old(Snapshot()))
    {
      ghost var was := needsReauth;
      needsReauth := false;
      See();
      if was {
        Note(Lowered);
      }
      ResetBackoff();
    }

    method ReturnToHealth()
      modifies this
      ensures Snapshot() == Heal(c, old(Snapshot()))
    {
      ClearSignal();
      currentDelay := c.checkInterval;
      nudged := false;
    }

    // ------------------------------------------------------------------ cycle

    method Check(x: CycleInput) returns (verdict: Verdict)
      modifies this
      ensures Checked(Snapshot(), verdict) == CheckAndRenew(c, old(Snapshot()), x)
    {
      var tok := token;
      if tok == "" {
        return Rejected;
      }
      var suppressed := IsDenied(tok);
      if suppressed {
        return Rejected;
      }
      Note(OfCheck(tok, now, x.check));
      Wait(x.checkTook);
      match x.check {
        case LookupRefused => NoteRejection(tok); return Rejected;
        case Expired => NoteRejection(tok); return Rejected;
        case LookupFaulty => return Transient;
        case Fine => return Healthy;
        case RenewRefused => return Rejected;
        case RenewFaulty => return RenewFailed;
      }
    }

    method Replace(x: CycleInput) returns (ok: bool)
      modifies this
      ensures Tried(Snapshot(), ok) == ReplaceToken(c, old(Snapshot()), x)
    {
      SetInFlux(true);
      ok := TryReloadToken(x.reload);
      if !ok {
        ok := TryRecoverToken(x.hook);
      }
      SetInFlux(false);
    }

    method ReloadOnly(x: ReloadInput) returns (ok: bool)
      modifies this
      ensures Tried(Snapshot(), ok) == ReloadInFlux(c, old(Snapshot()), x)
    {
      SetInFlux(true);
      ok := TryReloadToken(x);
      SetInFlux(false);
    }

    method ReactTo(verdict: Verdict, x: CycleInput, scheduled: bool) returns (healthy: bool)
      modifies this
      ensures Tried(Snapshot(), healthy) == React(c, Checked(old(Snapshot()), verdict), x, scheduled)
    {
      if verdict.Healthy? {
        ReturnToHealth();
        return true;
      }
      if verdict.Rejected? || needsReauth || token == "" {
        var ok := Replace(x);
        if ok {
          ReturnToHealth();
          return true;
        }
        Signal(x.onReauthClears);
        currentDelay := c.recoveryInterval;
        return false;
      }
      if verdict.RenewFailed? {
        var ok := ReloadOnly(x.reload);
        if ok {
          ReturnToHealth();
          return true;
        }
      }
      currentDelay := BackoffFrom(c, currentDelay, scheduled);
      return false;
    }

    method ArmAfterCycle(scheduled: bool, healthy: bool, deadline: nat) returns (armed: nat)
      modifies this`due
      ensures armed == ArmedDelay(old(Snapshot()), scheduled, healthy, deadline)
      ensures Snapshot() == Arm(old(Snapshot()), armed)
    {
      if !scheduled && !healthy {
        var remaining := deadline - now;
        if remaining < currentDelay {
          if remaining < 0 {
            remaining := 0;
          }
          due := now + remaining;
          return remaining;
        }
      }
      due := now + currentDelay;
      return currentDelay;
    }

    method RunCycle(x: CycleInput, scheduled: bool, deadline: nat) returns (armed: nat)
      modifies this
      ensures Ran(Snapshot(), armed) == RunCheckCycle(c, old(Snapshot()), x, scheduled, deadline)
    {
      var verdict := Check(x);
      var healthy := ReactTo(verdict, x, scheduled);
      armed := ArmAfterCycle(scheduled, healthy, deadline);
    }

    // ------------------------------------------------------------------- loop

    /** <-timer.C */
    method OnTick(x: CycleInput)
      requires Enabled(Snapshot(), Tick(x))
      modifies this
      ensures Snapshot() == Do(c, old(Snapshot()), Tick(x))
    {
      var before := now;
      Note(Began);
      var armed := RunCycle(x, true, 0);
      nextTickAt := before + armed;
    }

    /** <-rejectCh */
    method OnReject(x: CycleInput)
      requires Enabled(Snapshot(), Reject(x))
      modifies this
      ensures Snapshot() == Do(c, old(Snapshot()), Reject(x))
    {
      var before := now;
      Note(Began);
      nudged := false;
      var armed := RunCycle(x, false, nextTickAt);
      nextTickAt := before + armed;
    }

    method ClearDenylist()
      modifies this`denied, this`record, this`log
      ensures Snapshot() == ClearDenials(old(Snapshot()))
    {
      denied, record := map[], map[];
      Note(DenylistCleared(now));
    }

    method ResumeInterval()
      modifies this
      ensures Snapshot() == Resume(c, old(Snapshot()))
    {
      ClearSignal();
      currentDelay := c.checkInterval;
      due := now + currentDelay;
      nextTickAt := now + currentDelay;
    }

    /** <-reloadCh */
    method OnReload(x: ReloadInput)
      modifies this
      ensures Snapshot() == Do(c, old(Snapshot()), Reload(x))
    {
      Note(Began);
      ClearDenylist();
      var ok := ReloadOnly(x);
      if ok {
        ResumeInterval();
      }
    }
  }
}
