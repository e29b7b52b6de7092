/** Any number of patches racing on one secret (cmd/dotvault/kv.go), each read and
    each check-and-set write a step of its own, among other writers who put and
    delete it: the secret is always what the accepted writes, one after the other,
    make of it, and every patch among them is one that its client was entitled to. */
module KvRace {
  import opened Wrappers
  import opened KvPatch

  /** One accepted write; a patch's names the client, and how many writes had been
      accepted when it read. */
  datatype Commit = Commit(action: Action, patch: Option<Patching>)
  datatype Patching = Patching(client: nat, read: nat)

  /** What a client has read and not yet acted on. */
  datatype Held = Held(read: nat, seen: Store)

  datatype State = State(
    store: Store,
    held: map<nat, Held>,
    tries: map<nat, nat>,         // writes sent by each client
    ended: map<nat, Result>,      // what each client reported in the end
    log: seq<Commit>)

  datatype Step =
    | Read(client: nat)
    | ReadFails(client: nat)
    | Conclude(client: nat, fault: Fault)   // the rest of the attempt, write included
    | Other(action: Action)

  function Tries(s: State, client: nat): nat {
    if client in s.tries then s.tries[client] else 0
  }

  predicate Enabled(s: State, step: Step) {
    match step
    case Read(c) => c !in s.held && c !in s.ended
    case ReadFails(c) => c !in s.held && c !in s.ended
    case Conclude(c, _) => c in s.held
    case Other(_) => true
  }

  function Finished(s: State, c: nat, r: Result): State {
    var n := Tries(s, c) + if Wrote(r) then 1 else 0;
    s.(held := s.held - {c}, tries := s.tries[c := n],
       ended := if r == Error(Conflict) && n < CAS_ATTEMPTS then s.ended else s.ended[c := r])
  }

  function Do(s: State, reqs: nat -> Request, step: Step): State
    requires Enabled(s, step)
  {
    match step
    case Read(c) => s.(held := s.held[c := Held(|s.log|, s.store)])
    case ReadFails(c) => s.(ended := s.ended[c := Error(ReadFailed)])
    case Conclude(c, fault) =>
      var h := s.held[c];
      var s' := Finished(s, c, Attempt(h.seen, s.store, reqs(c), false, fault));
      if Lands(h.seen, s.store, reqs(c), false, fault) then
        s'.(store := Left(h.seen, s.store, reqs(c), false, fault),
            log := s.log + [Commit(Put(Merged(h.seen.secret.data, reqs(c))), Some(Patching(c, h.read)))])
      else s'
    case Other(a) => s.(store := Act(s.store, a), log := s.log + [Commit(a, None)])
  }

  ghost predicate Moves(s: State, reqs: nat -> Request, step: Step, s': State) {
    Enabled(s, step) && s' == Do(s, reqs, step)
  }

  ghost predicate Runs(s: State, reqs: nat -> Request, steps: seq<Step>, s': State) {
    if steps == [] then s' == s
    else
      var before, step := steps[..|steps| - 1], steps[|steps| - 1];
      exists m :: Runs(s, reqs, before, m) && Moves(m, reqs, step, s')
  }

  ghost predicate Starts(s: State) {
    s.held == map[] && s.tries == map[] && s.ended == map[] && s.log == []
  }

  // --------------------------------------------------------------- the history

  function Actions(log: seq<Commit>): (actions: seq<Action>)
    ensures |actions| == |log| && forall i :: 0 <= i < |log| ==> actions[i] == log[i].action
  {
    seq(|log|, i requires 0 <= i < |log| => log[i].action)
  }

  /** The secret after the first `n` accepted writes. */
  function StoreAfter(s0: Store, log: seq<Commit>, n: nat): Store
    requires n <= |log|
  {
    Others(s0, Actions(log)[..n])
  }

  ghost predicate IsPast(s0: Store, log: seq<Commit>, h: Held) {
    h.read <= |log| && h.seen == StoreAfter(s0, log, h.read)
  }

  /** No deletion came between the patch's read and its write. */
  predicate Undisturbed(log: seq<Commit>, i: nat)
    requires i < |log| && log[i].patch.Some?
  {
    forall k :: log[i].patch.value.read <= k < i ==> !Deletes(log[k].action)
  }

  /** The i-th accepted write, if a patch, is its request applied to the version it
      read, and that is the version it replaced. */
  ghost predicate Entitled(s0: Store, reqs: nat -> Request, log: seq<Commit>, i: nat)
    requires i < |log|
  {
    log[i].patch.Some? ==>
      var p := log[i].patch.value;
      && p.read <= i
      && var read := StoreAfter(s0, log, p.read);
      && read.secret.Live? && !reqs(p.client).dryRun
      && StoreAfter(s0, log, i).Version() == read.secret.version
      && log[i].action == Put(Merged(read.secret.data, reqs(p.client)))
  }

  ghost predicate Replayed(s0: Store, reqs: nat -> Request, s: State) {
    && s.store == StoreAfter(s0, s.log, |s.log|)
    && (forall c :: c in s.held ==> IsPast(s0, s.log, s.held[c]))
    && forall i :: 0 <= i < |s.log| ==> Entitled(s0, reqs, s.log, i)
  }

  lemma Appended(s0: Store, log: seq<Commit>, c: Commit)
    ensures forall n :: 0 <= n <= |log| ==> StoreAfter(s0, log + [c], n) == StoreAfter(s0, log, n)
    ensures StoreAfter(s0, log + [c], |log| + 1) == Act(StoreAfter(s0, log, |log|), c.action)
  {
    var before, after := Actions(log), Actions(log + [c]);
    assert after == before + [c.action];
    forall n | 0 <= n <= |log| ensures after[..n] == before[..n] {
    }
    assert after[..|log| + 1] == after && after[..|after| - 1] == before[..|log|];
  }

  /** One more accepted write, and no more clients holding what they read. */
  lemma CommitIsReplayed(s0: Store, reqs: nat -> Request, s: State, s': State, c: Commit)
    requires Replayed(s0, reqs, s)
    requires s'.log == s.log + [c] && s'.store == Act(s.store, c.action)
    requires forall k :: k in s'.held ==> k in s.held && s'.held[k] == s.held[k]
    requires Entitled(s0, reqs, s'.log, |s.log|)
    ensures Replayed(s0, reqs, s')
  {
    Appended(s0, s.log, c);
    forall k | k in s'.held ensures IsPast(s0, s'.log, s'.held[k]) {
      assert IsPast(s0, s.log, s.held[k]);
    }
    forall i | 0 <= i < |s'.log| ensures Entitled(s0, reqs, s'.log, i) {
      if i < |s.log| {
        assert Entitled(s0, reqs, s.log, i) && s'.log[i] == s.log[i];
      }
    }
  }

  lemma StepIsReplayed(s0: Store, reqs: nat -> Request, s: State, step: Step)
    requires Replayed(s0, reqs, s) && Enabled(s, step)
    ensures Replayed(s0, reqs, Do(s, reqs, step))
  {
    match step
    case Read(c) =>
    case ReadFails(c) =>
    case Conclude(c, fault) =>
      if Lands(s.held[c].seen, s.store, reqs(c), false, fault) {
        LandedIsReplayed(s0, reqs, s, c, fault);
      }
    case Other(a) => CommitIsReplayed(s0, reqs, s, Do(s, reqs, step), Commit(a, None));
  }

  lemma LandedIsReplayed(s0: Store, reqs: nat -> Request, s: State, c: nat, fault: Fault)
    requires Replayed(s0, reqs, s) && c in s.held
    requires Lands(s.held[c].seen, s.store, reqs(c), false, fault)
    ensures Replayed(s0, reqs, Do(s, reqs, Conclude(c, fault)))
  {
    var h := s.held[c];
    var commit := Commit(Put(Merged(h.seen.secret.data, reqs(c))), Some(Patching(c, h.read)));
    LandedIsAPut(h.seen, s.store, reqs(c), fault);
    LandedIsEntitled(s0, reqs, s, c, fault);
    CommitIsReplayed(s0, reqs, s, Do(s, reqs, Conclude(c, fault)), commit);
  }

  lemma LandedIsAPut(read: Store, write: Store, req: Request, fault: Fault)
    requires Lands(read, write, req, false, fault)
    ensures read.secret.Live? && !req.dryRun && write.Version() == read.secret.version
    ensures Left(read, write, req, false, fault) == Act(write, Put(Merged(read.secret.data, req)))
  {
  }

  lemma LandedIsEntitled(s0: Store, reqs: nat -> Request, s: State, c: nat, fault: Fault)
    requires Replayed(s0, reqs, s) && c in s.held
    requires Lands(s.held[c].seen, s.store, reqs(c), false, fault)
    ensures var h := s.held[c];
      Entitled(s0, reqs, s.log + [Commit(Put(Merged(h.seen.secret.data, reqs(c))), Some(Patching(c, h.read)))], |s.log|)
  {
    var h := s.held[c];
    assert IsPast(s0, s.log, h);
    LandedIsAPut(h.seen, s.store, reqs(c), fault);
    Appended(s0, s.log, Commit(Put(Merged(h.seen.secret.data, reqs(c))), Some(Patching(c, h.read))));
  }

  // ---------------------------------------------------------------- the clients

  predicate OnceEach(log: seq<Commit>) {
    forall i, j :: 0 <= i < j < |log| && log[i].patch.Some? && log[j].patch.Some? ==>
      log[i].patch.value.client != log[j].patch.value.client
  }

  predicate Committed(log: seq<Commit>, client: nat) {
    exists i :: 0 <= i < |log| && log[i].patch.Some? && log[i].patch.value.client == client
  }

  /** Success is reported for an accepted write only; an accepted write is reported as
      a success, or as a failure if its reply was lost. */
  ghost predicate Fair(s: State) {
    && (forall c :: c in s.held ==> Tries(s, c) < CAS_ATTEMPTS && c !in s.ended)
    && (forall c: nat :: c !in s.ended ==> Tries(s, c) < CAS_ATTEMPTS && !Committed(s.log, c))
    && (forall c: nat :: Tries(s, c) <= CAS_ATTEMPTS)
    && (forall c :: c in s.ended && s.ended[c] == Patched ==> Committed(s.log, c))
    && (forall c :: c in s.ended && Committed(s.log, c) ==> s.ended[c] == Patched || s.ended[c] == Error(WriteFailed))
    && OnceEach(s.log)
  }

  lemma CommittedAppend(log: seq<Commit>, c: Commit)
    ensures forall k :: Committed(log + [c], k) <==> Committed(log, k) || (c.patch.Some? && c.patch.value.client == k)
    ensures OnceEach(log) && (c.patch.Some? ==> !Committed(log, c.patch.value.client)) ==> OnceEach(log + [c])
  {
    var all := log + [c];
    assert all[|log|] == c && forall i :: 0 <= i < |log| ==> all[i] == log[i];
    forall k | Committed(log, k) ensures Committed(all, k) {
      var i :| 0 <= i < |log| && log[i].patch.Some? && log[i].patch.value.client == k;
      assert all[i] == log[i];
    }
  }

  lemma StepIsFair(reqs: nat -> Request, s: State, step: Step)
    requires Fair(s) && Enabled(s, step)
    ensures Fair(Do(s, reqs, step))
  {
    match step
    case Read(c) =>
    case ReadFails(c) =>
      assert forall k: nat :: Tries(Do(s, reqs, step), k) == Tries(s, k);
    case Conclude(c, fault) => ConcludeIsFair(reqs, s, c, fault);
    case Other(a) =>
      assert forall k: nat :: Tries(Do(s, reqs, step), k) == Tries(s, k);
      CommittedAppend(s.log, Commit(a, None));
  }

  lemma ConcludeIsFair(reqs: nat -> Request, s: State, c: nat, fault: Fault)
    requires Fair(s) && c in s.held
    ensures Fair(Do(s, reqs, Conclude(c, fault)))
  {
    var h := s.held[c];
    var r := Attempt(h.seen, s.store, reqs(c), false, fault);
    var s' := Do(s, reqs, Conclude(c, fault));
    assert forall k: nat :: k != c ==> Tries(s', k) == Tries(s, k);
    if Lands(h.seen, s.store, reqs(c), false, fault) {
      CommittedAppend(s.log, Commit(Put(Merged(h.seen.secret.data, reqs(c))), Some(Patching(c, h.read))));
      assert s'.ended == s.ended[c := r];
    } else {
      assert s'.log == s.log && r != Patched;
    }
  }

  // -------------------------------------------------------------- the theorems

  /** However patches, puts and deletions interleave, and whatever writes are refused
      or lose their reply: the secret is its first contents with every accepted write
      applied in order; each client has at most one accepted in at most three sent, and
      reports success only then; each accepted patch is its request applied to the
      version it replaced. */
  lemma {:induction false} EveryCommitCounts(s0: State, reqs: nat -> Request, steps: seq<Step>, s: State)
    requires Starts(s0) && Runs(s0, reqs, steps, s)
    ensures Replayed(s0.store, reqs, s) && Fair(s)
    ensures forall c: nat :: Tries(s, c) <= 3
  {
    if steps != [] {
      var before, step := steps[..|steps| - 1], steps[|steps| - 1];
      var m :| Runs(s0, reqs, before, m) && Moves(m, reqs, step, s);
      EveryCommitCounts(s0, reqs, before, m);
      StepIsReplayed(s0.store, reqs, m, step);
      StepIsFair(reqs, m, step);
    }
  }

  lemma {:induction false} OthersSplit(s: Store, a: seq<Action>, b: seq<Action>)
    ensures Others(s, a + b) == Others(Others(s, a), b)
  {
    if b == [] {
      assert a + b == a;
    } else {
      assert (a + b)[..|a + b| - 1] == a + b[..|b| - 1];
      OthersSplit(s, a, b[..|b| - 1]);
    }
  }

  /** An accepted patch replaced exactly the secret it read, its life included, if and
      only if no deletion was accepted between the two. */
  lemma PatchedInPlaceExactly(s0: State, reqs: nat -> Request, steps: seq<Step>, s: State, i: nat)
    requires Starts(s0) && Runs(s0, reqs, steps, s)
    requires i < |s.log| && s.log[i].patch.Some?
    ensures s.log[i].patch.value.read <= i
    ensures StoreAfter(s0.store, s.log, i) == StoreAfter(s0.store, s.log, s.log[i].patch.value.read)
       <==> Undisturbed(s.log, i)
  {
    EveryCommitCounts(s0, reqs, steps, s);
    GapDecides(s0.store, reqs, s.log, i);
  }

  lemma GapDecides(s0: Store, reqs: nat -> Request, log: seq<Commit>, i: nat)
    requires i < |log| && log[i].patch.Some? && Entitled(s0, reqs, log, i)
    ensures StoreAfter(s0, log, i) == StoreAfter(s0, log, log[i].patch.value.read) <==> Undisturbed(log, i)
  {
    var read, actions := log[i].patch.value.read, Actions(log);
    var gap := actions[read..i];
    assert actions[..read] + gap == actions[..i];
    OthersSplit(s0, actions[..read], gap);
    CheckedExactly(StoreAfter(s0, log, read), gap);
    GapDeletes(log, i, gap);
  }

  lemma GapDeletes(log: seq<Commit>, i: nat, gap: seq<Action>)
    requires i < |log| && log[i].patch.Some? && log[i].patch.value.read <= i
    requires gap == Actions(log)[log[i].patch.value.read..i]
    ensures Undisturbed(log, i) <==> forall k :: 0 <= k < |gap| ==> !Deletes(gap[k])
  {
    var read := log[i].patch.value.read;
    assert forall k :: 0 <= k < |gap| ==> gap[k] == log[read + k].action;
    assert forall k :: read <= k < i ==> log[k].action == gap[k - read];
  }

  predicate Touches(reqs: nat -> Request, c: Commit, f: Field) {
    c.patch.None? || f in reqs(c.patch.value.client).assign || f in reqs(c.patch.value.client).remove
  }

  /** From the i-th accepted write on, nobody but patches that disturb neither each
      other nor the field. */
  ghost predicate LeftAlone(reqs: nat -> Request, log: seq<Commit>, i: nat, f: Field) {
    forall j :: i < j < |log| ==> !Touches(reqs, log[j], f) && Undisturbed(log, j)
  }

  /** No lost update: what an accepted patch set or removed holds in the secret as long
      as no later accepted write names that field, replaces the whole, or is a patch
      between whose read and write a deletion came. */
  lemma CommittedPatchSurvives(s0: State, reqs: nat -> Request, steps: seq<Step>, s: State, i: nat, f: Field)
    requires Starts(s0) && Runs(s0, reqs, steps, s)
    requires i < |s.log| && s.log[i].patch.Some? && Acceptable(reqs(s.log[i].patch.value.client))
    requires LeftAlone(reqs, s.log, i, f)
    ensures var req := reqs(s.log[i].patch.value.client);
      && s.store.secret.Live?
      && (f in req.assign ==> f in s.store.secret.data && s.store.secret.data[f] == req.assign[f])
      && (f in req.remove ==> f !in s.store.secret.data)
  {
    EveryCommitCounts(s0, reqs, steps, s);
    AfterPatch(s0.store, reqs, s.log, i);
    FieldKept(s0.store, reqs, s.log, i, |s.log|, f);
    var req := reqs(s.log[i].patch.value.client);
    if f in req.assign {
      assert f !in Fields(req.remove);
    }
  }

  lemma StoreStep(s0: Store, log: seq<Commit>, i: nat)
    requires i < |log|
    ensures StoreAfter(s0, log, i + 1) == Act(StoreAfter(s0, log, i), log[i].action)
  {
    var actions := Actions(log)[..i + 1];
    assert actions[..|actions| - 1] == Actions(log)[..i];
  }

  /** The secret just after an accepted patch. */
  lemma AfterPatch(s0: Store, reqs: nat -> Request, log: seq<Commit>, i: nat)
    requires i < |log| && log[i].patch.Some? && Entitled(s0, reqs, log, i)
    ensures var p := log[i].patch.value;
      var after := StoreAfter(s0, log, i + 1);
      && StoreAfter(s0, log, p.read).secret.Live? && after.secret.Live?
      && after.secret.data == Merged(StoreAfter(s0, log, p.read).secret.data, reqs(p.client))
  {
    StoreStep(s0, log, i);
  }

  ghost predicate SameField(a: Store, b: Store, f: Field) {
    && a.secret.Live? && b.secret.Live?
    && (f in a.secret.data <==> f in b.secret.data)
    && (f in a.secret.data ==> a.secret.data[f] == b.secret.data[f])
  }

  /** A patch that does not name the field, made in place, leaves it as it was. */
  lemma FieldStep(s0: Store, reqs: nat -> Request, log: seq<Commit>, i: nat, f: Field)
    requires i < |log| && Entitled(s0, reqs, log, i)
    requires !Touches(reqs, log[i], f) && Undisturbed(log, i)
    ensures SameField(StoreAfter(s0, log, i), StoreAfter(s0, log, i + 1), f)
  {
    GapDecides(s0, reqs, log, i);
    AfterPatch(s0, reqs, log, i);
  }

  lemma {:induction false} FieldKept(s0: Store, reqs: nat -> Request, log: seq<Commit>, i: nat, n: nat, f: Field)
    requires i < n <= |log| && log[i].patch.Some? && LeftAlone(reqs, log, i, f)
    requires forall j :: 0 <= j < |log| ==> Entitled(s0, reqs, log, j)
    ensures SameField(StoreAfter(s0, log, i + 1), StoreAfter(s0, log, n), f)
    decreases n
  {
    if i + 1 < n {
      FieldKept(s0, reqs, log, i, n - 1, f);
      FieldStep(s0, reqs, log, n - 1, f);
    } else {
      AfterPatch(s0, reqs, log, i);
    }
  }
}
