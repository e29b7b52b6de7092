/** What is revoked, and what becomes of the serials that could not be
    (retireSupersededCertificates and persistPendingRevocations in
    internal/auth/mtls.go), over any run of rotations and re-seedings. */
module CertRevocation {
  import opened Wrappers
  import opened CertRotation

  // ------------------------------------------------------------- list lemmas

  lemma {:induction false} OnlyAndExcept(l: seq<Serial>, k: set<Serial>)
    ensures multiset(l) == multiset(Only(l, k)) + multiset(Except(l, k))
  {
    if l != [] {
      OnlyAndExcept(l[1..], k);
      assert l == [l[0]] + l[1..];
    }
  }

  lemma {:induction false} OnlyIsPart(l: seq<Serial>, k: set<Serial>)
    ensures |Only(l, k)| <= |l|
    ensures forall s :: s in Only(l, k) <==> s in l && s in k
  {
    if l != [] {
      OnlyIsPart(l[1..], k);
      assert forall s :: s in l <==> s == l[0] || s in l[1..];
    }
  }

  lemma {:induction false} ExceptIsPart(l: seq<Serial>, k: set<Serial>)
    ensures forall s :: s in Except(l, k) <==> s in l && s !in k
  {
    if l != [] {
      ExceptIsPart(l[1..], k);
      assert forall s :: s in l <==> s == l[0] || s in l[1..];
    }
  }

  lemma CutAndCapped(l: seq<Serial>)
    ensures l == CutOff(l) + Capped(l)
    ensures |Capped(l)| <= MAX_PENDING_REVOCATIONS
    ensures forall s :: s in l <==> s in CutOff(l) || s in Capped(l)
  {
    assert l == CutOff(l) + Capped(l);
  }

  // ------------------------------------------------------------------- safety

  predicate NamesSerial(w: World, s: Serial) {
    w.envelope.Some? && w.envelope.value.serial == Some(s)
  }

  ghost predicate SafetyInv(w: World, noReimport: bool) {
    && (forall s :: s in Backlog(w) ==> s in w.swept)
    && (forall s :: s in w.sent ==> s in w.swept)
    && (forall s :: s in w.swept ==> s in w.issued)
    && w.unswept <= w.issued
    && (forall s :: NamesSerial(w, s) ==> s in w.issued)
    && |Backlog(w)| <= MAX_PENDING_REVOCATIONS
    && (noReimport ==>
          && (forall s :: NamesSerial(w, s) ==> s !in w.swept && s !in w.unswept)
          && (forall s :: s in w.swept ==> s !in w.unswept))
  }

  /** The parts of the history that only a committed rotation touches. */
  ghost predicate SameBooks(w: World, w': World) {
    && w'.swept == w.swept && w'.unswept == w.unswept && w'.sent == w.sent
    && w'.revoked == w.revoked && w'.dropped == w.dropped && w'.lost == w.lost
    && w'.envelope == w.envelope && w.issued <= w'.issued
  }

  /** Minting writes nothing into the books but the new serial. */
  ghost predicate MintsCleanly(w: World, m: Minting, r: Minted) {
    && SameBooks(w, r.w)
    && (r.Ready? ==>
          && m.signed.Some? && r.cred.serial == m.signed && r.cred.backlog == []
          && m.signed.value in r.w.issued)
  }

  lemma MintKeepsBooks(b: Backend, w: World, m: Minting)
    ensures MintsCleanly(w, m, Mint(b, w, m)) && MintsCleanly(w, m, Import(w, m))
  {
  }

  /** What a committed rotation does to the books, with the minting left out. */
  function Settled(w: World, cred: Credential, old_: Credential, swept: bool, x: Rotation): World {
    Persist(Retire(w.(envelope := Some(cred)), old_, swept, x), cred,
            StillPending(old_, swept, x.skipRevoke, x.refused), x.savedAgain)
  }

  lemma SettleMembers(old_: Credential, swept: bool, x: Rotation)
    ensures var all := Outstanding(old_, swept);
      && (forall s :: s in all <==> s in old_.backlog || (swept && old_.serial == Some(s)))
      && (forall s :: s in all[|old_.backlog|..] <==> swept && old_.serial == Some(s))
      && (forall s :: s in Capped(all) ==> s in all)
      && (forall s :: s in StillPending(old_, swept, x.skipRevoke, x.refused) ==> s in all)
      && |StillPending(old_, swept, x.skipRevoke, x.refused)| <= MAX_PENDING_REVOCATIONS
  {
    CutAndCapped(Outstanding(old_, swept));
    OnlyIsPart(Capped(Outstanding(old_, swept)), x.refused);
    OutstandingMembers(old_, swept);
  }

  lemma OutstandingMembers(old_: Credential, swept: bool)
    ensures var all := Outstanding(old_, swept);
      && (forall s :: s in all <==> s in old_.backlog || (swept && old_.serial == Some(s)))
      && (forall s :: s in all[|old_.backlog|..] <==> swept && old_.serial == Some(s))
  {
    var own := if swept && old_.serial.Some? then [old_.serial.value] else [];
    assert Outstanding(old_, swept)[|old_.backlog|..] == own;
  }

  /** `w1` is `w` with the replacement minted and its serial, new to the CA, issued. */
  ghost predicate Replacing(w: World, w1: World, cred: Credential, old_: Credential) {
    && SameBooks(w, w1) && w.envelope == Some(old_)
    && cred.backlog == [] && cred.serial.Some?
    && cred.serial.value in w1.issued && cred.serial.value !in w.issued
  }

  lemma SettleIsSafe(w: World, w1: World, cred: Credential, old_: Credential, swept: bool, x: Rotation, noReimport: bool)
    requires SafetyInv(w, noReimport) && Replacing(w, w1, cred, old_)
    ensures SafetyInv(Settled(w1, cred, old_, swept, x), noReimport)
    ensures forall s :: s in Settled(w1, cred, old_, swept, x).sent ==> s != cred.serial.value
  {
    SettleMembers(old_, swept, x);
    var w' := Settled(w1, cred, old_, swept, x);
    var all := Outstanding(old_, swept);
    assert old_.backlog == Backlog(w);
    assert old_.serial.Some? ==> NamesSerial(w, old_.serial.value);
    forall s | s in w'.swept ensures s in w.swept || (swept && old_.serial == Some(s)) {
      assert s in w.swept || s in all[|old_.backlog|..];
    }
    forall s | s in w.swept ensures s in w'.swept {
      assert s in w1.swept;
    }
    forall s | s in all ensures s in w'.swept {
      assert s in w.swept || s in all[|old_.backlog|..];
    }
  }

  /** A committed rotation, seen through Settled. */
  lemma ReissueSettles(b: Backend, w: World, x: Rotation) returns (w1: World, cred: Credential, swept: bool)
    requires w.envelope.Some? && Reissue(b, w, x).ok && Enabled(b, w, Rotate(x), false)
    ensures Replacing(w, w1, cred, w.envelope.value)
    ensures Reissue(b, w, x).w == Settled(w1, cred, w.envelope.value, swept, x)
    ensures swept == SweepOk(b, cred.handle, Some(w.envelope.value.handle), x.sweep)
    ensures cred.serial == x.mint.signed && cred == Mint(b, w, x.mint).cred
  {
    MintKeepsBooks(b, w, x.mint);
    var r := Mint(b, w, x.mint);
    cred := r.cred;
    swept := SweepOk(b, cred.handle, Some(w.envelope.value.handle), x.sweep);
    w1 := r.w.(store := Swept(b, r.w.store, cred.handle, Some(w.envelope.value.handle), x.sweep));
  }

  /** A rotation that did not commit leaves the books alone. */
  lemma FailureKeepsBooks(b: Backend, w: World, step: Step)
    requires !Do(b, w, step).ok || (step.Rotate? && w.envelope.None?)
    ensures SameBooks(w, Do(b, w, step).w)
  {
    MintKeepsBooks(b, w, MintingOf(step));
  }

  /** A committed re-seeding: a new envelope with an empty list on disk. */
  lemma ReseedBooks(b: Backend, w: World, y: Seeding)
    requires Reseed(b, w, y).ok
    ensures var w' := Reseed(b, w, y).w;
      && Backlog(w') == []
      && w'.swept == w.swept && w'.unswept == w.unswept && w'.sent == w.sent
      && w'.revoked == w.revoked && w'.dropped == w.dropped && w'.lost == w.lost + Backlog(w)
      && y.mint.signed.Some? && w'.envelope.Some? && w'.envelope.value.serial == y.mint.signed
      && w.issued <= w'.issued && y.mint.signed.value in w'.issued
  {
    MintKeepsBooks(b, w, y.mint);
  }

  lemma {:induction false} StepIsSafe(b: Backend, w: World, step: Step, noReimport: bool)
    requires SafetyInv(w, noReimport) && Enabled(b, w, step, noReimport)
    ensures SafetyInv(Do(b, w, step).w, noReimport)
  {
    if !Do(b, w, step).ok || (step.Rotate? && w.envelope.None?) {
      FailureKeepsBooks(b, w, step);
      assert forall s :: NamesSerial(Do(b, w, step).w, s) == NamesSerial(w, s);
    } else if step.Rotate? {
      var w1, cred, swept := ReissueSettles(b, w, step.x);
      SettleIsSafe(w, w1, cred, w.envelope.value, swept, step.x, noReimport);
    } else {
      ReseedBooks(b, w, step.y);
    }
  }

  lemma {:induction false} RunIsSafe(b: Backend, w: World, steps: seq<Step>, noReimport: bool)
    requires SafetyInv(w, noReimport) && IsRun(b, w, steps, noReimport)
    ensures SafetyInv(Exec(b, w, steps), noReimport)
    decreases |steps|
  {
    if steps != [] {
      StepIsSafe(b, w, steps[0], noReimport);
      RunIsSafe(b, Do(b, w, steps[0]).w, steps[1..], noReimport);
    }
  }

  /** Over any run, the serials carried in the envelope and the serials sent to
      the CA all belong to certificates that were superseded and swept; and after a
      rotation no serial ever sent is the one the new envelope names. */
  lemma {:induction false} OnlySweptIsRevoked(b: Backend, w: World, steps: seq<Step>, x: Rotation)
    requires Initial(w) && IsRun(b, w, steps, false) && Enabled(b, Exec(b, w, steps), Rotate(x), false)
    ensures var e := Exec(b, w, steps);
      var e' := Reissue(b, e, x).w;
      && (forall s :: s in Backlog(e) || s in e.sent ==> s in e.swept)
      && (Commits(b, e, Rotate(x)) ==> forall s :: s in e'.sent ==> !NamesSerial(e', s))
  {
    RunIsSafe(b, w, steps, false);
    var e := Exec(b, w, steps);
    if Commits(b, e, Rotate(x)) {
      var w1, cred, swept := ReissueSettles(b, e, x);
      SettleIsSafe(e, w1, cred, e.envelope.value, swept, x, false);
    }
  }

  /** The step made a new envelope authoritative. */
  predicate Commits(b: Backend, w: World, step: Step) {
    Do(b, w, step).ok && (step.Rotate? ==> w.envelope.Some?)
  }

  /** A store that keeps superseded state takes no BYO import, so nothing returns. */
  lemma {:induction false} NothingReturns(b: Backend, w: World, steps: seq<Step>)
    requires b.lifecycle && IsRun(b, w, steps, false)
    ensures IsRun(b, w, steps, true)
    decreases |steps|
  {
    if steps != [] {
      NothingReturns(b, Do(b, w, steps[0]).w, steps[1..]);
    }
  }

  /** A store that keeps none has no sweep that could fail. */
  lemma {:induction false} NothingStaysUnswept(b: Backend, w: World, steps: seq<Step>)
    requires !b.lifecycle && w.unswept == {} && IsRun(b, w, steps, false)
    ensures Exec(b, w, steps).unswept == {}
    decreases |steps|
  {
    if steps != [] {
      NoSweepFails(b, w, steps[0]);
      NothingStaysUnswept(b, Do(b, w, steps[0]).w, steps[1..]);
    }
  }

  lemma NoSweepFails(b: Backend, w: World, step: Step)
    requires !b.lifecycle && w.unswept == {} && Enabled(b, w, step, false)
    ensures Do(b, w, step).w.unswept == {}
  {
    if !Commits(b, w, step) {
      FailureKeepsBooks(b, w, step);
    } else if step.Rotate? {
      var w1, cred, swept := ReissueSettles(b, w, step.x);
    } else {
      ReseedBooks(b, w, step.y);
    }
  }

  /** Revocation safety: over any run, BYO imports and re-imports included, every
      serial sent to the CA was superseded and swept, and none is one whose sweep
      failed. */
  lemma {:induction false} RevocationIsSafe(b: Backend, w: World, steps: seq<Step>)
    requires Initial(w) && IsRun(b, w, steps, false)
    ensures var e := Exec(b, w, steps);
      forall s :: s in e.sent ==> s in e.swept && s !in e.unswept
  {
    RunIsSafe(b, w, steps, false);
    if b.lifecycle {
      NothingReturns(b, w, steps);
      RunIsSafe(b, w, steps, true);
    } else {
      NothingStaysUnswept(b, w, steps);
    }
  }

  // ------------------------------------------------ what a rotation revokes

  /** Everything the sweep had to remove is gone. */
  predicate SweepWorked(b: Backend, old_: Handle, x: Cleanup) {
    b.lifecycle ==> x.decoded && x.containerGone && (old_.leaf.Some? ==> x.leafGone)
  }

  /** The serials a rotation has to see to: the backlog, then its own if swept. */
  function Due(b: Backend, old_: Credential, x: Rotation): seq<Serial> {
    old_.backlog + if SweepWorked(b, old_.handle, x.sweep) && old_.serial.Some? then [old_.serial.value] else []
  }

  /** The newest sixteen of the serials due, from this position on. */
  function Start(due: seq<Serial>): nat {
    if |due| > 16 then |due| - 16 else 0
  }

  /** What a rotation that succeeds does about revocation: all but the newest sixteen
      due are dropped; with revocation on, the rest are sent, those the CA takes are
      revoked and the others are pending, and with it off all of them are pending and
      nothing is sent; what is pending is on disk if the second save, when there is
      anything to save, worked. */
  lemma RotationRevokesExactly(b: Backend, w: World, x: Rotation)
    requires StoreInv(w) && Enabled(b, w, Rotate(x), false) && w.envelope.Some? && Works(b, Rotate(x))
    ensures var e := Reissue(b, w, x).w;
      var due := Due(b, w.envelope.value, x);
      var kept := due[Start(due)..];
      var pending := if x.skipRevoke then kept else Only(kept, x.refused);
      && e.dropped == w.dropped + due[..Start(due)]
      && e.sent == w.sent + (if x.skipRevoke then {} else set s | s in kept)
      && e.revoked == w.revoked + (if x.skipRevoke then [] else Except(kept, x.refused))
      && Backlog(e) == if pending == [] || x.savedAgain then pending else []
  {
    StepSucceedsExactly(b, w, Rotate(x));
    var w1, cred, swept := ReissueSettles(b, w, x);
    var old_ := w.envelope.value;
    SweepOutcome(b, w, x, cred, swept);
    assert Outstanding(old_, swept) == Due(b, old_, x);
    SettledBooks(w1, cred, old_, swept, x);
    SettledSends(w1, cred, old_, swept, x);
    CapIs(Due(b, old_, x));
    assert w.revoked + [] == w.revoked;
  }

  lemma SettledSends(w: World, cred: Credential, old_: Credential, swept: bool, x: Rotation)
    ensures Settled(w, cred, old_, swept, x).sent
         == if x.skipRevoke then w.sent else w.sent + (set s | s in Capped(Outstanding(old_, swept)))
  {
  }

  lemma CapIs(due: seq<Serial>)
    ensures Capped(due) == due[Start(due)..] && CutOff(due) == due[..Start(due)]
  {
  }

  /** The superseded credential shares nothing with the new one, so all of it had to go. */
  lemma SweepOutcome(b: Backend, w: World, x: Rotation, cred: Credential, swept: bool)
    requires StoreInv(w) && Enabled(b, w, Rotate(x), false) && w.envelope.Some? && Reissue(b, w, x).ok
    requires cred == Mint(b, w, x.mint).cred
    requires swept == SweepOk(b, cred.handle, Some(w.envelope.value.handle), x.sweep)
    ensures swept <==> SweepWorked(b, w.envelope.value.handle, x.sweep)
  {
    MintPrepares(b, w, x.mint);
  }

  // ------------------------------------------- serials that come back by import

  /** The envelope names a serial that has been sent for revocation. */
  predicate NamesSent(w: World) {
    w.envelope.Some? && w.envelope.value.serial.Some? && w.envelope.value.serial.value in w.sent
  }

  /** The step imports the operator's certificate although its serial was sent before. */
  predicate BringsBack(b: Backend, w: World, step: Step) {
    Commits(b, w, step) && ByOwner(step) && MintingOf(step).signed.Some? && MintingOf(step).signed.value in w.sent
  }

  lemma StepNamesSent(b: Backend, w: World, step: Step)
    requires SafetyInv(w, false) && Enabled(b, w, step, false)
    ensures NamesSent(Do(b, w, step).w) <==> if Commits(b, w, step) then BringsBack(b, w, step) else NamesSent(w)
  {
    if !Commits(b, w, step) {
      FailureKeepsBooks(b, w, step);
    } else if step.Rotate? {
      var w1, cred, swept := ReissueSettles(b, w, step.x);
      SettleIsSafe(w, w1, cred, w.envelope.value, swept, step.x, false);
      assert NamesSerial(Do(b, w, step).w, cred.serial.value);
    } else {
      ReseedBooks(b, w, step.y);
    }
  }

  lemma {:induction false} RunOfInit(b: Backend, w: World, steps: seq<Step>, noReimport: bool)
    requires steps != [] && IsRun(b, w, steps, noReimport)
    ensures var init, last := steps[..|steps| - 1], steps[|steps| - 1];
      && IsRun(b, w, init, noReimport)
      && Enabled(b, Exec(b, w, init), last, noReimport)
      && Exec(b, w, steps) == Do(b, Exec(b, w, init), last).w
    decreases |steps|
  {
    if |steps| > 1 {
      RunOfInit(b, Do(b, w, steps[0]).w, steps[1..], noReimport);
      assert steps[1..][..|steps| - 2] == steps[..|steps| - 1][1..];
    }
  }

  /** Step `i` of the run was the last to make an envelope authoritative. */
  ghost predicate LastCommit(b: Backend, w: World, steps: seq<Step>, i: nat) {
    CommitsAt(b, w, steps, i) && forall j: nat :: i < j ==> !CommitsAt(b, w, steps, j)
  }

  predicate CommitsAt(b: Backend, w: World, steps: seq<Step>, i: nat) {
    i < |steps| && Commits(b, Exec(b, w, steps[..i]), steps[i])
  }

  /** The last step to commit was the import of a certificate whose serial had been
      sent for revocation by then. */
  ghost predicate EndsBroughtBack(b: Backend, w: World, steps: seq<Step>) {
    exists i: nat :: LastCommit(b, w, steps, i) && BringsBack(b, Exec(b, w, steps[..i]), steps[i])
  }

  /** Exactly when the envelope ends up naming a serial sent for revocation. */
  lemma {:induction false} NamedIsBroughtBack(b: Backend, w: World, steps: seq<Step>)
    requires Initial(w) && IsRun(b, w, steps, false)
    ensures NamesSent(Exec(b, w, steps)) <==> EndsBroughtBack(b, w, steps)
  {
    if steps != [] {
      var init, last := steps[..|steps| - 1], steps[|steps| - 1];
      RunOfInit(b, w, steps, false);
      NamedIsBroughtBack(b, w, init);
      RunIsSafe(b, w, init, false);
      StepNamesSent(b, Exec(b, w, init), last);
      if Commits(b, Exec(b, w, init), last) {
        EndsWithTheLast(b, w, steps);
      } else {
        EndsBeforeTheLast(b, w, steps);
      }
    }
  }

  lemma EndsWithTheLast(b: Backend, w: World, steps: seq<Step>)
    requires steps != [] && Commits(b, Exec(b, w, steps[..|steps| - 1]), steps[|steps| - 1])
    ensures EndsBroughtBack(b, w, steps) <==> BringsBack(b, Exec(b, w, steps[..|steps| - 1]), steps[|steps| - 1])
  {
    var n := |steps| - 1;
    assert CommitsAt(b, w, steps, n) && LastCommit(b, w, steps, n);
  }

  lemma EndsBeforeTheLast(b: Backend, w: World, steps: seq<Step>)
    requires steps != [] && !Commits(b, Exec(b, w, steps[..|steps| - 1]), steps[|steps| - 1])
    ensures EndsBroughtBack(b, w, steps) <==> EndsBroughtBack(b, w, steps[..|steps| - 1])
  {
    var n := |steps| - 1;
    forall i: nat ensures LastCommit(b, w, steps, i) <==> LastCommit(b, w, steps[..n], i) {
      SameLastCommit(b, w, steps, i);
    }
    assert forall i: nat :: i < n ==> steps[..n][..i] == steps[..i] && steps[..n][i] == steps[i];
  }

  lemma SameLastCommit(b: Backend, w: World, steps: seq<Step>, i: nat)
    requires steps != [] && !Commits(b, Exec(b, w, steps[..|steps| - 1]), steps[|steps| - 1])
    ensures LastCommit(b, w, steps, i) <==> LastCommit(b, w, steps[..|steps| - 1], i)
  {
    var n := |steps| - 1;
    forall j: nat ensures CommitsAt(b, w, steps, j) <==> CommitsAt(b, w, steps[..n], j) {
      if j < n {
        assert steps[..n][..j] == steps[..j];
      }
    }
  }

  // A host whose keys are files: nothing to sweep, BYO allowed.

  const REMOVED := Cleanup(true, true, true)
  const FILES := Backend(false, false)

  function Unenrolled(): World {
    World(Store({}, {}), None, Store({}, {}), {}, [], [], {}, {}, [], [], [])
  }

  function Own(container: nat): Seeding {
    Seeding(true, true, Minting(true, true, Some(container), Some(7), true, None, REMOVED), true, true, REMOVED, true)
  }

  function RotateTo(container: nat, serial: Serial, refused: set<Serial>): Rotation {
    Rotation(Minting(true, true, Some(container), Some(serial), true, None, REMOVED), true, true, REMOVED, false, refused, true)
  }

  /** Certificate 7 imported into container 1. */
  function Imported(): World {
    World(Store({1}, {}), Some(Credential(Handle(1, None), Some(7), [])), Store({1}, {}), {7},
          [], [], {}, {}, [], [], [])
  }

  /** Then rotated to certificate 8, and 7 revoked or not. */
  function Rotated(acknowledged: bool): World {
    World(Store({1, 2}, {}), Some(Credential(Handle(2, None), Some(8), if acknowledged then [] else [7])),
          Store({1, 2}, {}), {7, 8}, [], [7], {}, {7}, if acknowledged then [7] else [], [], [])
  }

  lemma FirstImport()
    ensures Reseed(FILES, Unenrolled(), Own(1)) == Done(Imported(), true)
  {
  }

  lemma RotateSeven(acknowledged: bool)
    ensures Reissue(FILES, Imported(), RotateTo(2, 8, if acknowledged then {} else {7})) == Done(Rotated(acknowledged), true)
  {
    var old_ := Imported().envelope.value;
    assert Outstanding(old_, true) == [7];
    assert Capped([7]) == [7] && CutOff([7]) == [] && [7][0..] == [7] && [7][1..] == [];
    assert (set s | s in [7]) == {7};
    assert {1} + {2} == {1, 2} && {7} + {8} == {7, 8};
    assert Only([7], {}) == [] && Except([7], {}) == [7] && Only([7], {7}) == [7] && Except([7], {7}) == [];
  }

  /** Import, rotate, import the same certificate again: the envelope names a serial
      the CA has revoked. */
  lemma RevokedSerialReimported() returns (w: World, steps: seq<Step>)
    ensures Initial(w) && IsRun(FILES, w, steps, false)
    ensures NamesSent(Exec(FILES, w, steps))
    ensures Exec(FILES, w, steps).envelope.value.serial == Some(7) && 7 in Exec(FILES, w, steps).revoked
  {
    w := Unenrolled();
    FirstImport();
    RotateSeven(true);
    var third := Seed(Own(3));
    RunOfOne(Rotated(true), third);
    RunOfMore(Imported(), Rotate(RotateTo(2, 8, {})), [third]);
    RunOfMore(w, Seed(Own(1)), [Rotate(RotateTo(2, 8, {}))] + [third]);
    steps := [Seed(Own(1))] + ([Rotate(RotateTo(2, 8, {}))] + [third]);
  }

  lemma RunOfMore(w: World, step: Step, rest: seq<Step>)
    requires Enabled(FILES, w, step, false) && IsRun(FILES, Do(FILES, w, step).w, rest, false)
    ensures IsRun(FILES, w, [step] + rest, false)
    ensures Exec(FILES, w, [step] + rest) == Exec(FILES, Do(FILES, w, step).w, rest)
  {
    assert ([step] + rest)[1..] == rest;
  }

  lemma RunOfOne(w: World, step: Step)
    requires Enabled(FILES, w, step, false)
    ensures IsRun(FILES, w, [step], false) && Exec(FILES, w, [step]) == Do(FILES, w, step).w
  {
    assert [step][1..] == [];
  }

  // ------------------------------------------------------------- conservation

  ghost predicate Conserved(w: World) {
    multiset(w.swept) ==
      multiset(w.revoked) + multiset(Backlog(w)) + multiset(w.dropped) + multiset(w.lost)
  }

  /** The serials the CA takes. */
  function Acked(old_: Credential, swept: bool, x: Rotation): seq<Serial> {
    if x.skipRevoke then [] else Except(Capped(Outstanding(old_, swept)), x.refused)
  }

  /** What was listed, and the serial just swept, is dropped, revoked or pending. */
  lemma RotationAccounts(old_: Credential, swept: bool, x: Rotation)
    ensures var all := Outstanding(old_, swept);
      multiset(old_.backlog) + multiset(all[|old_.backlog|..]) ==
        multiset(CutOff(all)) + multiset(Acked(old_, swept, x))
        + multiset(StillPending(old_, swept, x.skipRevoke, x.refused))
  {
    var all := Outstanding(old_, swept);
    assert all == old_.backlog + all[|old_.backlog|..];
    CutAndCapped(all);
    assert multiset(all) == multiset(CutOff(all)) + multiset(Capped(all));
    OnlyAndExcept(Capped(all), x.refused);
  }

  lemma BooksBalance(swept: seq<Serial>, revoked: seq<Serial>, listed: seq<Serial>, dropped: seq<Serial>, lost: seq<Serial>,
                     newest: seq<Serial>, cut: seq<Serial>, acked: seq<Serial>, pending: seq<Serial>)
    requires multiset(swept) == multiset(revoked) + multiset(listed) + multiset(dropped) + multiset(lost)
    requires multiset(listed) + multiset(newest) == multiset(cut) + multiset(acked) + multiset(pending)
    ensures multiset(swept + newest) ==
      multiset(revoked + acked) + multiset(pending) + multiset(dropped + cut) + multiset(lost)
    ensures multiset(swept + newest) ==
      multiset(revoked + acked) + multiset(dropped + cut) + multiset(lost + pending)
  {
    assert multiset(swept + newest) == multiset(swept) + multiset(newest);
    assert multiset(revoked + acked) == multiset(revoked) + multiset(acked);
    assert multiset(dropped + cut) == multiset(dropped) + multiset(cut);
    assert multiset(lost + pending) == multiset(lost) + multiset(pending);
    var into := multiset(listed) + multiset(newest);
    var outOf := multiset(cut) + multiset(acked) + multiset(pending);
    forall s
      ensures multiset(swept + newest)[s] ==
        (multiset(revoked + acked) + multiset(pending) + multiset(dropped + cut) + multiset(lost))[s]
      ensures multiset(swept + newest)[s] ==
        (multiset(revoked + acked) + multiset(dropped + cut) + multiset(lost + pending))[s]
    {
      assert into[s] == outOf[s];
    }
  }

  lemma SettleConserves(w: World, w1: World, cred: Credential, old_: Credential, swept: bool, x: Rotation)
    requires Conserved(w) && Replacing(w, w1, cred, old_)
    ensures Conserved(Settled(w1, cred, old_, swept, x))
  {
    var all := Outstanding(old_, swept);
    var newest, cut := all[|old_.backlog|..], CutOff(all);
    var acked := Acked(old_, swept, x);
    var pending := StillPending(old_, swept, x.skipRevoke, x.refused);
    RotationAccounts(old_, swept, x);
    SettledBooks(w1, cred, old_, swept, x);
    BooksBalance(w.swept, w.revoked, Backlog(w), w.dropped, w.lost, newest, cut, acked, pending);
    if pending == [] || x.savedAgain {
      ConservedAs(Settled(w1, cred, old_, swept, x), w.swept + newest, w.revoked + acked, pending, w.dropped + cut, w.lost);
    } else {
      ConservedAs(Settled(w1, cred, old_, swept, x), w.swept + newest, w.revoked + acked, [], w.dropped + cut, w.lost + pending);
    }
  }

  lemma ConservedAs(w: World, swept: seq<Serial>, revoked: seq<Serial>, listed: seq<Serial>, dropped: seq<Serial>, lost: seq<Serial>)
    requires w.swept == swept && w.revoked == revoked && Backlog(w) == listed && w.dropped == dropped && w.lost == lost
    requires multiset(swept) == multiset(revoked) + multiset(listed) + multiset(dropped) + multiset(lost)
    ensures Conserved(w)
  {
  }

  /** The books after a committed rotation, entry by entry. */
  lemma SettledBooks(w: World, cred: Credential, old_: Credential, swept: bool, x: Rotation)
    requires cred.backlog == []
    ensures var w' := Settled(w, cred, old_, swept, x);
      var all := Outstanding(old_, swept);
      var pending := StillPending(old_, swept, x.skipRevoke, x.refused);
      var stored := pending == [] || x.savedAgain;
      && w'.swept == w.swept + all[|old_.backlog|..]
      && w'.dropped == w.dropped + CutOff(all)
      && w'.revoked == w.revoked + Acked(old_, swept, x)
      && Backlog(w') == (if stored then pending else [])
      && w'.lost == (if stored then w.lost else w.lost + pending)
  {
  }

  lemma {:induction false} StepConserves(b: Backend, w: World, step: Step)
    requires Conserved(w) && Enabled(b, w, step, false)
    ensures Conserved(Do(b, w, step).w)
  {
    if !Do(b, w, step).ok || (step.Rotate? && w.envelope.None?) {
      FailureKeepsBooks(b, w, step);
    } else if step.Rotate? {
      var w1, cred, swept := ReissueSettles(b, w, step.x);
      SettleConserves(w, w1, cred, w.envelope.value, swept, step.x);
    } else {
      ReseedBooks(b, w, step.y);
      assert multiset(w.lost + Backlog(w)) == multiset(w.lost) + multiset(Backlog(w));
    }
  }

  // -------------------------------------------------------------------- order

  /** `a` was swept before `s`. */
  ghost predicate Before(swept: seq<Serial>, a: Serial, s: Serial) {
    exists i, j :: 0 <= i < j < |swept| && swept[i] == a && swept[j] == s
  }

  ghost predicate InOrder(swept: seq<Serial>, l: seq<Serial>) {
    forall i, j :: 0 <= i < j < |l| ==> Before(swept, l[i], l[j])
  }

  ghost predicate OrderInv(w: World) {
    && Distinct(w.swept)
    && InOrder(w.swept, Backlog(w))
    && (forall d, s :: d in w.dropped && s in Backlog(w) ==> Before(w.swept, d, s))
    && (forall d :: d in w.dropped ==> d in w.swept)
  }

  lemma BeforeExtends(swept: seq<Serial>, more: seq<Serial>, a: Serial, s: Serial)
    requires Before(swept, a, s)
    ensures Before(swept + more, a, s)
  {
    var i, j :| 0 <= i < j < |swept| && swept[i] == a && swept[j] == s;
    assert (swept + more)[i] == a && (swept + more)[j] == s;
  }

  lemma BeforeNewest(swept: seq<Serial>, a: Serial, s: Serial)
    requires a in swept
    ensures Before(swept + [s], a, s)
  {
    var i :| 0 <= i < |swept| && swept[i] == a;
    assert (swept + [s])[i] == a && (swept + [s])[|swept|] == s;
  }

  /** Keeping some of a list keeps its order. */
  lemma {:induction false} OnlyInOrder(swept: seq<Serial>, l: seq<Serial>, k: set<Serial>)
    requires InOrder(swept, l)
    ensures InOrder(swept, Only(l, k))
  {
    if l != [] {
      var rest := l[1..];
      OnlyInOrder(swept, rest, k);
      OnlyIsPart(rest, k);
      if l[0] in k {
        var kept := Only(rest, k);
        forall j | 0 <= j < |kept| ensures Before(swept, l[0], kept[j]) {
          assert kept[j] in rest;
          var i :| 0 <= i < |rest| && rest[i] == kept[j];
          assert l[i + 1] == kept[j];
        }
        assert Only(l, k) == [l[0]] + kept;
      }
    }
  }

  /** The outstanding list of a rotation is in order, and after everything dropped. */
  lemma OutstandingInOrder(w: World, old_: Credential, swept: bool)
    requires OrderInv(w) && w.envelope == Some(old_)
    requires forall s :: s in old_.backlog ==> s in w.swept
    ensures var all := Outstanding(old_, swept);
      var swept' := w.swept + all[|old_.backlog|..];
      && InOrder(swept', all)
      && (forall d, s :: d in w.dropped && s in all ==> Before(swept', d, s))
  {
    var all := Outstanding(old_, swept);
    var newest := all[|old_.backlog|..];
    var swept' := w.swept + newest;
    assert Backlog(w) == old_.backlog;
    forall i, j | 0 <= i < j < |all| ensures Before(swept', all[i], all[j]) {
      if j < |old_.backlog| {
        BeforeExtends(w.swept, newest, all[i], all[j]);
      } else {
        assert newest == [all[j]];
        BeforeNewest(w.swept, all[i], all[j]);
      }
    }
    forall d, s | d in w.dropped && s in all ensures Before(swept', d, s) {
      if s in old_.backlog {
        BeforeExtends(w.swept, newest, d, s);
      } else {
        assert newest == [s];
        BeforeNewest(w.swept, d, s);
      }
    }
  }

  /** Capping and retrying keep the order; what the cap cuts off is older. */
  lemma PendingInOrder(swept: seq<Serial>, old_: Credential, gone: bool, x: Rotation)
    requires InOrder(swept, Outstanding(old_, gone))
    ensures var pending := StillPending(old_, gone, x.skipRevoke, x.refused);
      && InOrder(swept, pending)
      && (forall d, s :: d in CutOff(Outstanding(old_, gone)) && s in pending ==> Before(swept, d, s))
  {
    var all := Outstanding(old_, gone);
    var cut, capped := CutOff(all), Capped(all);
    var pending := StillPending(old_, gone, x.skipRevoke, x.refused);
    CutAndCapped(all);
    assert forall i :: 0 <= i < |cut| ==> cut[i] == all[i];
    assert forall i :: 0 <= i < |capped| ==> capped[i] == all[|cut| + i];
    OnlyInOrder(swept, capped, x.refused);
    OnlyIsPart(capped, x.refused);
    forall d, s | d in cut && s in pending ensures Before(swept, d, s) {
      var i :| 0 <= i < |cut| && cut[i] == d;
      assert s in capped;
      var j :| 0 <= j < |capped| && capped[j] == s;
      assert Before(swept, all[i], all[|cut| + j]);
    }
  }

  lemma AppendKeepsDistinct(l: seq<Serial>, s: Serial)
    requires Distinct(l) && s !in l
    ensures Distinct(l + [s])
  {
  }

  /** What the cap drops, now and earlier, was swept and is older than the list. */
  lemma DroppedIsOlder(w: World, old_: Credential, gone: bool, x: Rotation, d: Serial)
    requires OrderInv(w) && w.envelope == Some(old_)
    requires forall s :: s in old_.backlog ==> s in w.swept
    requires d in w.dropped || d in CutOff(Outstanding(old_, gone))
    ensures var swept' := w.swept + Outstanding(old_, gone)[|old_.backlog|..];
      && d in swept'
      && forall s :: s in StillPending(old_, gone, x.skipRevoke, x.refused) ==> Before(swept', d, s)
  {
    var all := Outstanding(old_, gone);
    var swept' := w.swept + all[|old_.backlog|..];
    OutstandingInOrder(w, old_, gone);
    PendingInOrder(swept', old_, gone, x);
    SettleMembers(old_, gone, x);
    CutAndCapped(all);
    assert d in w.swept || d in all[|old_.backlog|..];
  }

  lemma SettleKeepsOrder(w: World, w1: World, cred: Credential, old_: Credential, swept: bool, x: Rotation)
    requires OrderInv(w) && SafetyInv(w, true) && Replacing(w, w1, cred, old_)
    ensures OrderInv(Settled(w1, cred, old_, swept, x))
  {
    var w' := Settled(w1, cred, old_, swept, x);
    var newest := Outstanding(old_, swept)[|old_.backlog|..];
    assert Backlog(w) == old_.backlog;
    SettledBooks(w1, cred, old_, swept, x);
    OutstandingInOrder(w, old_, swept);
    PendingInOrder(w'.swept, old_, swept, x);
    forall d | d in w'.dropped
      ensures d in w'.swept && forall s :: s in Backlog(w') ==> Before(w'.swept, d, s)
    {
      DroppedIsOlder(w, old_, swept, x, d);
    }
    if swept && old_.serial.Some? {
      assert NamesSerial(w, old_.serial.value);
      assert newest == [old_.serial.value];
      AppendKeepsDistinct(w.swept, old_.serial.value);
    } else {
      assert newest == [];
    }
  }

  ghost predicate LedgerInv(w: World) {
    SafetyInv(w, true) && Conserved(w) && OrderInv(w)
  }

  lemma {:induction false} StepKeepsLedger(b: Backend, w: World, step: Step)
    requires LedgerInv(w) && Enabled(b, w, step, true)
    ensures LedgerInv(Do(b, w, step).w)
  {
    StepIsSafe(b, w, step, true);
    StepConserves(b, w, step);
    if !Do(b, w, step).ok || (step.Rotate? && w.envelope.None?) {
      FailureKeepsBooks(b, w, step);
    } else if step.Rotate? {
      var w1, cred, swept := ReissueSettles(b, w, step.x);
      SettleKeepsOrder(w, w1, cred, w.envelope.value, swept, step.x);
    } else {
      ReseedBooks(b, w, step.y);
    }
  }

  lemma {:induction false} RunKeepsLedger(b: Backend, w: World, steps: seq<Step>)
    requires LedgerInv(w) && IsRun(b, w, steps, true)
    ensures LedgerInv(Exec(b, w, steps))
    decreases |steps|
  {
    if steps != [] {
      StepKeepsLedger(b, w, steps[0]);
      RunKeepsLedger(b, Do(b, w, steps[0]).w, steps[1..]);
    }
  }

  lemma InitialLedger(w: World)
    requires Initial(w)
    ensures LedgerInv(w)
  {
    var l := Backlog(w);
    forall i, j | 0 <= i < j < |l| ensures Before(w.swept, l[i], l[j]) {
    }
  }

  function Count(l: seq<Serial>, s: Serial): nat {
    multiset(l)[s]
  }

  /** Backlog conservation: over any run in which no certificate is imported
      twice, each superseded and swept serial is in exactly one place: revoked,
      listed on disk, dropped by the cap, or lost with a list that never reached
      the disk.  The list keeps the order of sweeping, never exceeds 16, and only
      serials older than all of it have been dropped. */
  lemma {:induction false} BacklogIsConserved(b: Backend, w: World, steps: seq<Step>, s: Serial)
    requires Initial(w) && IsRun(b, w, steps, true)
    ensures var e := Exec(b, w, steps);
      && (s in e.swept ==>
            Count(e.revoked, s) + Count(Backlog(e), s) + Count(e.dropped, s) + Count(e.lost, s) == 1)
      && (s !in e.swept ==> s !in e.revoked && s !in Backlog(e) && s !in e.dropped && s !in e.lost)
      && |Backlog(e)| <= MAX_PENDING_REVOCATIONS
      && InOrder(e.swept, Backlog(e))
      && (forall d :: d in e.dropped && s in Backlog(e) ==> Before(e.swept, d, s))
  {
    InitialLedger(w);
    RunKeepsLedger(b, w, steps);
    var e := Exec(b, w, steps);
    if s in e.swept {
      DistinctOnce(e.swept, s);
    } else {
      assert multiset(e.swept)[s] == 0;
    }
  }

  lemma {:induction false} DistinctOnce(l: seq<Serial>, s: Serial)
    requires Distinct(l) && s in l
    ensures multiset(l)[s] == 1
    decreases |l|
  {
    assert l == [l[0]] + l[1..];
    if l[0] == s {
      assert s !in l[1..];
    } else {
      DistinctOnce(l[1..], s);
    }
  }

  /** Rotations alone lose nothing, as long as the second envelope write, when
      one is made, succeeds. */
  lemma {:induction false} RotationsLoseNothing(b: Backend, w: World, steps: seq<Step>)
    requires IsRun(b, w, steps, false)
    requires forall i :: 0 <= i < |steps| ==> steps[i].Rotate? && steps[i].x.savedAgain
    ensures Exec(b, w, steps).lost == w.lost
    decreases |steps|
  {
    if steps != [] {
      if Do(b, w, steps[0]).ok && w.envelope.Some? {
        var w1, cred, swept := ReissueSettles(b, w, steps[0].x);
        SettledBooks(w1, cred, w.envelope.value, swept, steps[0].x);
      } else {
        FailureKeepsBooks(b, w, steps[0]);
      }
      RotationsLoseNothing(b, Do(b, w, steps[0]).w, steps[1..]);
    }
  }

  /** The comment on the re-seeding path says the backlog is preserved.  On disk
      it survives a successful re-seeding exactly when there was none. */
  lemma ReseedKeepsBacklogOnlyIfEmpty(b: Backend, w: World, y: Seeding)
    requires Reseed(b, w, y).ok
    ensures Backlog(Reseed(b, w, y).w) == Backlog(w) <==> Backlog(w) == []
  {
    ReseedBooks(b, w, y);
  }

  /** A run that loses one: the CA refuses to revoke serial 7, the rotation leaves it
      pending on disk, and a successful re-seeding writes an envelope without it. */
  lemma PendingSerialIsLost() returns (w: World, pending: Step, reseed: Step)
    ensures Initial(w) && IsRun(FILES, w, [pending] + [reseed], false)
    ensures Backlog(Exec(FILES, w, [pending])) == [7]
    ensures reseed.Seed? && reseed.y.readable && reseed.y.savedAgain && Commits(FILES, Exec(FILES, w, [pending]), reseed)
    ensures var e := Exec(FILES, w, [pending] + [reseed]);
      Backlog(e) == [] && 7 !in e.revoked && e.lost == [7]
  {
    w := Imported();
    pending := Rotate(RotateTo(2, 8, {7}));
    reseed := Seed(Seeding(true, false, Minting(true, true, Some(3), Some(9), true, None, REMOVED), true, true, REMOVED, true));
    RotateSeven(false);
    RunOfOne(w, pending);
    RunOfOne(Rotated(false), reseed);
    RunOfMore(w, pending, [reseed]);
    ReseedBooks(FILES, Rotated(false), reseed.y);
  }

  /** Over any run, imports of whatever certificate included, the books balance: each
      time a serial was superseded and swept is accounted for once. */
  lemma {:induction false} SweptIsAccounted(b: Backend, w: World, steps: seq<Step>, s: Serial)
    requires Initial(w) && IsRun(b, w, steps, false)
    ensures var e := Exec(b, w, steps);
      Count(e.swept, s) == Count(e.revoked, s) + Count(Backlog(e), s) + Count(e.dropped, s) + Count(e.lost, s)
  {
    RunConserves(b, w, steps);
  }

  lemma {:induction false} RunConserves(b: Backend, w: World, steps: seq<Step>)
    requires Conserved(w) && IsRun(b, w, steps, false)
    ensures Conserved(Exec(b, w, steps))
    decreases |steps|
  {
    if steps != [] {
      StepConserves(b, w, steps[0]);
      RunConserves(b, Do(b, w, steps[0]).w, steps[1..]);
    }
  }
}
