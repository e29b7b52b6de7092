/** Certificate rotation and re-seeding (internal/auth/mtls.go): a two-phase
    replacement over a key store, an envelope that is replaced atomically, and a
    CA.  Every external step may fail, and which ones do is an input. */
module CertRotation {
  import opened Wrappers

  type Serial = nat

  /** Where a credential lives: a key container and, once StoreCert has installed
      it, the thumbprint of its leaf certificate. */
  datatype Handle = Handle(container: nat, leaf: Option<nat>)

  datatype Store = Store(containers: set<nat>, leaves: set<nat>)

  predicate Holds(st: Store, h: Handle) {
    h.container in st.containers && (h.leaf.Some? ==> h.leaf.value in st.leaves)
  }

  /** The envelope.  `serial` is what supersededSerial derives from it, if anything. */
  datatype Credential = Credential(handle: Handle, serial: Option<Serial>, backlog: seq<Serial>)

  const MAX_PENDING_REVOCATIONS := 16

  /** Which optional capabilities the store has. */
  datatype Backend = Backend(storesCert: bool, lifecycle: bool)

  /** How a best-effort removal goes: the handles parse, and each artefact goes or stays. */
  datatype Cleanup = Cleanup(decoded: bool, containerGone: bool, leafGone: bool)

  /** How a freshly generated key becomes a credential, step by step. */
  datatype Minting = Minting(
    rendered: bool,                 // renderCommonName
    authorised: bool,               // runBootstrap; always true for a rotation
    container: Option<nat>,         // store.Generate
    signed: Option<Serial>,         // signOrIssue
    built: bool,                    // buildCredential
    installed: Option<nat>,         // StoreCert, where the store has it
    rollback: Cleanup)

  datatype Rotation = Rotation(
    mint: Minting,
    loggedIn: bool, saved: bool,    // certLogin, saveCredential
    sweep: Cleanup,                 // CommitCert
    skipRevoke: bool,
    refused: set<Serial>,           // serials whose revocation fails
    savedAgain: bool)               // the second saveCredential

  datatype Seeding = Seeding(
    readable: bool,                 // loadCredential returned the existing envelope
    byo: bool,
    mint: Minting,                  // for BYO, container and signed are the import's
    loggedIn: bool, saved: bool,
    sweep: Cleanup,
    savedAgain: bool)

  datatype World = World(
    store: Store,
    envelope: Option<Credential>,
    // history
    seen: Store,                    // every container and leaf ever made
    issued: set<Serial>,            // every serial ever put into a credential
    rolledBack: seq<Handle>,        // handles given to rollbackCertRotation
    swept: seq<Serial>,             // superseded by a rotation and swept, in order
    unswept: set<Serial>,           // superseded by a rotation whose sweep failed
    sent: set<Serial>,              // sent to the CA for revocation
    revoked: seq<Serial>,           // acknowledged by the CA
    dropped: seq<Serial>,           // dropped by the cap
    lost: seq<Serial>)              // outstanding, but never written to the envelope

  datatype Done = Done(w: World, ok: bool)

  // -------------------------------------------------------------- store steps

  function AddContainer(w: World, container: nat): World {
    w.(store := w.store.(containers := w.store.containers + {container}),
       seen := w.seen.(containers := w.seen.containers + {container}))
  }

  function AddLeaf(w: World, leaf: nat): World {
    w.(store := w.store.(leaves := w.store.leaves + {leaf}),
       seen := w.seen.(leaves := w.seen.leaves + {leaf}))
  }

  function Discard(st: Store, container: Option<nat>, leaf: Option<nat>, x: Cleanup): Store {
    Store(if container.Some? && x.containerGone then st.containers - {container.value} else st.containers,
          if leaf.Some? && x.leafGone then st.leaves - {leaf.value} else st.leaves)
  }

  /** supersededOSArtifacts: never anything the new credential uses. */
  function OldContainer(new_: Handle, old_: Handle): Option<nat> {
    if old_.container != new_.container then Some(old_.container) else None
  }

  function OldLeaf(new_: Handle, old_: Handle): Option<nat> {
    if old_.leaf.Some? && old_.leaf != new_.leaf then old_.leaf else None
  }

  /** commitCertRotation: the store afterwards, and whether the sweep succeeded. */
  function Swept(b: Backend, st: Store, new_: Handle, old_: Option<Handle>, x: Cleanup): Store {
    if b.lifecycle && old_.Some? && x.decoded
    then Discard(st, OldContainer(new_, old_.value), OldLeaf(new_, old_.value), x)
    else st
  }

  predicate SweepOk(b: Backend, new_: Handle, old_: Option<Handle>, x: Cleanup) {
    b.lifecycle && old_.Some? ==>
      && x.decoded
      && (OldContainer(new_, old_.value).Some? ==> x.containerGone)
      && (OldLeaf(new_, old_.value).Some? ==> x.leafGone)
  }

  /** rollbackCertRotation. */
  function Abandon(b: Backend, w: World, h: Handle, x: Cleanup): World {
    w.(store := if b.lifecycle && x.decoded then Discard(w.store, Some(h.container), h.leaf, x) else w.store,
       rolledBack := w.rolledBack + [h])
  }

  // ------------------------------------------------------------------ minting

  /** What minting leaves: nothing, an abandoned handle already rolled back, or a
      credential the caller must commit or roll back. */
  datatype Minted = Failed(w: World) | Ready(w: World, cred: Credential)

  function Mint(b: Backend, w: World, m: Minting): Minted {
    if !m.rendered || !m.authorised || m.container.None? then Failed(w)
    else
      var w1 := AddContainer(w, m.container.value);
      var h := Handle(m.container.value, None);
      if m.signed.None? then Failed(Abandon(b, w1, h, m.rollback))
      else
        var w2 := w1.(issued := w1.issued + {m.signed.value});
        if !m.built then Failed(Abandon(b, w2, h, m.rollback))
        else if !b.storesCert then Ready(w2, Credential(h, m.signed, []))
        else if m.installed.None? then Failed(Abandon(b, w2, h, m.rollback))
        else Ready(AddLeaf(w2, m.installed.value), Credential(h.(leaf := m.installed), m.signed, []))
  }

  /** seedCredential's BYO branch: import, no StoreCert. */
  function Import(w: World, m: Minting): Minted {
    if !m.rendered || m.container.None? || m.signed.None? then Failed(w)
    else
      var w1 := AddContainer(w, m.container.value);
      Ready(w1.(issued := w1.issued + {m.signed.value}), Credential(Handle(m.container.value, None), m.signed, []))
  }

  // --------------------------------------------------------------- revocation

  /** capPendingRevocations: the newest 16. */
  function Capped(pending: seq<Serial>): seq<Serial> {
    if |pending| <= MAX_PENDING_REVOCATIONS then pending
    else pending[|pending| - MAX_PENDING_REVOCATIONS..]
  }

  function CutOff(pending: seq<Serial>): seq<Serial> {
    if |pending| <= MAX_PENDING_REVOCATIONS then []
    else pending[..|pending| - MAX_PENDING_REVOCATIONS]
  }

  function Only(pending: seq<Serial>, keep: set<Serial>): seq<Serial> {
    if pending == [] then []
    else (if pending[0] in keep then [pending[0]] else []) + Only(pending[1..], keep)
  }

  function Except(pending: seq<Serial>, drop: set<Serial>): seq<Serial> {
    if pending == [] then []
    else (if pending[0] in drop then [] else [pending[0]]) + Except(pending[1..], drop)
  }

  /** The backlog, then the serial just superseded if its certificate is gone. */
  function Outstanding(old_: Credential, swept: bool): seq<Serial> {
    old_.backlog + if swept && old_.serial.Some? then [old_.serial.value] else []
  }

  /** retireSupersededCertificates' result. */
  function StillPending(old_: Credential, swept: bool, skipRevoke: bool, refused: set<Serial>): seq<Serial> {
    var capped := Capped(Outstanding(old_, swept));
    if skipRevoke then capped else Only(capped, refused)
  }

  function Retire(w: World, old_: Credential, swept: bool, x: Rotation): World {
    var all := Outstanding(old_, swept);
    var capped := Capped(all);
    w.(swept := w.swept + all[|old_.backlog|..],
       unswept := if !swept && old_.serial.Some? then w.unswept + {old_.serial.value} else w.unswept,
       dropped := w.dropped + CutOff(all),
       sent := if x.skipRevoke then w.sent else w.sent + (set s | s in capped),
       revoked := if x.skipRevoke then w.revoked else w.revoked + Except(capped, x.refused))
  }

  /** persistPendingRevocations: the comparison is with the list the in-memory
      credential carries, and nothing is written when it finds them equal. */
  function Persist(w: World, cred: Credential, pending: seq<Serial>, savedAgain: bool): World {
    if cred.backlog == pending then w
    else if savedAgain then w.(envelope := Some(cred.(backlog := pending)))
    else w.(lost := w.lost + pending)
  }

  // --------------------------------------------------------- whole operations

  function Reissue(b: Backend, w: World, x: Rotation): Done {
    if w.envelope.None? then Done(w, true)     // ReissueIfDue: nothing to rotate
    else
      var old_ := w.envelope.value;
      match Mint(b, w, x.mint)
      case Failed(w1) => Done(w1, false)
      case Ready(w1, cred) =>
        if !x.loggedIn || !x.saved then Done(Abandon(b, w1, cred.handle, x.mint.rollback), false)
        else
          var ok := SweepOk(b, cred.handle, Some(old_.handle), x.sweep);
          var w2 := w1.(envelope := Some(cred), store := Swept(b, w1.store, cred.handle, Some(old_.handle), x.sweep));
          Done(Persist(Retire(w2, old_, ok, x), cred, StillPending(old_, ok, x.skipRevoke, x.refused), x.savedAgain), true)
  }

  /** authenticateMTLS once the existing credential could not be used. */
  function Reseed(b: Backend, w: World, x: Seeding): Done {
    var old_ := if x.readable then w.envelope else None;
    match if x.byo then Import(w, x.mint) else Mint(b, w, x.mint)
    case Failed(w1) => Done(w1, false)
    case Ready(w1, cred) =>
      if !x.loggedIn || !x.saved then Done(Abandon(b, w1, cred.handle, x.mint.rollback), false)
      else
        var oldHandle := if old_.Some? then Some(old_.value.handle) else None;
        var w2 := w1.(envelope := Some(cred), store := Swept(b, w1.store, cred.handle, oldHandle, x.sweep));
        var w3 := w2.(lost := w2.lost + Backlog(w));
        if old_.None? then Done(w3, true)
        else
          // The backlog is assigned to the in-memory credential first, so the
          // comparison inside Persist finds the two lists equal.
          var carried := cred.(backlog := old_.value.backlog);
          Done(Persist(w3, carried, old_.value.backlog, x.savedAgain), true)
  }

  /** The serials awaiting revocation, as the disk tells it. */
  function Backlog(w: World): seq<Serial> {
    if w.envelope.Some? then w.envelope.value.backlog else []
  }

  // --------------------------------------------------------------------- runs

  datatype Step = Rotate(x: Rotation) | Seed(y: Seeding)

  function Do(b: Backend, w: World, step: Step): Done {
    match step
    case Rotate(x) => Reissue(b, w, x)
    case Seed(y) => Reseed(b, w, y)
  }

  function MintingOf(step: Step): Minting {
    match step
    case Rotate(x) => x.mint
    case Seed(y) => y.mint
  }

  /** The store names each container and leaf anew, and the CA each certificate
      (section 4.1.2.2 of RFC 5280).  A BYO import alone may bring back a serial
      seen before; `noReimport` rules that out as well.  The one store that keeps
      superseded state, the OS-native one, also installs certificates, and BYO is
      refused for it when the configuration is loaded. */
  predicate Enabled(b: Backend, w: World, step: Step, noReimport: bool) {
    var m := MintingOf(step);
    && (b.lifecycle ==> b.storesCert && !ByOwner(step))
    && (m.container.Some? ==> m.container.value !in w.seen.containers)
    && (m.installed.Some? ==> m.installed.value !in w.seen.leaves)
    && (m.signed.Some? && (noReimport || !ByOwner(step)) ==> m.signed.value !in w.issued)
  }

  predicate IsRun(b: Backend, w: World, steps: seq<Step>, noReimport: bool)
    decreases |steps|
  {
    steps == [] || (Enabled(b, w, steps[0], noReimport) && IsRun(b, Do(b, w, steps[0]).w, steps[1..], noReimport))
  }

  function Exec(b: Backend, w: World, steps: seq<Step>): World
    decreases |steps|
  {
    if steps == [] then w else Exec(b, Do(b, w, steps[0]).w, steps[1..])
  }

  /** A host before the run: not enrolled, or enrolled with a backlog that earlier
      rotations swept. */
  ghost predicate Initial(w: World) {
    && w.store.containers <= w.seen.containers && w.store.leaves <= w.seen.leaves
    && (w.envelope.Some? ==>
          && Holds(w.store, w.envelope.value.handle)
          && (w.envelope.value.serial.Some? ==>
                w.envelope.value.serial.value in w.issued && w.envelope.value.serial.value !in Backlog(w)))
    && (forall s :: s in Backlog(w) ==> s in w.issued)
    && Distinct(Backlog(w)) && |Backlog(w)| <= MAX_PENDING_REVOCATIONS
    && w.swept == Backlog(w)
    && w.rolledBack == [] && w.unswept == {} && w.sent == {}
    && w.revoked == [] && w.dropped == [] && w.lost == []
  }

  ghost predicate Distinct(l: seq<Serial>) {
    forall i, j :: 0 <= i < j < |l| ==> l[i] != l[j]
  }

  // ------------------------------------------------------------ all or nothing

  /** The handle a step has made by the time it fails or succeeds, re-keyed if
      StoreCert got as far as installing the leaf. */
  function Made(b: Backend, m: Minting, byo: bool): Option<Handle> {
    if byo then
      if m.rendered && m.container.Some? && m.signed.Some? then Some(Handle(m.container.value, None)) else None
    else if m.rendered && m.authorised && m.container.Some? then
      Some(Handle(m.container.value, if b.storesCert && m.signed.Some? && m.built then m.installed else None))
    else None
  }

  predicate ByOwner(step: Step) {
    step.Seed? && step.y.byo
  }

  ghost predicate StoreInv(w: World) {
    && w.store.containers <= w.seen.containers && w.store.leaves <= w.seen.leaves
    && (forall h :: h in w.rolledBack ==> h.container in w.seen.containers)
    && (w.envelope.Some? ==>
          && Holds(w.store, w.envelope.value.handle)
          && forall h :: h in w.rolledBack ==> h.container != w.envelope.value.handle.container)
  }

  /** `h` is not among the handles the world has ever seen. */
  predicate Unseen(w: World, h: Handle) {
    h.container !in w.seen.containers && (h.leaf.Some? ==> h.leaf.value !in w.seen.leaves)
  }

  function With(st: Store, h: Handle): Store {
    Store(st.containers + {h.container}, st.leaves + if h.leaf.Some? then {h.leaf.value} else {})
  }

  /** The credential exists in the store but not yet in the envelope. */
  ghost predicate Prepared(w: World, w': World, h: Handle) {
    && Unseen(w, h)
    && w'.store == With(w.store, h) && w'.seen == With(w.seen, h)
    && w'.envelope == w.envelope && w'.rolledBack == w.rolledBack
  }

  /** Everything is as before, except for what is left of the abandoned handle. */
  ghost predicate Undone(b: Backend, w: World, w': World, h: Handle, x: Cleanup) {
    && w'.envelope == w.envelope
    && w'.rolledBack == w.rolledBack + [h]
    && StoreInv(w')
    && (b.lifecycle && x == Cleanup(true, true, true) ==> w'.store == w.store)
  }

  lemma AbandonUndoes(b: Backend, w: World, w': World, h: Handle, x: Cleanup)
    requires StoreInv(w) && Prepared(w, w', h)
    ensures Undone(b, w, Abandon(b, w', h, x), h, x)
  {
    var a := Abandon(b, w', h, x);
    assert a.store.containers <= a.seen.containers && a.store.leaves <= a.seen.leaves;
    if b.lifecycle && x == Cleanup(true, true, true) {
      assert a.store.containers == w.store.containers;
      assert a.store.leaves == w.store.leaves;
    }
  }

  lemma CommitReplaces(b: Backend, w: World, w': World, cred: Credential, old_: Option<Handle>, x: Cleanup, w'': World)
    requires StoreInv(w) && Prepared(w, w', cred.handle)
    requires w''.store == Swept(b, w'.store, cred.handle, old_, x) && w''.seen == w'.seen
    requires w''.rolledBack == w'.rolledBack
    requires w''.envelope.Some? && w''.envelope.value.handle == cred.handle
    ensures StoreInv(w'')
  {
  }

  lemma MintPrepares(b: Backend, w: World, m: Minting)
    requires StoreInv(w)
    requires m.container.Some? ==> m.container.value !in w.seen.containers
    requires m.installed.Some? ==> m.installed.value !in w.seen.leaves
    ensures var made := Made(b, m, false);
      match Mint(b, w, m)
      case Ready(w1, cred) => made.Some? && cred.handle == made.value && Prepared(w, w1, made.value)
      case Failed(w1) =>
        if made.None? then w1 == w else Undone(b, w, w1, made.value, m.rollback)
  {
    var made := Made(b, m, false);
    if made.Some? {
      var h := Handle(m.container.value, None);
      var w1 := AddContainer(w, m.container.value);
      assert w1.store == With(w.store, h) && w1.seen == With(w.seen, h);
      AbandonUndoes(b, w, w1, h, m.rollback);
      if m.signed.Some? {
        var w2 := w1.(issued := w1.issued + {m.signed.value});
        AbandonUndoes(b, w, w2, h, m.rollback);
        if m.built && b.storesCert && m.installed.Some? {
          var w3 := AddLeaf(w2, m.installed.value);
          assert w3.store == With(w.store, made.value) && w3.seen == With(w.seen, made.value);
        }
      }
    }
  }

  lemma ImportPrepares(w: World, m: Minting)
    requires StoreInv(w)
    requires m.container.Some? ==> m.container.value !in w.seen.containers
    ensures var made := Made(Backend(false, false), m, true);
      match Import(w, m)
      case Ready(w1, cred) => made.Some? && cred.handle == made.value && Prepared(w, w1, made.value)
      case Failed(w1) => made.None? && w1 == w
  {
    if m.container.Some? {
      var h := Handle(m.container.value, None);
      var w1 := AddContainer(w, m.container.value);
      assert w1.store == With(w.store, h) && w1.seen == With(w.seen, h);
    }
  }

  ghost predicate AllOrNothing(b: Backend, w: World, step: Step) {
    var d := Do(b, w, step);
    var made := Made(b, MintingOf(step), ByOwner(step));
    && StoreInv(d.w)
    && (!d.ok && made.None? ==> d.w == w)
    && (!d.ok && made.Some? ==> Undone(b, w, d.w, made.value, MintingOf(step).rollback))
    && (d.ok && (step.Rotate? ==> w.envelope.Some?) ==>
          && made.Some? && d.w.envelope.Some? && d.w.envelope.value.handle == made.value
          && d.w.envelope.value.serial == MintingOf(step).signed
          && d.w.rolledBack == w.rolledBack)
  }

  /** Rotation and re-seeding are all-or-nothing, for every combination of step
      failures.  On return the envelope names a handle the store holds.  On
      failure the envelope is the old one, and the handle made along the way, if
      any, was given to rollback exactly once, leaving the store as it was when
      the removals worked.  On success the envelope names the new handle, which
      was never rolled back. */
  lemma StepIsAllOrNothing(b: Backend, w: World, step: Step)
    requires StoreInv(w) && Enabled(b, w, step, false)
    ensures AllOrNothing(b, w, step)
  {
    match step {
      case Rotate(x) => RotateIsAllOrNothing(b, w, x);
      case Seed(y) => SeedIsAllOrNothing(b, w, y);
    }
  }

  lemma RotateIsAllOrNothing(b: Backend, w: World, x: Rotation)
    requires StoreInv(w) && Enabled(b, w, Rotate(x), false)
    ensures AllOrNothing(b, w, Rotate(x))
  {
    if w.envelope.Some? {
      MintPrepares(b, w, x.mint);
      match Mint(b, w, x.mint) {
        case Failed(_) =>
        case Ready(w1, cred) =>
          AbandonUndoes(b, w, w1, cred.handle, x.mint.rollback);
          if x.loggedIn && x.saved {
            CommitReplaces(b, w, w1, cred, Some(w.envelope.value.handle), x.sweep, Reissue(b, w, x).w);
          }
      }
    }
  }

  lemma SeedIsAllOrNothing(b: Backend, w: World, y: Seeding)
    requires StoreInv(w) && Enabled(b, w, Seed(y), false)
    ensures AllOrNothing(b, w, Seed(y))
  {
    if y.byo {
      ImportPrepares(w, y.mint);
      if Import(w, y.mint).Ready? {
        SeedFinishes(b, w, y, Import(w, y.mint));
      }
    } else {
      MintPrepares(b, w, y.mint);
      if Mint(b, w, y.mint).Ready? {
        SeedFinishes(b, w, y, Mint(b, w, y.mint));
      }
    }
  }

  lemma SeedFinishes(b: Backend, w: World, y: Seeding, r: Minted)
    requires StoreInv(w) && r == (if y.byo then Import(w, y.mint) else Mint(b, w, y.mint)) && r.Ready?
    requires var made := Made(b, y.mint, y.byo);
      made.Some? && r.cred.handle == made.value && r.cred.serial == y.mint.signed && Prepared(w, r.w, made.value)
    ensures AllOrNothing(b, w, Seed(y))
  {
    var old_ := if y.readable then w.envelope else None;
    var oldHandle := if old_.Some? then Some(old_.value.handle) else None;
    if y.loggedIn && y.saved {
      CommitReplaces(b, w, r.w, r.cred, oldHandle, y.sweep, Reseed(b, w, y).w);
    } else {
      AbandonUndoes(b, w, r.w, r.cred.handle, y.mint.rollback);
    }
  }

  /** A rotation whose sweep worked leaves nothing of the old credential in a
      store that accumulates state. */
  lemma SweepRemovesTheOld(b: Backend, w: World, x: Rotation)
    requires StoreInv(w) && Enabled(b, w, Rotate(x), false) && b.lifecycle && w.envelope.Some?
    requires var made := Made(b, x.mint, false);
      made.Some? && Reissue(b, w, x).ok && SweepOk(b, made.value, Some(w.envelope.value.handle), x.sweep)
    ensures var st := Reissue(b, w, x).w.store;
      var old_ := w.envelope.value.handle;
      old_.container !in st.containers && (old_.leaf.Some? ==> old_.leaf.value !in st.leaves)
  {
    MintPrepares(b, w, x.mint);
  }

  lemma {:induction false} RunKeepsStoreInv(b: Backend, w: World, steps: seq<Step>)
    requires StoreInv(w) && IsRun(b, w, steps, false)
    ensures StoreInv(Exec(b, w, steps))
    decreases |steps|
  {
    if steps != [] {
      StepIsAllOrNothing(b, w, steps[0]);
      RunKeepsStoreInv(b, Do(b, w, steps[0]).w, steps[1..]);
    }
  }

  /** Over any run of rotations and re-seedings the envelope names a handle the
      store holds and rollback was never given. */
  lemma {:induction false} EnvelopeIsAlwaysUsable(b: Backend, w: World, steps: seq<Step>)
    requires Initial(w) && IsRun(b, w, steps, false)
    ensures var e := Exec(b, w, steps);
      e.envelope.Some? ==>
        && Holds(e.store, e.envelope.value.handle)
        && e.envelope.value.handle !in e.rolledBack
  {
    RunKeepsStoreInv(b, w, steps);
  }

  // ------------------------------------------------------- when a step succeeds

  predicate MintWorks(b: Backend, m: Minting) {
    && m.rendered && m.authorised && m.container.Some? && m.signed.Some? && m.built
    && (b.storesCert ==> m.installed.Some?)
  }

  predicate ImportWorks(m: Minting) {
    m.rendered && m.container.Some? && m.signed.Some?
  }

  /** Every part of the step that can fail it worked. */
  predicate Works(b: Backend, step: Step) {
    match step
    case Rotate(x) => MintWorks(b, x.mint) && x.loggedIn && x.saved
    case Seed(y) => (if y.byo then ImportWorks(y.mint) else MintWorks(b, y.mint)) && y.loggedIn && y.saved
  }

  /** A rotation of an enrolled host, or a re-seeding, succeeds exactly if every step of
      the minting or import, the login with the new certificate and the first save of
      the envelope worked; the sweep, the revocations and the second save do not count. */
  lemma StepSucceedsExactly(b: Backend, w: World, step: Step)
    requires step.Rotate? ==> w.envelope.Some?
    ensures Do(b, w, step).ok <==> Works(b, step)
  {
    MintSucceedsExactly(b, w, MintingOf(step));
  }

  lemma MintSucceedsExactly(b: Backend, w: World, m: Minting)
    ensures Mint(b, w, m).Ready? <==> MintWorks(b, m)
    ensures Import(w, m).Ready? <==> ImportWorks(m)
  {
  }

  /** The credential the step supersedes, and how its artefacts go. */
  function Superseded(w: World, step: Step): Option<Handle> {
    if w.envelope.Some? && (step.Seed? ==> step.y.readable) then Some(w.envelope.value.handle) else None
  }

  function SweepOf(step: Step): Cleanup {
    match step
    case Rotate(x) => x.sweep
    case Seed(y) => y.sweep
  }

  function Gone(b: Backend, old_: Option<Handle>, x: Cleanup): Store {
    if !b.lifecycle || old_.None? || !x.decoded then Store({}, {})
    else Store(if x.containerGone then {old_.value.container} else {},
               if x.leafGone && old_.value.leaf.Some? then {old_.value.leaf.value} else {})
  }

  /** What the store holds after a step that succeeds: what it held, and the new
      credential, less what the sweep removed of the superseded one. */
  lemma StoreAfterSuccess(b: Backend, w: World, step: Step)
    requires StoreInv(w) && Enabled(b, w, step, false) && (step.Rotate? ==> w.envelope.Some?)
    requires Do(b, w, step).ok
    ensures var st := Do(b, w, step).w.store;
      var new_ := Made(b, MintingOf(step), ByOwner(step)).value;
      var gone := Gone(b, Superseded(w, step), SweepOf(step));
      && Made(b, MintingOf(step), ByOwner(step)).Some?
      && st.containers == w.store.containers - gone.containers + {new_.container}
      && st.leaves == w.store.leaves - gone.leaves + (if new_.leaf.Some? then {new_.leaf.value} else {})
  {
    var m := MintingOf(step);
    var made := Made(b, m, ByOwner(step));
    MintPrepares(b, w, m);
    ImportPrepares(w, m);
    var r := if ByOwner(step) then Import(w, m) else Mint(b, w, m);
    CommitLeaves(b, w, r.w, made.value, Superseded(w, step), SweepOf(step));
  }

  lemma CommitLeaves(b: Backend, w: World, w': World, new_: Handle, old_: Option<Handle>, x: Cleanup)
    requires StoreInv(w) && Prepared(w, w', new_) && (old_.Some? ==> Holds(w.store, old_.value))
    ensures var st := Swept(b, w'.store, new_, old_, x);
      && st.containers == w.store.containers - Gone(b, old_, x).containers + {new_.container}
      && st.leaves == w.store.leaves - Gone(b, old_, x).leaves + (if new_.leaf.Some? then {new_.leaf.value} else {})
  {
  }

  /** What it holds after one that fails with a credential already made: what it held,
      and whatever the rollback could not remove. */
  lemma StoreAfterFailure(b: Backend, w: World, step: Step)
    requires StoreInv(w) && Enabled(b, w, step, false) && (step.Rotate? ==> w.envelope.Some?)
    requires !Do(b, w, step).ok && Made(b, MintingOf(step), ByOwner(step)).Some?
    ensures var st := Do(b, w, step).w.store;
      var new_ := Made(b, MintingOf(step), ByOwner(step)).value;
      var gone := Gone(b, Some(new_), MintingOf(step).rollback);
      && st.containers == w.store.containers + ({new_.container} - gone.containers)
      && st.leaves == w.store.leaves + ((if new_.leaf.Some? then {new_.leaf.value} else {}) - gone.leaves)
  {
    var m := MintingOf(step);
    var made := Made(b, m, ByOwner(step)).value;
    MintPrepares(b, w, m);
    ImportPrepares(w, m);
    MintFailureLeaves(b, w, m);
  }

  lemma MintFailureLeaves(b: Backend, w: World, m: Minting)
    requires StoreInv(w)
    requires m.container.Some? ==> m.container.value !in w.seen.containers
    requires m.installed.Some? ==> m.installed.value !in w.seen.leaves
    ensures Mint(b, w, m).Failed? && Made(b, m, false).Some? ==>
      var made := Made(b, m, false).value;
      && Mint(b, w, m).w.store == Abandon(b, w.(store := With(w.store, made)), made, m.rollback).store
  {
    if m.container.Some? {
      assert AddContainer(w, m.container.value).store == With(w.store, Handle(m.container.value, None));
    }
  }
}
