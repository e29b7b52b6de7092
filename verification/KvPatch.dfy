/** `dotvault kv patch` (cmd/dotvault/kv.go): read a secret, set and remove fields,
    write it back under check-and-set, and retry a lost race, while other writers
    act on the same secret at any moment. */
module KvPatch {
  import opened Wrappers

  const CAS_ATTEMPTS := 3

  type Field = string
  type Data = map<Field, string>

  // ------------------------------------------------------------ the secret

  datatype Secret = Absent | Live(version: nat, data: Data) | Deleted(version: nat)

  /** `life` counts how often the secret's metadata, and with it the version
      counter, has been destroyed. */
  datatype Store = Store(life: nat, secret: Secret) {
    function Version(): nat {
      if secret.Absent? then 0 else secret.version
    }
  }

  /** What another writer can do. */
  datatype Action = Put(data: Data) | SoftDelete | Destroy

  function Act(s: Store, a: Action): Store {
    match a
    case Put(data) => s.(secret := Live(s.Version() + 1, data))
    case SoftDelete => if s.secret.Live? then s.(secret := Deleted(s.secret.version)) else s
    case Destroy => Store(s.life + 1, Absent)
  }

  function Others(s: Store, actions: seq<Action>): Store {
    if actions == [] then s else Act(Others(s, actions[..|actions| - 1]), actions[|actions| - 1])
  }

  // ----------------------------------------------------------- the request

  datatype Request = Request(pathOk: bool, managed: bool, assign: Data, remove: seq<Field>, dryRun: bool)

  datatype Problem =
    | BadPath
    | Managed
    | RemovedTwice(field: Field)
    | SetAndRemoved(field: Field)
    | ReadFailed
    | NoSecret
    | NoSuchField(field: Field)
    | WouldEmpty
    | Conflict
    | WriteFailed

  datatype Result = Patched | DryRun | Error(problem: Problem)

  predicate WellFormed(req: Request, n: nat)
    requires n <= |req.remove|
  {
    forall i :: 0 <= i < n ==> req.remove[i] !in req.remove[..i] && req.remove[i] !in req.assign
  }

  /** What is wrong with the request itself: the first offending --remove. */
  ghost predicate Rejects(req: Request, p: Problem) {
    if !req.pathOk then p == BadPath
    else if req.managed then p == Managed
    else exists i :: 0 <= i < |req.remove| && WellFormed(req, i) && Offends(req, i, p)
  }

  predicate Offends(req: Request, i: nat, p: Problem)
    requires i < |req.remove|
  {
    if req.remove[i] in req.remove[..i] then p == RemovedTwice(req.remove[i])
    else req.remove[i] in req.assign && p == SetAndRemoved(req.remove[i])
  }

  predicate Acceptable(req: Request) {
    req.pathOk && !req.managed && WellFormed(req, |req.remove|)
  }

  // ------------------------------------------------------------- the merge

  function Fields(remove: seq<Field>): set<Field> {
    set f | f in remove
  }

  function Merged(data: Data, req: Request): Data {
    (data + req.assign) - Fields(req.remove)
  }

  /** The first field to remove that the secret does not have. */
  function FirstMissing(data: Data, remove: seq<Field>): Option<Field> {
    if remove == [] then None
    else if remove[0] !in data then Some(remove[0])
    else FirstMissing(data, remove[1..])
  }

  // ----------------------------------------------------------- one attempt

  datatype Fault = Fine | Refused | ReplyLost

  /** One attempt's answer, given the secret when it read, when it wrote, and how
      its calls fared. */
  function Attempt(read: Store, write: Store, req: Request, readFails: bool, fault: Fault): Result {
    if readFails then Error(ReadFailed)
    else if !read.secret.Live? then Error(NoSecret)
    else if FirstMissing(read.secret.data, req.remove).Some? then
      Error(NoSuchField(FirstMissing(read.secret.data, req.remove).value))
    else if Merged(read.secret.data, req) == map[] then Error(WouldEmpty)
    else if req.dryRun then DryRun
    else if fault == Refused then Error(WriteFailed)
    else if write.Version() != read.secret.version then Error(Conflict)
    else if fault == ReplyLost then Error(WriteFailed)
    else Patched
  }

  /** It sent a write that was accepted, whether or not the reply arrived. */
  predicate Lands(read: Store, write: Store, req: Request, readFails: bool, fault: Fault) {
    var r := Attempt(read, write, req, readFails, fault);
    r == Patched || (r == Error(WriteFailed) && fault == ReplyLost)
  }

  function Left(read: Store, write: Store, req: Request, readFails: bool, fault: Fault): Store {
    if Lands(read, write, req, readFails, fault) then
      write.(secret := Live(read.secret.version + 1, Merged(read.secret.data, req)))
    else write
  }

  // ---------------------------------------------------------- the whole run

  /** What happens around a run: gap(2k) before its k-th read, gap(2k + 1) between
      that read and the write, and how each call fares. */
  datatype Setting = Setting(gap: nat -> seq<Action>, readFails: nat -> bool, fault: nat -> Fault)

  /** The secret as the other writers alone leave it after `n` gaps. */
  function After(s: Store, x: Setting, n: nat): Store {
    if n == 0 then s else Others(After(s, x, n - 1), x.gap(n - 1))
  }

  function AttemptAt(s: Store, req: Request, x: Setting, k: nat): Result {
    Attempt(After(s, x, 2 * k + 1), After(s, x, 2 * k + 2), req, x.readFails(k), x.fault(k))
  }

  /** The attempt got as far as sending its write. */
  predicate Wrote(r: Result) {
    r == Patched || r == Error(Conflict) || r == Error(WriteFailed)
  }

  /** The store once attempt `k` has ended the run. An attempt that ends before
      writing leaves no gap after its read. */
  function StoreAt(s: Store, req: Request, x: Setting, k: nat): Store {
    if Wrote(AttemptAt(s, req, x, k)) then
      Left(After(s, x, 2 * k + 1), After(s, x, 2 * k + 2), req, x.readFails(k), x.fault(k))
    else After(s, x, 2 * k + 1)
  }

  class Vault {
    var store: Store
    var writes: nat    // check-and-set writes received

    constructor (s: Store)
      ensures store == s && writes == 0
    {
      store, writes := s, 0;
    }

    method Interfere(actions: seq<Action>)
      modifies this`store
      ensures store == Others(old(store), actions)
    {
      for i := 0 to |actions|
        invariant store == Others(old(store), actions[..i])
      {
        assert actions[..i + 1][..i] == actions[..i];
        store := Act(store, actions[i]);
      }
      assert actions[..|actions|] == actions;
    }

    /** The write lands only if the secret is still at version `cas`. */
    method WriteCAS(data: Data, cas: nat, fault: Fault) returns (p: Option<Problem>)
      modifies this
      ensures writes == old(writes) + 1
      ensures p == if fault == Refused then Some(WriteFailed)
                   else if old(store.Version()) != cas then Some(Conflict)
                   else if fault == ReplyLost then Some(WriteFailed) else None
      ensures store == if fault != Refused && old(store.Version()) == cas
                       then old(store).(secret := Live(cas + 1, data)) else old(store)
    {
      writes := writes + 1;
      if fault == Refused {
        return Some(WriteFailed);
      }
      if store.Version() != cas {
        return Some(Conflict);
      }
      store := store.(secret := Live(cas + 1, data));
      return if fault == ReplyLost then Some(WriteFailed) else None;
    }
  }

  method Validate(req: Request) returns (p: Option<Problem>)
    ensures p.Some? ==> Rejects(req, p.value)
    ensures p.None? <==> Acceptable(req)
  {
    if !req.pathOk {
      return Some(BadPath);
    }
    if req.managed {
      return Some(Managed);
    }
    var removing: set<Field> := {};
    for i := 0 to |req.remove|
      invariant removing == Fields(req.remove[..i])
      invariant WellFormed(req, i)
    {
      var k := req.remove[i];
      assert k in removing <==> k in req.remove[..i];
      assert req.remove[..i + 1] == req.remove[..i] + [k];
      if k in removing {
        return Some(RemovedTwice(k));
      }
      removing := removing + {k};
      if k in req.assign {
        return Some(SetAndRemoved(k));
      }
    }
    return None;
  }

  /** The fields to write, or the one that cannot be removed. */
  method Merge(data: Data, req: Request) returns (merged: Data, missing: Option<Field>)
    requires Acceptable(req)
    ensures missing == FirstMissing(data, req.remove)
    ensures missing.None? ==> merged == Merged(data, req)
  {
    merged := data + req.assign;
    var i := 0;
    while i < |req.remove|
      invariant 0 <= i <= |req.remove|
      invariant merged == (data + req.assign) - Fields(req.remove[..i])
      invariant FirstMissing(data, req.remove) == FirstMissing(data, req.remove[i..])
    {
      var k := req.remove[i];
      assert req.remove[i..][1..] == req.remove[i + 1..];
      assert req.remove[..i + 1] == req.remove[..i] + [k];
      if k !in merged {
        return merged, Some(k);
      }
      merged := merged - {k};
      i := i + 1;
    }
    assert req.remove[i..] == [] && req.remove[..i] == req.remove;
    missing := None;
  }

  /** One pass of the retry loop. */
  method Try(vault: Vault, req: Request, beforeRead: seq<Action>, beforeWrite: seq<Action>, readFails: bool, fault: Fault) returns (r: Result)
    requires Acceptable(req)
    modifies vault
    ensures var read := Others(old(vault.store), beforeRead);
      var write := Others(read, beforeWrite);
      && r == Attempt(read, write, req, readFails, fault)
      && vault.store == if Wrote(r) then Left(read, write, req, readFails, fault) else read
    ensures vault.writes == old(vault.writes) + if Wrote(r) then 1 else 0
  {
    vault.Interfere(beforeRead);
    ghost var read := vault.store;
    if readFails {
      return Error(ReadFailed);
    }
    var sec := vault.store.secret;
    if !sec.Live? {
      return Error(NoSecret);
    }
    var merged, missing := Merge(sec.data, req);
    if missing.Some? {
      return Error(NoSuchField(missing.value));
    }
    if merged == map[] {
      return Error(WouldEmpty);
    }
    if req.dryRun {
      return DryRun;
    }
    vault.Interfere(beforeWrite);
    ghost var write := vault.store;
    var p := vault.WriteCAS(merged, sec.version, fault);
    r := if p.None? then Patched else Error(p.value);
    assert r == Attempt(read, write, req, readFails, fault);
    assert vault.store == Left(read, write, req, readFails, fault);
  }

  /** The patch, against a run of other writers. `last` is the attempt that ends it. */
  method Patch(vault: Vault, req: Request, x: Setting) returns (r: Result, ghost last: nat)
    modifies vault
    ensures !Acceptable(req) ==>
      && r.Error? && Rejects(req, r.problem)
      && vault.store == old(vault.store) && vault.writes == old(vault.writes)
    ensures Acceptable(req) ==>
      && last < 3
      && (forall k :: 0 <= k < last ==> AttemptAt(old(vault.store), req, x, k) == Error(Conflict))
      && r == AttemptAt(old(vault.store), req, x, last)
      && (r == Error(Conflict) ==> last == 2)
      && vault.store == StoreAt(old(vault.store), req, x, last)
      && vault.writes == old(vault.writes) + last + if Wrote(r) then 1 else 0
  {
    last := 0;
    var problem := Validate(req);
    if problem.Some? {
      return Error(problem.value), last;
    }
    var attempt := 0;
    ghost var s := vault.store;
    while true
      invariant 0 <= attempt < CAS_ATTEMPTS
      invariant vault.store == After(s, x, 2 * attempt)
      invariant vault.writes == old(vault.writes) + attempt
      invariant forall k :: 0 <= k < attempt ==> AttemptAt(s, req, x, k) == Error(Conflict)
      decreases CAS_ATTEMPTS - attempt
    {
      last := attempt;
      GapsAround(s, x, attempt);
      r := Try(vault, req, x.gap(2 * attempt), x.gap(2 * attempt + 1), x.readFails(attempt), x.fault(attempt));
      assert r == AttemptAt(s, req, x, attempt) && vault.store == StoreAt(s, req, x, attempt);
      if r != Error(Conflict) || attempt + 1 >= CAS_ATTEMPTS {
        return r, last;
      }
      attempt := attempt + 1;
    }
  }

  lemma GapsAround(s: Store, x: Setting, k: nat)
    ensures After(s, x, 2 * k + 1) == Others(After(s, x, 2 * k), x.gap(2 * k))
    ensures After(s, x, 2 * k + 2) == Others(After(s, x, 2 * k + 1), x.gap(2 * k + 1))
  {
  }

  // ------------------------------------------------- what one patch promises

  /** A patch that reports success has replaced version v by version v + 1: the fields
      it sets are set, those it removes are gone, every other is as version v had it. */
  lemma PatchedExactly(s: Store, req: Request, x: Setting, k: nat)
    requires Acceptable(req) && AttemptAt(s, req, x, k) == Patched
    ensures var read, left := After(s, x, 2 * k + 1), StoreAt(s, req, x, k);
      && read.secret.Live? && left.secret.Live?
      && After(s, x, 2 * k + 2).Version() == read.secret.version
      && left.secret.version == read.secret.version + 1
      && (forall f :: f in req.assign ==> f in left.secret.data && left.secret.data[f] == req.assign[f])
      && (forall f :: f in req.remove ==> f in read.secret.data && f !in left.secret.data)
      && (forall f :: f !in req.assign && f !in req.remove ==>
            (f in left.secret.data <==> f in read.secret.data)
            && (f in read.secret.data ==> left.secret.data[f] == read.secret.data[f]))
  {
    NothingMissing(After(s, x, 2 * k + 1).secret.data, req.remove);
  }

  lemma {:induction false} NothingMissing(data: Data, remove: seq<Field>)
    ensures FirstMissing(data, remove).None? <==> forall f :: f in remove ==> f in data
    ensures FirstMissing(data, remove).Some? ==> FirstMissing(data, remove).value !in data
  {
    if remove != [] {
      NothingMissing(data, remove[1..]);
      assert remove == [remove[0]] + remove[1..];
    }
  }

  /** What each refusal before the write means, in terms of the secret as read. */
  lemma RefusedExactly(read: Store, write: Store, req: Request, fault: Fault)
    requires Acceptable(req)
    ensures var r := Attempt(read, write, req, false, fault);
      && (r == Error(NoSecret) <==> !read.secret.Live?)
      && (forall i :: 0 <= i < |req.remove| && read.secret.Live? ==>
            (r == Error(NoSuchField(req.remove[i])) <==>
               && req.remove[i] !in read.secret.data
               && forall j :: 0 <= j < i ==> req.remove[j] in read.secret.data))
      && (r == Error(WouldEmpty) <==>
            read.secret.Live? && req.assign == map[] && read.secret.data.Keys == Fields(req.remove))
  {
    if read.secret.Live? {
      var data := read.secret.data;
      NothingMissing(data, req.remove);
      forall i | 0 <= i < |req.remove|
        ensures FirstMissing(data, req.remove) == Some(req.remove[i]) <==>
          req.remove[i] !in data && forall j :: 0 <= j < i ==> req.remove[j] in data
      {
        FirstMissingIsFirst(data, req.remove, i);
      }
      EmptyOnlyIfAllRemoved(data, req);
    }
  }

  lemma {:induction false} FirstMissingIsFirst(data: Data, remove: seq<Field>, i: nat)
    requires i < |remove| && remove[i] !in remove[..i]
    ensures FirstMissing(data, remove) == Some(remove[i]) <==>
      remove[i] !in data && forall j :: 0 <= j < i ==> remove[j] in data
  {
    NothingMissing(data, remove);
    if i > 0 {
      assert remove[1..][..i - 1] == remove[..i][1..] && remove[0] == remove[..i][0];
      assert forall j :: 0 < j <= i ==> remove[j] == remove[1..][j - 1];
      FirstMissingIsFirst(data, remove[1..], i - 1);
    }
  }

  lemma EmptyOnlyIfAllRemoved(data: Data, req: Request)
    requires Acceptable(req)
    ensures Merged(data, req) == map[] && (forall f :: f in req.remove ==> f in data)
       <==> req.assign == map[] && data.Keys == Fields(req.remove)
  {
    var merged := Merged(data, req);
    assert forall f :: f in req.assign ==> f !in Fields(req.remove) && f in merged;
    assert forall f :: f in data ==> f in Fields(req.remove) || f in merged;
  }

  /** The patch can be made of what was read: there is a secret, it has every field to
      be removed, and a field is left. */
  predicate Mergeable(read: Store, req: Request) {
    && read.secret.Live? && (forall f :: f in req.remove ==> f in read.secret.data)
    && !(req.assign == map[] && read.secret.data.Keys == Fields(req.remove))
  }

  /** What an attempt answers, in terms of what it read and of the version at the write:
      it succeeds exactly if its write is taken and heard of, and is to be tried again
      exactly if the version had moved. */
  lemma AnswersExactly(read: Store, write: Store, req: Request, readFails: bool, fault: Fault)
    requires Acceptable(req)
    ensures var r := Attempt(read, write, req, readFails, fault);
      var sends := !readFails && Mergeable(read, req) && !req.dryRun;
      && (r == Error(ReadFailed) <==> readFails)
      && (r == DryRun <==> !readFails && Mergeable(read, req) && req.dryRun)
      && (r == Patched <==> sends && fault == Fine && write.Version() == read.Version())
      && (r == Error(Conflict) <==> sends && fault != Refused && write.Version() != read.Version())
      && (r == Error(WriteFailed) <==>
            sends && (fault == Refused || (fault == ReplyLost && write.Version() == read.Version())))
  {
    if read.secret.Live? {
      NothingMissing(read.secret.data, req.remove);
      EmptyOnlyIfAllRemoved(read.secret.data, req);
    }
  }

  /** An attempt nobody interferes with, whose calls work, succeeds. */
  lemma QuietAttemptSucceeds(s: Store, req: Request, x: Setting, k: nat)
    requires Acceptable(req) && !req.dryRun && Mergeable(After(s, x, 2 * k + 1), req)
    requires x.gap(2 * k + 1) == [] && !x.readFails(k) && x.fault(k) == Fine
    ensures AttemptAt(s, req, x, k) == Patched
  {
    AnswersExactly(After(s, x, 2 * k + 1), After(s, x, 2 * k + 2), req, false, Fine);
  }

  /** The run leaves the secret to the other writers alone if and only if it neither
      reports success nor sent a write whose acceptance it did not hear of. */
  lemma OnlySuccessChanges(s: Store, req: Request, x: Setting, k: nat)
    ensures var r, others := AttemptAt(s, req, x, k), After(s, x, if Wrote(AttemptAt(s, req, x, k)) then 2 * k + 2 else 2 * k + 1);
      StoreAt(s, req, x, k) == others
      <==> r != Patched && !(r == Error(WriteFailed) && x.fault(k) == ReplyLost)
  {
  }

  predicate Deletes(a: Action) {
    a.SoftDelete? || a.Destroy?
  }

  lemma {:induction false} PutsMoveOn(s: Store, actions: seq<Action>)
    requires forall i :: 0 <= i < |actions| ==> actions[i].Put?
    ensures Others(s, actions).life == s.life
    ensures Others(s, actions).Version() == s.Version() + |actions|
  {
    if actions != [] {
      PutsMoveOn(s, actions[..|actions| - 1]);
    }
  }

  lemma {:induction false} LivesOnlyGrow(s: Store, actions: seq<Action>)
    ensures Others(s, actions).life >= s.life
    ensures Others(s, actions).life == s.life <==> forall i :: 0 <= i < |actions| ==> !actions[i].Destroy?
    ensures Others(s, actions).life == s.life ==> Others(s, actions).Version() >= s.Version()
  {
    if actions != [] {
      LivesOnlyGrow(s, actions[..|actions| - 1]);
      assert forall i :: 0 <= i < |actions| - 1 ==> actions[..|actions| - 1][i] == actions[i];
    }
  }

  /** Within one life, a version once deleted stays deleted. */
  lemma {:induction false} DeletedStays(s: Store, actions: seq<Action>, i: nat)
    requires s.secret.Live? && i < |actions| && actions[i].SoftDelete?
    requires Others(s, actions).life == s.life && Others(s, actions).Version() == s.Version()
    ensures Others(s, actions).secret.Deleted?
  {
    var before := actions[..|actions| - 1];
    LivesOnlyGrow(s, actions);
    LivesOnlyGrow(s, before);
    assert forall j :: 0 <= j < |before| ==> before[j] == actions[j];
    if i < |before| {
      DeletedStays(s, before, i);
    } else {
      NeverAbsent(s, before);
    }
  }

  lemma {:induction false} NeverAbsent(s: Store, actions: seq<Action>)
    requires !s.secret.Absent? && forall i :: 0 <= i < |actions| ==> !actions[i].Destroy?
    ensures !Others(s, actions).secret.Absent?
  {
    if actions != [] {
      NeverAbsent(s, actions[..|actions| - 1]);
    }
  }

  /** The version check is passed and the secret is still exactly the one read, if
      and only if no deletion landed in between: then nobody's update is lost.  Its
      life is part of the one read: after a Destroy, even equal data put back at the
      same version is another secret. */
  lemma CheckedExactly(read: Store, actions: seq<Action>)
    requires read.secret.Live? && Others(read, actions).Version() == read.Version()
    ensures Others(read, actions) == read <==> forall i :: 0 <= i < |actions| ==> !Deletes(actions[i])
  {
    if forall i :: 0 <= i < |actions| ==> !Deletes(actions[i]) {
      assert forall i :: 0 <= i < |actions| ==> actions[i].Put?;
      PutsMoveOn(read, actions);
      assert actions == [];
    } else {
      var i :| 0 <= i < |actions| && Deletes(actions[i]);
      LivesOnlyGrow(read, actions);
      if actions[i].SoftDelete? && Others(read, actions).life == read.life {
        DeletedStays(read, actions, i);
      }
    }
  }

  /** A delete that destroys the metadata restarts the versions, so a secret put
      back in its place can be overwritten by a patch of the one before. */
  lemma RecreatedSecretIsOverwritten()
    ensures var read := Store(0, Live(1, map["a" := "old"]));
      var write := Others(read, [Destroy, Put(map["b" := "new"])]);
      var req := Request(true, false, map["c" := "x"], [], false);
      && write.secret == Live(1, map["b" := "new"])
      && Attempt(read, write, req, false, Fine) == Patched
      && Left(read, write, req, false, Fine).secret == Live(2, map["a" := "old", "c" := "x"])
  {
    var read := Store(0, Live(1, map["a" := "old"]));
    var actions := [Destroy, Put(map["b" := "new"])];
    assert actions[..|actions| - 1] == [Destroy];
    assert [Destroy][..0] == [];
    assert Others(read, [Destroy]) == Store(1, Absent);
    assert Others(read, actions) == Store(1, Live(1, map["b" := "new"]));
    var req := Request(true, false, map["c" := "x"], [], false);
    assert Merged(read.secret.data, req) == map["a" := "old", "c" := "x"];
    assert FirstMissing(read.secret.data, req.remove) == None;
    assert "a" in Merged(read.secret.data, req);
  }

  /** A conflict is reported only when every attempt was raced: in each of the gaps
      between a read and its write the version was moved. */
  lemma ConflictMeansRivals(s: Store, req: Request, x: Setting, k: nat)
    requires AttemptAt(s, req, x, k) == Error(Conflict)
    ensures exists a :: a in x.gap(2 * k + 1) && !a.SoftDelete?
  {
    var actions := x.gap(2 * k + 1);
    if forall i :: 0 <= i < |actions| ==> actions[i].SoftDelete? {
      SoftDeletesKeepTheVersion(After(s, x, 2 * k + 1), actions);
    }
  }

  lemma {:induction false} SoftDeletesKeepTheVersion(s: Store, actions: seq<Action>)
    requires forall i :: 0 <= i < |actions| ==> actions[i].SoftDelete?
    ensures Others(s, actions).Version() == s.Version()
  {
    if actions != [] {
      SoftDeletesKeepTheVersion(s, actions[..|actions| - 1]);
    }
  }
}
