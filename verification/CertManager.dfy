/** Certificate rotation in the form the source gives it: steps over a mutable
    store and envelope, with a deferred rollback until the replacement commits.
    Each method is proved against the functions of CertRotation. */
module CertManagement {
  import opened Wrappers
  import opened CertRotation

  class Manager {
    const b: Backend
    var store: Store
    var envelope: Option<Credential>

    ghost var seen: Store
    ghost var issued: set<Serial>
    ghost var rolledBack: seq<Handle>
    ghost var swept: seq<Serial>
    ghost var unswept: set<Serial>
    ghost var sent: set<Serial>
    ghost var revoked: seq<Serial>
    ghost var dropped: seq<Serial>
    ghost var lost: seq<Serial>

    ghost function Snapshot(): World
      reads this
    {
      World(store, envelope, seen, issued, rolledBack, swept, unswept, sent, revoked, dropped, lost)
    }

    constructor (b: Backend, ghost w: World, store: Store, envelope: Option<Credential>)
      requires w.store == store && w.envelope == envelope
      ensures this.b == b && Snapshot() == w
    {
      this.b, this.store, this.envelope := b, store, envelope;
      seen, issued, rolledBack, swept, unswept := w.seen, w.issued, w.rolledBack, w.swept, w.unswept;
      sent, revoked, dropped, lost := w.sent, w.revoked, w.dropped, w.lost;
    }

    // ------------------------------------------------------------ store steps

    method GenerateKey(container: nat)
      modifies this`store, this`seen
      ensures Snapshot() == AddContainer(old(Snapshot()), container)
    {
      store := store.(containers := store.containers + {container});
      seen := seen.(containers := seen.containers + {container});
    }

    method InstallLeaf(leaf: nat)
      modifies this`store, this`seen
      ensures Snapshot() == AddLeaf(old(Snapshot()), leaf)
    {
      store := store.(leaves := store.leaves + {leaf});
      seen := seen.(leaves := seen.leaves + {leaf});
    }

    /** discard: the two removals are independent, and one failing does not stop the other. */
    method Remove(container: Option<nat>, leaf: Option<nat>, x: Cleanup) returns (ok: bool)
      modifies this`store
      ensures Snapshot() == old(Snapshot()).(store := Discard(old(store), container, leaf, x))
      ensures ok == ((container.Some? ==> x.containerGone) && (leaf.Some? ==> x.leafGone))
    {
      ok := true;
      if container.Some? {
        if x.containerGone {
          store := store.(containers := store.containers - {container.value});
        } else {
          ok := false;
        }
      }
      if leaf.Some? {
        if x.leafGone {
          store := store.(leaves := store.leaves - {leaf.value});
        } else {
          ok := false;
        }
      }
    }

    method CommitRotation(new_: Handle, old_: Option<Handle>, x: Cleanup) returns (ok: bool)
      modifies this`store
      ensures Snapshot() == old(Snapshot()).(store := Swept(b, old(store), new_, old_, x))
      ensures ok == SweepOk(b, new_, old_, x)
    {
      if !b.lifecycle || old_.None? {
        return true;
      }
      if !x.decoded {
        return false;
      }
      ok := Remove(OldContainer(new_, old_.value), OldLeaf(new_, old_.value), x);
    }

    method RollbackRotation(h: Handle, x: Cleanup)
      modifies this`store, this`rolledBack
      ensures Snapshot() == Abandon(b, old(Snapshot()), h, x)
    {
      rolledBack := rolledBack + [h];
      if b.lifecycle && x.decoded {
        var _ := Remove(Some(h.container), h.leaf, x);
      }
    }

    // ---------------------------------------------------------------- minting

    /** Generate, sign, build and install; whatever was made is rolled back unless
        the credential is handed to the caller. */
    method MintCredential(m: Minting) returns (cred: Option<Credential>)
      modifies this
      ensures cred.None? ==> Mint(b, old(Snapshot()), m) == Failed(Snapshot())
      ensures cred.Some? ==> Mint(b, old(Snapshot()), m) == Ready(Snapshot(), cred.value)
    {
      cred := None;
      if !m.rendered || !m.authorised || m.container.None? {
        return;
      }
      GenerateKey(m.container.value);
      var newHandle := Handle(m.container.value, None);
      label attempt: {
        if m.signed.None? {
          break attempt;
        }
        issued := issued + {m.signed.value};
        if !m.built {
          break attempt;
        }
        var built := Credential(newHandle, m.signed, []);
        if b.storesCert {
          if m.installed.None? {
            break attempt;
          }
          InstallLeaf(m.installed.value);
          built := built.(handle := newHandle.(leaf := m.installed));
        }
        cred := Some(built);
      }
      if cred.None? {
        RollbackRotation(newHandle, m.rollback);
      }
    }

    method ImportOwn(m: Minting) returns (cred: Option<Credential>)
      modifies this
      ensures cred.None? ==> Import(old(Snapshot()), m) == Failed(Snapshot())
      ensures cred.Some? ==> Import(old(Snapshot()), m) == Ready(Snapshot(), cred.value)
    {
      if !m.rendered || m.container.None? || m.signed.None? {
        return None;
      }
      GenerateKey(m.container.value);
      issued := issued + {m.signed.value};
      return Some(Credential(Handle(m.container.value, None), m.signed, []));
    }

    // ------------------------------------------------------------- revocation

    /** retireSupersededCertificates: returns the serials still outstanding. */
    method RetireSuperseded(old_: Credential, gone: bool, x: Rotation) returns (pending: seq<Serial>)
      modifies this`swept, this`unswept, this`sent, this`revoked, this`dropped
      ensures pending == StillPending(old_, gone, x.skipRevoke, x.refused)
      ensures Snapshot() == Retire(old(Snapshot()), old_, gone, x)
    {
      var outstanding := old_.backlog;
      if !gone {
        if old_.serial.Some? {
          unswept := unswept + {old_.serial.value};
        }
      } else if old_.serial.Some? {
        outstanding := outstanding + [old_.serial.value];
      }
      assert outstanding == Outstanding(old_, gone);
      swept := swept + outstanding[|old_.backlog|..];
      dropped := dropped + CutOff(outstanding);
      outstanding := Capped(outstanding);
      if x.skipRevoke {
        return outstanding;
      }
      pending := RevokeEach(outstanding, x.refused);
    }

    method RevokeEach(serials: seq<Serial>, refused: set<Serial>) returns (failed: seq<Serial>)
      modifies this`sent, this`revoked
      ensures failed == Only(serials, refused)
      ensures sent == old(sent) + (set s | s in serials)
      ensures revoked == old(revoked) + Except(serials, refused)
    {
      failed := [];
      for i := 0 to |serials|
        invariant failed == Only(serials[..i], refused)
        invariant revoked == old(revoked) + Except(serials[..i], refused)
        invariant sent == old(sent) + (set s | s in serials[..i])
      {
        var serial := serials[i];
        assert serials[..i + 1] == serials[..i] + [serial];
        OnlyAppend(serials[..i], serial, refused);
        ExceptAppend(serials[..i], serial, refused);
        sent := sent + {serial};
        if serial in refused {
          failed := failed + [serial];
        } else {
          revoked := revoked + [serial];
        }
      }
      assert serials[..|serials|] == serials;
    }

    method PersistPending(cred: Credential, pending: seq<Serial>, savedAgain: bool)
      modifies this`envelope, this`lost
      ensures Snapshot() == Persist(old(Snapshot()), cred, pending, savedAgain)
    {
      var same := SameSerials(cred.backlog, pending);
      if same {
        return;
      }
      if savedAgain {
        envelope := Some(cred.(backlog := pending));
      } else {
        lost := lost + pending;
      }
    }

    // ------------------------------------------------------- whole operations

    method ReissueCertificate(x: Rotation) returns (ok: bool)
      modifies this
      ensures Done(Snapshot(), ok) == Reissue(b, old(Snapshot()), x)
    {
      if envelope.None? {
        return true;
      }
      var old_ := envelope.value;
      var minted := MintCredential(x.mint);
      if minted.None? {
        return false;
      }
      var cred := minted.value;
      if !x.loggedIn || !x.saved {
        RollbackRotation(cred.handle, x.mint.rollback);
        return false;
      }
      envelope := Some(cred);
      var gone := CommitRotation(cred.handle, Some(old_.handle), x.sweep);
      var pending := RetireSuperseded(old_, gone, x);
      PersistPending(cred, pending, x.savedAgain);
      return true;
    }

    method Authenticate(x: Seeding) returns (ok: bool)
      modifies this
      ensures Done(Snapshot(), ok) == Reseed(b, old(Snapshot()), x)
    {
      var old_ := if x.readable then envelope else None;
      var seeded: Option<Credential>;
      if x.byo {
        seeded := ImportOwn(x.mint);
      } else {
        seeded := MintCredential(x.mint);
      }
      if seeded.None? {
        return false;
      }
      var cred := seeded.value;
      if !x.loggedIn || !x.saved {
        RollbackRotation(cred.handle, x.mint.rollback);
        return false;
      }
      lost := lost + Backlog(old(Snapshot()));
      envelope := Some(cred);
      var oldHandle := if old_.Some? then Some(old_.value.handle) else None;
      var _ := CommitRotation(cred.handle, oldHandle, x.sweep);
      if old_.Some? {
        cred := cred.(backlog := old_.value.backlog);
        PersistPending(cred, old_.value.backlog, x.savedAgain);
      }
      return true;
    }
  }

  lemma {:induction false} OnlyAppend(l: seq<Serial>, s: Serial, k: set<Serial>)
    ensures Only(l + [s], k) == Only(l, k) + (if s in k then [s] else [])
  {
    if l == [] {
      assert l + [s] == [s];
    } else {
      assert (l + [s])[1..] == l[1..] + [s];
      OnlyAppend(l[1..], s, k);
    }
  }

  lemma {:induction false} ExceptAppend(l: seq<Serial>, s: Serial, k: set<Serial>)
    ensures Except(l + [s], k) == Except(l, k) + (if s in k then [] else [s])
  {
    if l == [] {
      assert l + [s] == [s];
    } else {
      assert (l + [s])[1..] == l[1..] + [s];
      ExceptAppend(l[1..], s, k);
    }
  }

  method SameSerials(a: seq<Serial>, c: seq<Serial>) returns (same: bool)
    ensures same <==> a == c
  {
    if |a| != |c| {
      return false;
    }
    for i := 0 to |a|
      invariant a[..i] == c[..i]
    {
      if a[i] != c[i] {
        return false;
      }
      assert a[..i + 1] == a[..i] + [a[i]] && c[..i + 1] == c[..i] + [c[i]];
    }
    assert a == a[..|a|] && c == c[..|c|];
    return true;
  }
}
