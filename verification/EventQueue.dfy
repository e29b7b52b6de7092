/** The client's event subscription (client/events.go): a queue of undelivered
    events coalesced per key, bounded, with a one-token wake-up channel shared by
    any number of readers. */
module EventQueue {

  datatype Event = Event(key: string, version: int, source: string, time: int)

  /** The fields guarded by the mutex: `order` lists the keys of `pending`, oldest first. */
  datatype Queue = Queue(pending: map<string, Event>, order: seq<string>)

  const MAX_PENDING := 1024

  ghost predicate Coherent(q: Queue) {
    && (forall i, j :: 0 <= i < j < |q.order| ==> q.order[i] != q.order[j])
    && (forall k :: k in q.pending <==> k in q.order)
    && (forall k :: k in q.pending ==> q.pending[k].key == k)
    && |q.order| <= MAX_PENDING
  }

  function Pushed(q: Queue, e: Event): Queue {
    if e.key in q.pending then
      if e.version > q.pending[e.key].version then q.(pending := q.pending[e.key := e]) else q
    else
      var trimmed := if |q.order| >= MAX_PENDING then Rest(q) else q;
      Queue(trimmed.pending[e.key := e], trimmed.order + [e.key])
  }

  /** The queue without its oldest key. */
  function Rest(q: Queue): Queue {
    if q.order == [] then q else Queue(q.pending - {q.order[0]}, q.order[1..])
  }

  /** A map read: a missing key reads as the zero Event. */
  function Lookup(q: Queue, key: string): Event {
    if key in q.pending then q.pending[key] else Event("", 0, "", 0)
  }

  datatype NextResult = Got(event: Event) | Closed | Wait

  /** The subscription as its methods see it, between two lock acquisitions. */
  class Subscription {
    var pending: map<string, Event>
    var order: seq<string>
    var notify: bool
    var closed: bool

    ghost predicate Valid()
      reads this
    {
      Coherent(Contents())
    }

    ghost function Contents(): Queue
      reads this
    {
      Queue(pending, order)
    }

    constructor ()
      ensures Valid() && Contents() == Queue(map[], []) && !notify && !closed
    {
      pending, order, notify, closed := map[], [], false, false;
    }

    method Signal()
      modifies this`notify
      ensures notify
    {
      if !notify {
        notify := true;
      }
    }

    method Push(e: Event)
      requires Valid()
      modifies this`pending, this`order, this`notify
      ensures Valid() && notify
      ensures Contents() == Pushed(old(Contents()), e)
    {
      PushedIsCoherent(Contents(), e);
      if e.key in pending {
        if e.version > pending[e.key].version {
          pending := pending[e.key := e];
        }
      } else {
        if |order| >= MAX_PENDING {
          pending := pending - {order[0]};
          order := order[1..];
        }
        order := order + [e.key];
        pending := pending[e.key := e];
      }
      Signal();
    }

    /** One pass of Next's loop.  Wait means the caller goes on to its select. */
    method Next() returns (r: NextResult)
      requires Valid()
      modifies this`pending, this`order, this`notify
      ensures Valid()
      ensures Contents() == Rest(old(Contents()))
      ensures r == if old(order) != [] then Got(old(pending)[old(order)[0]])
                   else if closed then Closed else Wait
      ensures notify == (old(notify) || |old(order)| > 1)
    {
      RestIsCoherent(Contents());
      if |order| > 0 {
        var key := order[0];
        order := order[1..];
        var e := pending[key];
        pending := pending - {key};
        if |order| > 0 {
          Signal();
        }
        return Got(e);
      }
      if closed {
        return Closed;
      }
      return Wait;
    }

    method Close()
      modifies this`pending, this`order, this`closed
      ensures Valid() && closed && Contents() == Queue(map[], [])
    {
      closed := true;
      pending := map[];
      order := [];
    }
  }

  lemma RestIsCoherent(q: Queue)
    requires Coherent(q)
    ensures Coherent(Rest(q))
  {
    if q.order != [] {
      forall k ensures k in Rest(q).pending <==> k in Rest(q).order {
        assert k in q.order <==> k == q.order[0] || k in q.order[1..];
      }
    }
  }

  lemma PushedIsCoherent(q: Queue, e: Event)
    requires Coherent(q)
    ensures Coherent(Pushed(q, e))
  {
    if e.key !in q.pending {
      RestIsCoherent(q);
    }
  }

  // ------------------------------------------------------ concurrent callers

  datatype Thread =
    | Idle
    | Signalling                // a push or a Next that has unlocked and is about to signal
    | AtTop                     // a Next about to take the lock
    | Waiting                   // a Next in its select
    | Marking                   // a Next that saw done and is about to set closed
    | Closing                   // a Close waiting for done

  /** The queue together with the history of what went in and out of it. */
  datatype Ledger = Ledger(
    q: Queue,
    pushed: seq<Event>,
    superseded: seq<Event>,     // pushes that coalescing dropped in favour of a newer or equal version
    out: seq<Event>,            // events that left the queue, in order
    delivered: seq<Event>,      // those of them that a Next returned
    dropped: seq<Event>,        // those that overflow or Close threw away
    arrivals: seq<string>)      // keys in the order in which they became pending

  datatype State = State(
    ledger: Ledger,
    notify: bool,
    closed: bool,
    done: bool,
    threads: seq<Thread>)

  datatype Step =
    | Push(t: nat, e: Event)    // push's critical section
    | Signal(t: nat)
    | Call(t: nat)              // a reader enters Next
    | Check(t: nat)             // Next's critical section
    | Wake(t: nat)              // the select takes the token
    | SeeDone(t: nat)           // the select sees done
    | Mark(t: nat)
    | GiveUp(t: nat)            // the select sees the reader's own context end
    | Finish                    // the relay goroutine ends and closes done
    | CallClose(t: nat)
    | CloseLocked(t: nat)

  predicate Enabled(s: State, step: Step) {
    match step
    case Finish => true
    case Push(t, _) => t < |s.threads| && s.threads[t].Idle?
    case Call(t) => t < |s.threads| && s.threads[t].Idle?
    case CallClose(t) => t < |s.threads| && s.threads[t].Idle?
    case Signal(t) => t < |s.threads| && s.threads[t].Signalling?
    case Check(t) => t < |s.threads| && s.threads[t].AtTop?
    case Wake(t) => t < |s.threads| && s.threads[t].Waiting? && s.notify
    case SeeDone(t) => t < |s.threads| && s.threads[t].Waiting? && s.done
    case GiveUp(t) => t < |s.threads| && s.threads[t].Waiting?
    case Mark(t) => t < |s.threads| && s.threads[t].Marking?
    case CloseLocked(t) => t < |s.threads| && s.threads[t].Closing? && s.done
  }

  function DoPush(l: Ledger, e: Event): Ledger {
    if e.key in l.q.pending then
      l.(q := Pushed(l.q, e), pushed := l.pushed + [e],
         superseded := l.superseded +
           [if e.version > l.q.pending[e.key].version then l.q.pending[e.key] else e])
    else
      var room := if |l.q.order| >= MAX_PENDING then Depart(l, true) else l;
      room.(q := Pushed(l.q, e), pushed := l.pushed + [e], arrivals := l.arrivals + [e.key])
  }

  /** The oldest key leaves. */
  function Depart(l: Ledger, dropped: bool): Ledger
    requires l.q.order != []
  {
    l.(q := Rest(l.q), out := l.out + [Lookup(l.q, l.q.order[0])],
       delivered := if dropped then l.delivered else l.delivered + [Lookup(l.q, l.q.order[0])],
       dropped := if dropped then l.dropped + [Lookup(l.q, l.q.order[0])] else l.dropped)
  }

  function DiscardAll(l: Ledger): Ledger {
    l.(q := Queue(map[], []), out := l.out + Values(l.q), dropped := l.dropped + Values(l.q))
  }

  function Goto(s: State, t: nat, pc: Thread): State
    requires t < |s.threads|
  {
    s.(threads := s.threads[t := pc])
  }

  function DoCheck(s: State, t: nat): State
    requires t < |s.threads|
  {
    var q := s.ledger.q;
    if q.order != [] then
      Goto(s.(ledger := Depart(s.ledger, false)), t,
           if |q.order| > 1 then Signalling else Idle)
    else
      Goto(s, t, if s.closed then Idle else Waiting)
  }

  function Do(s: State, step: Step): State
    requires Enabled(s, step)
  {
    match step
    case Finish => s.(done := true)
    case Push(t, e) => Goto(s.(ledger := DoPush(s.ledger, e)), t, Signalling)
    case Call(t) => Goto(s, t, AtTop)
    case CallClose(t) => Goto(s, t, Closing)
    case Signal(t) => Goto(s.(notify := true), t, Idle)
    case Check(t) => DoCheck(s, t)
    case Wake(t) => Goto(s.(notify := false), t, AtTop)
    case SeeDone(t) => Goto(s, t, Marking)
    case GiveUp(t) => Goto(s, t, Idle)
    case Mark(t) => Goto(s.(closed := true), t, AtTop)
    case CloseLocked(t) => Goto(s.(closed := true, ledger := DiscardAll(s.ledger)), t, Idle)
  }

  /** The pending events in delivery order. */
  function Values(q: Queue): (v: seq<Event>)
    ensures |v| == |q.order|
    ensures forall i :: 0 <= i < |v| ==> v[i] == Lookup(q, q.order[i])
  {
    seq(|q.order|, i requires 0 <= i < |q.order| => Lookup(q, q.order[i]))
  }

  function Keys(events: seq<Event>): (keys: seq<string>)
    ensures |keys| == |events| && forall i :: 0 <= i < |keys| ==> keys[i] == events[i].key
  {
    seq(|events|, i requires 0 <= i < |events| => events[i].key)
  }

  predicate Initial(s: State) {
    && s.ledger == Ledger(Queue(map[], []), [], [], [], [], [], [])
    && !s.notify && !s.closed && !s.done
    && forall t :: 0 <= t < |s.threads| ==> s.threads[t].Idle?
  }

  // ---------------------------------------------------------------- invariant

  /** A thread that will signal, or look at the queue, without being woken. */
  predicate Active(th: Thread) {
    th.Signalling? || th.AtTop? || th.Marking?
  }

  ghost predicate NoLostWakeUp(s: State) {
    s.ledger.q.order != [] ==>
      s.notify || exists t :: 0 <= t < |s.threads| && Active(s.threads[t])
  }

  /** Each push is in exactly one place. */
  ghost predicate Conserved(l: Ledger) {
    multiset(l.pushed) == multiset(l.out) + multiset(Values(l.q)) + multiset(l.superseded)
  }

  /** `out` is made up of `a` and `b`, each in its own order. */
  ghost predicate Interleaves(a: seq<Event>, b: seq<Event>, out: seq<Event>) {
    if out == [] then a == [] && b == []
    else
      var n := |out| - 1;
      || (a != [] && a[|a| - 1] == out[n] && Interleaves(a[..|a| - 1], b, out[..n]))
      || (b != [] && b[|b| - 1] == out[n] && Interleaves(a, b[..|b| - 1], out[..n]))
  }

  lemma InterleaveOne(a: seq<Event>, b: seq<Event>, out: seq<Event>, e: Event)
    requires Interleaves(a, b, out)
    ensures Interleaves(a + [e], b, out + [e]) && Interleaves(a, b + [e], out + [e])
  {
    assert (out + [e])[..|out|] == out && (a + [e])[..|a|] == a && (b + [e])[..|b|] == b;
  }

  lemma {:induction false} InterleaveMany(a: seq<Event>, b: seq<Event>, out: seq<Event>, more: seq<Event>)
    requires Interleaves(a, b, out)
    ensures Interleaves(a, b + more, out + more)
  {
    if more == [] {
      assert b + more == b && out + more == out;
    } else {
      var n := |more| - 1;
      InterleaveMany(a, b, out, more[..n]);
      InterleaveOne(a, b + more[..n], out + more[..n], more[n]);
      assert b + more == b + more[..n] + [more[n]] && out + more == out + more[..n] + [more[n]];
    }
  }

  lemma {:induction false} InterleavedParts(a: seq<Event>, b: seq<Event>, out: seq<Event>)
    requires Interleaves(a, b, out)
    ensures multiset(out) == multiset(a) + multiset(b)
    ensures b == [] ==> a == out
  {
    if out != [] {
      var n := |out| - 1;
      assert out == out[..n] + [out[n]];
      if a != [] && a[|a| - 1] == out[n] && Interleaves(a[..|a| - 1], b, out[..n]) {
        InterleavedParts(a[..|a| - 1], b, out[..n]);
        assert a == a[..|a| - 1] + [out[n]];
      } else {
        InterleavedParts(a, b[..|b| - 1], out[..n]);
        assert b == b[..|b| - 1] + [out[n]];
      }
    }
  }

  /** Keys leave in the order in which they became pending. */
  ghost predicate Fifo(l: Ledger) {
    l.arrivals == Keys(l.out) + l.q.order
  }

  /** An event of e's key and of at least its version has left or is pending. */
  ghost predicate Outlived(l: Ledger, e: Event) {
    || (exists i :: 0 <= i < |l.out| && Covers(l.out[i], e))
    || (e.key in l.q.pending && l.q.pending[e.key].version >= e.version)
  }

  predicate Covers(f: Event, e: Event) {
    f.key == e.key && f.version >= e.version
  }

  ghost predicate LedgerInv(l: Ledger) {
    && Coherent(l.q)
    && Conserved(l)
    && Fifo(l)
    && Interleaves(l.delivered, l.dropped, l.out)
    && forall e :: e in l.superseded ==> Outlived(l, e)
  }

  ghost predicate Inv(s: State) {
    LedgerInv(s.ledger) && NoLostWakeUp(s)
  }

  lemma ValuesOfRest(q: Queue)
    requires Coherent(q) && q.order != []
    ensures Values(q) == [Lookup(q, q.order[0])] + Values(Rest(q))
  {
    var rest := Rest(q);
    assert |rest.order| == |q.order| - 1;
    forall i | 0 <= i < |rest.order| ensures Lookup(rest, rest.order[i]) == Lookup(q, q.order[i + 1]) {
      RestKeepsOthers(q, i);
    }
    ValuesShift(q, rest);
  }

  lemma ValuesShift(q: Queue, rest: Queue)
    requires |q.order| == |rest.order| + 1
    requires forall i :: 0 <= i < |rest.order| ==> Lookup(rest, rest.order[i]) == Lookup(q, q.order[i + 1])
    ensures Values(q) == [Lookup(q, q.order[0])] + Values(rest)
  {
  }

  lemma RestKeepsOthers(q: Queue, i: nat)
    requires Coherent(q) && i + 1 < |q.order|
    ensures Rest(q).order[i] == q.order[i + 1] && Lookup(Rest(q), q.order[i + 1]) == Lookup(q, q.order[i + 1])
  {
    assert q.order[0] != q.order[i + 1];
  }

  lemma ValuesOfAppend(q: Queue, e: Event)
    requires Coherent(q) && e.key !in q.pending && |q.order| < MAX_PENDING
    ensures Values(Pushed(q, e)) == Values(q) + [e]
  {
    forall i | 0 <= i < |q.order| ensures Values(Pushed(q, e))[i] == Values(q)[i] {
      assert q.order[i] in q.order;
    }
  }

  lemma ValuesOfReplace(q: Queue, e: Event) returns (i: nat)
    requires Coherent(q) && e.key in q.pending && e.version > q.pending[e.key].version
    ensures i < |q.order| && q.order[i] == e.key && Values(q)[i] == q.pending[e.key]
    ensures Values(Pushed(q, e)) == Values(q)[i := e]
  {
    i :| 0 <= i < |q.order| && q.order[i] == e.key;
    forall j | 0 <= j < |q.order| && j != i ensures q.order[j] != e.key {
      assert q.order[i] != q.order[j];
    }
  }

  lemma PushKeepsLedger(l: Ledger, e: Event)
    requires LedgerInv(l)
    ensures LedgerInv(DoPush(l, e))
  {
    if e.key in l.q.pending {
      CoalesceKeepsLedger(l, e);
    } else if |l.q.order| >= MAX_PENDING {
      DepartKeepsLedger(l, true);
      AppendKeepsLedger(Depart(l, true), e);
    } else {
      AppendKeepsLedger(l, e);
    }
  }

  /** Removing the oldest key, whichever way its event goes. */
  lemma DepartKeepsLedger(l: Ledger, dropped: bool)
    requires LedgerInv(l) && l.q.order != []
    ensures LedgerInv(Depart(l, dropped))
  {
    RestIsCoherent(l.q);
    DepartKeepsConserved(l, dropped);
    DepartKeepsFifo(l, dropped);
    InterleaveOne(l.delivered, l.dropped, l.out, Lookup(l.q, l.q.order[0]));
    forall e | e in l.superseded ensures Outlived(Depart(l, dropped), e) {
      DepartKeepsCover(l, dropped, e);
    }
  }

  lemma DepartKeepsConserved(l: Ledger, dropped: bool)
    requires Coherent(l.q) && Conserved(l) && l.q.order != []
    ensures Conserved(Depart(l, dropped))
  {
    var head := [Lookup(l.q, l.q.order[0])];
    ValuesOfRest(l.q);
    assert multiset(Values(l.q)) == multiset(head) + multiset(Values(Rest(l.q)));
    assert multiset(l.out + head) == multiset(l.out) + multiset(head);
  }

  lemma DepartKeepsFifo(l: Ledger, dropped: bool)
    requires l.q.order != [] && Lookup(l.q, l.q.order[0]).key == l.q.order[0]
    requires Fifo(l)
    ensures Fifo(Depart(l, dropped))
  {
    assert Keys(Depart(l, dropped).out) == Keys(l.out) + [l.q.order[0]];
    assert l.q.order == [l.q.order[0]] + l.q.order[1..];
  }

  lemma DepartKeepsCover(l: Ledger, dropped: bool, e: Event)
    requires Coherent(l.q) && l.q.order != []
    requires Outlived(l, e)
    ensures Outlived(Depart(l, dropped), e)
  {
    var l' := Depart(l, dropped);
    if i :| 0 <= i < |l.out| && Covers(l.out[i], e) {
      assert l'.out[i] == l.out[i];
    } else if e.key == l.q.order[0] {
      assert Covers(l'.out[|l.out|], e);
    }
  }

  lemma AppendKeepsLedger(l: Ledger, e: Event)
    requires LedgerInv(l) && e.key !in l.q.pending && |l.q.order| < MAX_PENDING
    ensures LedgerInv(DoPush(l, e))
  {
    var l' := DoPush(l, e);
    PushedIsCoherent(l.q, e);
    AppendKeepsConserved(l, e);
    assert Fifo(l') by {
      assert l'.q.order == l.q.order + [e.key];
    }
    forall x | x in l.superseded ensures Outlived(l', x) {
      assert Outlived(l, x);
    }
  }

  lemma AppendKeepsConserved(l: Ledger, e: Event)
    requires Coherent(l.q) && Conserved(l) && e.key !in l.q.pending && |l.q.order| < MAX_PENDING
    ensures Conserved(DoPush(l, e))
  {
    ValuesOfAppend(l.q, e);
    assert multiset(Values(l.q) + [e]) == multiset(Values(l.q)) + multiset([e]);
    assert multiset(l.pushed + [e]) == multiset(l.pushed) + multiset([e]);
  }

  lemma CoalesceKeepsLedger(l: Ledger, e: Event)
    requires LedgerInv(l) && e.key in l.q.pending
    ensures LedgerInv(DoPush(l, e))
  {
    var l' := DoPush(l, e);
    PushedIsCoherent(l.q, e);
    CoalesceKeepsConserved(l, e);
    forall f | f in l'.superseded ensures Outlived(l', f) {
      if f in l.superseded {
        assert Outlived(l, f);
      }
    }
  }

  lemma CoalesceKeepsConserved(l: Ledger, e: Event)
    requires Coherent(l.q) && Conserved(l) && e.key in l.q.pending
    ensures Conserved(DoPush(l, e))
  {
    var l' := DoPush(l, e);
    if e.version > l.q.pending[e.key].version {
      var i := ValuesOfReplace(l.q, e);
      assert multiset(Values(l.q)[i := e]) == multiset(Values(l.q)) - multiset{Values(l.q)[i]} + multiset{e};
    }
  }

  lemma DiscardKeepsLedger(l: Ledger)
    requires LedgerInv(l)
    ensures LedgerInv(DiscardAll(l))
  {
    DiscardKeepsConserved(l);
    DiscardKeepsFifo(l);
    InterleaveMany(l.delivered, l.dropped, l.out, Values(l.q));
    forall e | e in l.superseded ensures Outlived(DiscardAll(l), e) {
      DiscardKeepsCover(l, e);
    }
  }

  lemma DiscardKeepsConserved(l: Ledger)
    requires Conserved(l)
    ensures Conserved(DiscardAll(l))
  {
    assert Values(DiscardAll(l).q) == [];
    assert multiset(l.out + Values(l.q)) == multiset(l.out) + multiset(Values(l.q));
  }

  lemma DiscardKeepsFifo(l: Ledger)
    requires Coherent(l.q) && Fifo(l)
    ensures Fifo(DiscardAll(l))
  {
    forall i | 0 <= i < |l.q.order| ensures Values(l.q)[i].key == l.q.order[i] {
      assert l.q.order[i] in l.q.order;
    }
    assert Keys(DiscardAll(l).out) == Keys(l.out) + l.q.order;
  }

  lemma DiscardKeepsCover(l: Ledger, e: Event)
    requires Coherent(l.q) && Outlived(l, e)
    ensures Outlived(DiscardAll(l), e)
  {
    var out := DiscardAll(l).out;
    if i :| 0 <= i < |l.out| && Covers(l.out[i], e) {
      assert out[i] == l.out[i];
    } else {
      var j :| 0 <= j < |l.q.order| && l.q.order[j] == e.key;
      assert out[|l.out| + j] == Values(l.q)[j];
    }
  }

  lemma {:induction false} StepKeepsInv(s: State, step: Step)
    requires Inv(s) && Enabled(s, step)
    ensures Inv(Do(s, step))
  {
    StepKeepsWakeUp(s, step);
    match step {
      case Push(t, e) => PushKeepsLedger(s.ledger, e);
      case Check(t) =>
        if s.ledger.q.order != [] {
          DepartKeepsLedger(s.ledger, false);
        }
      case CloseLocked(t) => DiscardKeepsLedger(s.ledger);
      case _ => assert Do(s, step).ledger == s.ledger;
    }
  }

  lemma StepKeepsWakeUp(s: State, step: Step)
    requires NoLostWakeUp(s) && Enabled(s, step)
    ensures NoLostWakeUp(Do(s, step))
  {
    var s' := Do(s, step);
    if step.Finish? {
      assert s'.threads == s.threads;
    } else if s'.ledger.q.order != [] && !s'.notify && !Active(s'.threads[step.t]) {
      var t :| 0 <= t < |s.threads| && Active(s.threads[t]);
      assert s'.threads[t] == s.threads[t];
    }
  }

  predicate IsRun(s: State, steps: seq<Step>)
    decreases |steps|
  {
    steps == [] || (Enabled(s, steps[0]) && IsRun(Do(s, steps[0]), steps[1..]))
  }

  function Exec(s: State, steps: seq<Step>): State
    requires IsRun(s, steps)
    decreases |steps|
  {
    if steps == [] then s else Exec(Do(s, steps[0]), steps[1..])
  }

  lemma {:induction false} RunKeepsInv(s: State, steps: seq<Step>)
    requires Inv(s) && IsRun(s, steps)
    ensures Inv(Exec(s, steps))
    decreases |steps|
  {
    if steps != [] {
      StepKeepsInv(s, steps[0]);
      RunKeepsInv(Do(s, steps[0]), steps[1..]);
    }
  }

  // ----------------------------------------------------------------- theorems

  /** In every reachable state a pending event is announced: the channel holds
      the token, or some thread is about to signal or to look again. */
  lemma {:induction false} NoWakeUpIsLost(s: State, steps: seq<Step>)
    requires Initial(s) && IsRun(s, steps)
    ensures NoLostWakeUp(Exec(s, steps))
  {
    RunKeepsInv(s, steps);
  }

  /** Steps a thread takes by itself once it is inside a call: no new push, no
      new reader, no cancellation, no Close. */
  predicate Internal(step: Step) {
    step.Signal? || step.Check? || step.Wake? || step.SeeDone? || step.Mark?
  }

  function Weight(th: Thread, closed: bool): nat {
    match th
    case Idle => 0
    case Closing => 0
    case Signalling => 3
    case AtTop => if closed then 1 else 4
    case Waiting => 3
    case Marking => 2
  }

  function TotalWeight(threads: seq<Thread>, closed: bool): nat {
    if threads == [] then 0
    else Weight(threads[0], closed) + TotalWeight(threads[1..], closed)
  }

  /** An upper bound on the internal steps left before every thread rests. */
  function Rank(s: State): nat {
    3 * |s.ledger.q.order| + (if s.notify then 2 else 0) + TotalWeight(s.threads, s.closed)
  }

  lemma {:induction false} WeightOfUpdate(threads: seq<Thread>, t: nat, pc: Thread, closed: bool)
    requires t < |threads|
    ensures TotalWeight(threads[t := pc], closed) + Weight(threads[t], closed)
         == TotalWeight(threads, closed) + Weight(pc, closed)
  {
    if t > 0 {
      WeightOfUpdate(threads[1..], t - 1, pc, closed);
      assert threads[t := pc][1..] == threads[1..][t - 1 := pc];
    } else {
      assert threads[t := pc][1..] == threads[1..];
    }
  }

  lemma {:induction false} ClosingOnlyLightens(threads: seq<Thread>, closed: bool)
    ensures TotalWeight(threads, true) <= TotalWeight(threads, closed)
  {
    if threads != [] {
      ClosingOnlyLightens(threads[1..], closed);
    }
  }

  lemma InternalStepLowersRank(s: State, step: Step)
    requires Enabled(s, step) && Internal(step)
    ensures Rank(Do(s, step)) < Rank(s)
  {
    match step {
      case Check(t) => CheckLowersRank(s, t);
      case Mark(t) =>
        WeightOfUpdate(s.threads, t, AtTop, true);
        ClosingOnlyLightens(s.threads, s.closed);
      case Signal(t) => WeightOfUpdate(s.threads, t, Idle, s.closed);
      case Wake(t) => WeightOfUpdate(s.threads, t, AtTop, s.closed);
      case SeeDone(t) => WeightOfUpdate(s.threads, t, Marking, s.closed);
    }
  }

  lemma CheckLowersRank(s: State, t: nat)
    requires Enabled(s, Check(t))
    ensures Rank(DoCheck(s, t)) < Rank(s)
  {
    WeightOfUpdate(s.threads, t, DoCheck(s, t).threads[t], s.closed);
  }

  ghost predicate Resting(s: State) {
    forall step :: Internal(step) ==> !Enabled(s, step)
  }

  lemma {:induction false} InternalRunsAreShort(s: State, steps: seq<Step>)
    requires IsRun(s, steps) && forall i :: 0 <= i < |steps| ==> Internal(steps[i])
    ensures |steps| + Rank(Exec(s, steps)) <= Rank(s)
    decreases |steps|
  {
    if steps != [] {
      InternalStepLowersRank(s, steps[0]);
      InternalRunsAreShort(Do(s, steps[0]), steps[1..]);
    }
  }

  lemma RestingReadersMissNothing(s: State)
    requires NoLostWakeUp(s) && Resting(s)
    ensures s.ledger.q.order == [] || forall t :: 0 <= t < |s.threads| ==> !s.threads[t].Waiting?
  {
    forall u | 0 <= u < |s.threads| ensures !Active(s.threads[u]) {
      assert !Enabled(s, Signal(u)) && !Enabled(s, Check(u)) && !Enabled(s, Mark(u));
    }
    forall t | 0 <= t < |s.threads| ensures s.notify ==> !s.threads[t].Waiting? {
      assert !Enabled(s, Wake(t));
    }
  }

  /** No reader sleeps beside a pending event.  From any reachable state, if
      nobody pushes, calls, cancels or closes, the threads inside come to rest
      after at most Rank steps however they are scheduled; and once they rest,
      either nothing is pending or nobody is waiting. */
  lemma {:induction false} NoReaderSleepsBesideAnEvent(s: State, steps: seq<Step>, more: seq<Step>)
    requires Initial(s) && IsRun(s, steps) && IsRun(Exec(s, steps), more)
    requires forall i :: 0 <= i < |more| ==> Internal(more[i])
    ensures |more| <= Rank(Exec(s, steps))
    ensures var e := Exec(Exec(s, steps), more);
      Resting(e) ==> e.ledger.q.order == [] || forall t :: 0 <= t < |e.threads| ==> !e.threads[t].Waiting?
  {
    RunKeepsInv(s, steps);
    RunKeepsInv(Exec(s, steps), more);
    InternalRunsAreShort(Exec(s, steps), more);
    var e := Exec(Exec(s, steps), more);
    if Resting(e) {
      RestingReadersMissNothing(e);
    }
  }

  /** The order list has no duplicates, names exactly the pending keys and stays
      within its bound; each push is delivered, pending, dropped or coalesced
      away, once; and keys leave in the order in which they became pending. */
  lemma {:induction false} QueueStaysCoherent(s: State, steps: seq<Step>)
    requires Initial(s) && IsRun(s, steps)
    ensures Coherent(Exec(s, steps).ledger.q)
    ensures var l := Exec(s, steps).ledger;
      multiset(l.pushed) == multiset(l.delivered) + multiset(Values(l.q)) + multiset(l.dropped) + multiset(l.superseded)
    ensures Fifo(Exec(s, steps).ledger)
    ensures var l := Exec(s, steps).ledger; Interleaves(l.delivered, l.dropped, l.out)
  {
    RunKeepsInv(s, steps);
    var l := Exec(s, steps).ledger;
    InterleavedParts(l.delivered, l.dropped, l.out);
  }

  /** `version` is the highest version of `key` among `events`. */
  ghost predicate Highest(events: seq<Event>, key: string, version: int) {
    && (exists i :: 0 <= i < |events| && events[i].key == key && events[i].version == version)
    && (forall i :: 0 <= i < |events| && events[i].key == key ==> events[i].version <= version)
  }

  /** What left the queue, then what is still in it. */
  function Kept(l: Ledger): seq<Event> {
    l.out + Values(l.q)
  }

  lemma KeptWasPushed(l: Ledger, i: nat)
    requires Conserved(l) && i < |Kept(l)|
    ensures Kept(l)[i] in l.pushed
  {
    assert Kept(l)[i] in multiset(l.out) + multiset(Values(l.q));
    assert Kept(l)[i] in multiset(l.pushed);
  }

  lemma PushedIsCovered(l: Ledger, e: Event) returns (i: nat)
    requires LedgerInv(l) && e in l.pushed
    ensures i < |Kept(l)| && Covers(Kept(l)[i], e)
    ensures e !in l.superseded ==> Kept(l)[i] == e
  {
    assert e in multiset(l.pushed);
    if e !in l.superseded {
      if j :| 0 <= j < |l.out| && l.out[j] == e {
        i := j;
      } else {
        var j :| 0 <= j < |Values(l.q)| && Values(l.q)[j] == e;
        i := |l.out| + j;
      }
    } else {
      assert Outlived(l, e);
      if j :| 0 <= j < |l.out| && Covers(l.out[j], e) {
        i := j;
      } else {
        var j :| 0 <= j < |l.q.order| && l.q.order[j] == e.key;
        i := |l.out| + j;
      }
    }
  }

  /** Coalescing never loses a key's current state: over every interleaving the
      highest version pushed for a key is the highest among what was delivered,
      is pending, or was dropped by overflow or by Close. */
  lemma {:induction false} CoalescingKeepsTheHighest(s: State, steps: seq<Step>, key: string, version: int)
    requires Initial(s) && IsRun(s, steps)
    ensures var l := Exec(s, steps).ledger;
      Highest(l.pushed, key, version) <==> Highest(Kept(l), key, version)
  {
    RunKeepsInv(s, steps);
    SameHighest(Exec(s, steps).ledger, key, version);
  }

  lemma SameHighest(l: Ledger, key: string, version: int)
    requires LedgerInv(l)
    ensures Highest(l.pushed, key, version) <==> Highest(Kept(l), key, version)
  {
    forall i | 0 <= i < |Kept(l)| ensures Kept(l)[i] in l.pushed {
      KeptWasPushed(l, i);
    }
    if Highest(l.pushed, key, version) {
      var i :| 0 <= i < |l.pushed| && l.pushed[i].key == key && l.pushed[i].version == version;
      var j := PushedIsCovered(l, l.pushed[i]);
      assert Kept(l)[j] in l.pushed;
      assert Kept(l)[j].version == version;
    }
    if Highest(Kept(l), key, version) {
      var i :| 0 <= i < |Kept(l)| && Kept(l)[i].key == key && Kept(l)[i].version == version;
      assert Kept(l)[i] in l.pushed;
      forall k | 0 <= k < |l.pushed| && l.pushed[k].key == key ensures l.pushed[k].version <= version {
        var j := PushedIsCovered(l, l.pushed[k]);
      }
    }
  }

  /** Without overflow or Close, the highest version pushed for a key is the
      highest one delivered or pending. */
  lemma {:induction false} NothingCurrentIsLost(s: State, steps: seq<Step>, key: string, version: int)
    requires Initial(s) && IsRun(s, steps)
    requires Exec(s, steps).ledger.dropped == []
    requires Highest(Exec(s, steps).ledger.pushed, key, version)
    ensures var l := Exec(s, steps).ledger;
      || (exists i :: 0 <= i < |l.delivered| && l.delivered[i].key == key && l.delivered[i].version == version)
      || (key in l.q.pending && l.q.pending[key].version == version)
  {
    RunKeepsInv(s, steps);
    var l := Exec(s, steps).ledger;
    SameHighest(l, key, version);
    KeptIsOutOrPending(l, key, version);
    InterleavedParts(l.delivered, l.dropped, l.out);
  }

  lemma KeptIsOutOrPending(l: Ledger, key: string, version: int)
    requires Coherent(l.q) && Highest(Kept(l), key, version)
    ensures || (exists i :: 0 <= i < |l.out| && l.out[i].key == key && l.out[i].version == version)
            || (key in l.q.pending && l.q.pending[key].version == version)
  {
    var i :| 0 <= i < |Kept(l)| && Kept(l)[i].key == key && Kept(l)[i].version == version;
    if i < |l.out| {
      assert l.out[i] == Kept(l)[i];
    } else {
      assert Kept(l)[i] == Lookup(l.q, l.q.order[i - |l.out|]);
    }
  }

  /** What a push leaves pending: for its key the event of the higher version, the
      earlier one on a tie; for every other key what was pending, except that a new key
      takes the place of the oldest when 1024 are pending. */
  lemma PushLeaves(q: Queue, e: Event, k: string)
    requires Coherent(q)
    ensures var q' := Pushed(q, e);
      && e.key in q'.pending
      && q'.pending[e.key] == (if e.key in q.pending && q.pending[e.key].version >= e.version then q.pending[e.key] else e)
      && (k != e.key ==>
            && (k in q'.pending <==>
                  k in q.pending && !(e.key !in q.pending && |q.order| >= 1024 && k == q.order[0]))
            && (k in q'.pending ==> q'.pending[k] == q.pending[k]))
  {
  }

  // ------------------------------------------------- what is dropped, and when

  /** What each step delivers and drops: Next delivers the oldest pending event, a push
      of a new key drops the oldest when 1024 keys are pending, Close drops all, and
      nothing else does either. */
  lemma DeliversAndDropsExactly(s: State, step: Step)
    requires Enabled(s, step) && Coherent(s.ledger.q)
    ensures var l, l' := s.ledger, Do(s, step).ledger;
      && l'.delivered == l.delivered + (if step.Check? && l.q.order != [] then [l.q.pending[l.q.order[0]]] else [])
      && l'.dropped == l.dropped +
           if step.Push? && step.e.key !in l.q.pending && |l.q.order| >= 1024 then [l.q.pending[l.q.order[0]]]
           else if step.CloseLocked? then Values(l.q)
           else []
  {
  }

  /** No push of a new key finds 1024 pending, and nobody closes. */
  predicate NeverFull(s: State, steps: seq<Step>)
    requires IsRun(s, steps)
    decreases |steps|
  {
    steps == [] ||
    (&& !steps[0].CloseLocked?
     && (steps[0].Push? && steps[0].e.key !in s.ledger.q.pending ==> |s.ledger.q.order| < 1024)
     && NeverFull(Do(s, steps[0]), steps[1..]))
  }

  /** Then nothing is dropped, and so no key's current state is lost. */
  lemma {:induction false} NothingDroppedUnlessFull(s: State, steps: seq<Step>)
    requires Inv(s) && s.ledger.dropped == [] && IsRun(s, steps) && NeverFull(s, steps)
    ensures Exec(s, steps).ledger.dropped == []
    decreases |steps|
  {
    if steps != [] {
      DeliversAndDropsExactly(s, steps[0]);
      StepKeepsInv(s, steps[0]);
      NothingDroppedUnlessFull(Do(s, steps[0]), steps[1..]);
    }
  }

  /** Without overflow or Close, the highest version pushed for a key is the highest one
      delivered or pending. */
  lemma {:induction false} NothingCurrentIsLostUnlessFull(s: State, steps: seq<Step>, key: string, version: int)
    requires Initial(s) && IsRun(s, steps) && NeverFull(s, steps)
    requires Highest(Exec(s, steps).ledger.pushed, key, version)
    ensures var l := Exec(s, steps).ledger;
      || (exists i :: 0 <= i < |l.delivered| && l.delivered[i].key == key && l.delivered[i].version == version)
      || (key in l.q.pending && l.q.pending[key].version == version)
  {
    RunKeepsInv(s, []);
    NothingDroppedUnlessFull(s, steps);
    NothingCurrentIsLost(s, steps, key, version);
  }

  /** Next goes to sleep exactly when nothing is pending and the subscription is open; so
      it returns without an event only once closed, or when its own context ends. */
  lemma NextSleepsExactly(s: State, t: nat)
    requires Enabled(s, Check(t))
    ensures var th := Do(s, Check(t)).threads[t];
      && (th.Waiting? <==> s.ledger.q.order == [] && !s.closed)
      && (th.Idle? && s.ledger.q.order == [] <==> s.ledger.q.order == [] && s.closed)
  {
  }
}
