/** The bounded cache of tokens Vault has already rejected (internal/auth/denylist.go),
    proved against an unbounded record of every denial since the last Clear. */
module TokenDenylist {

  const MAX_DENIED := 16
  const DENY_PROBE_INTERVAL := 15 * 60 * 1_000_000_000

  type Cache = map<string, int>   // token key to the time its suppression lapses

  /** Stands for the hex SHA-256 digest: distinct tokens have distinct keys, and
      no key is empty. */
  function TokenKey(token: string): (key: string)
    ensures key != ""
  {
    "#" + token
  }

  function Window(interval: int): (w: int)
    ensures w > 0
    ensures interval <= 0 ==> w == 900_000_000_000   // fifteen minutes
  {
    if interval <= 0 then DENY_PROBE_INTERVAL else interval
  }

  predicate Suppressed(m: Cache, key: string, now: int) {
    key in m && now < m[key]
  }

  /** The cache after Denied: a lapsed entry is dropped. */
  function Probed(m: Cache, key: string, now: int): Cache {
    if key in m && !(now < m[key]) then m - {key} else m
  }

  ghost predicate IsOldest(m: Cache, key: string) {
    key in m && forall k :: k in m ==> m[key] <= m[k]
  }

  predicate Overflows(m: Cache, key: string) {
    key !in m && |m| >= MAX_DENIED
  }

  /** The cache after Deny, when `victim` is the entry an overflow evicts. */
  function DeniedWith(m: Cache, key: string, now: int, window: int, victim: string): Cache {
    (if Overflows(m, key) then m - {victim} else m)[key := now + window]
  }

  ghost predicate MayEvict(m: Cache, key: string, victim: string) {
    Overflows(m, key) ==> IsOldest(m, victim)
  }

  // --------------------------------------------------- the unbounded record

  /** Token keys denied since the last Clear, each with its latest denial. */
  type Record = map<string, int>

  function Later(r: Record, key: string): set<string>
    requires key in r
  {
    set k | k in r && r[k] > r[key]
  }

  /** As Later, counting denials made at the same instant. */
  function LaterOrTied(r: Record, key: string): set<string>
    requires key in r
  {
    set k | k in r && k != key && r[k] >= r[key]
  }

  predicate Fresh(r: Record, key: string, now: int, window: int) {
    key in r && now < r[key] + window
  }

  /** The cache holds what it should of the record at time `clock`. */
  ghost predicate Refines(m: Cache, r: Record, clock: int, window: int) {
    && |m| <= MAX_DENIED && window > 0 && "" !in m
    && (forall k :: k in m ==> k in r && m[k] == r[k] + window)
    && (forall k :: k in r ==> r[k] <= clock)
    && (forall k :: Fresh(r, k, clock, window) && k !in m ==> Evicted(m, r, k))
  }

  /** What an eviction leaves true of the entry it removed. */
  ghost predicate Evicted(m: Cache, r: Record, key: string)
    requires key in r && forall k :: k in m ==> k in r
  {
    && |LaterOrTied(r, key)| >= MAX_DENIED
    && forall k :: k in m ==> r[k] >= r[key]
  }

  lemma ProbeKeepsRefinement(m: Cache, r: Record, clock: int, window: int, key: string, now: int)
    requires Refines(m, r, clock, window) && clock <= now
    ensures Refines(Probed(m, key, now), r, now, window)
  {
    var m' := Probed(m, key, now);
    if m' != m {
      assert m'.Keys == m.Keys - {key};
    }
    forall k | Fresh(r, k, now, window) && k !in m' ensures Evicted(m', r, k) {
      assert k !in m;
      assert Evicted(m, r, k);
    }
  }

  lemma DenyKeepsRefinement(m: Cache, r: Record, clock: int, window: int, key: string, now: int, victim: string)
    requires Refines(m, r, clock, window) && clock <= now && key != ""
    requires MayEvict(m, key, victim)
    ensures Refines(DeniedWith(m, key, now, window, victim), r[key := now], now, window)
  {
    var m' := DeniedWith(m, key, now, window, victim);
    var r' := r[key := now];
    DeniedWithStaysBounded(m, key, now, window, victim);
    forall k | Fresh(r', k, now, window) && k !in m' ensures Evicted(m', r', k) {
      if k in m {
        assert k == victim;
        VictimIsOutlived(m, r, clock, window, key, now, victim);
      } else {
        assert Evicted(m, r, k);
        assert LaterOrTied(r, k) <= LaterOrTied(r', k);
        SubsetIsSmaller(LaterOrTied(r, k), LaterOrTied(r', k));
      }
    }
  }

  lemma DeniedWithStaysBounded(m: Cache, key: string, now: int, window: int, victim: string)
    requires |m| <= MAX_DENIED && MayEvict(m, key, victim)
    ensures |DeniedWith(m, key, now, window, victim)| <= MAX_DENIED
  {
    var m' := DeniedWith(m, key, now, window, victim);
    assert |m'| == |m'.Keys| && |m| == |m.Keys|;
    if key in m {
      assert m'.Keys == m.Keys;
    } else if Overflows(m, key) {
      assert m'.Keys == (m.Keys - {victim}) + {key};
      assert |m.Keys - {victim}| == |m| - 1;
    } else {
      assert m'.Keys == m.Keys + {key};
    }
  }

  /** Everything else in a full cache, and the newcomer, outlasts the victim. */
  lemma VictimIsOutlived(m: Cache, r: Record, clock: int, window: int, key: string, now: int, victim: string)
    requires Refines(m, r, clock, window) && clock <= now
    requires Overflows(m, key) && IsOldest(m, victim)
    ensures |LaterOrTied(r[key := now], victim)| >= MAX_DENIED
  {
    var others := m.Keys - {victim} + {key};
    assert |others| == |m|;
    assert others <= LaterOrTied(r[key := now], victim);
    SubsetIsSmaller(others, LaterOrTied(r[key := now], victim));
  }

  lemma SubsetIsSmaller<T>(a: set<T>, b: set<T>)
    requires a <= b
    ensures |a| <= |b|
  {
    assert b == a + (b - a);
  }

  // ----------------------------------------------------------------- theorems

  /** A token that fewer than 16 others followed or tied with is suppressed
      until its window lapses. */
  lemma RecentIsSuppressed(m: Cache, r: Record, clock: int, window: int, key: string, now: int)
    requires Refines(m, r, clock, window) && clock <= now
    requires Fresh(r, key, now, window) && |LaterOrTied(r, key)| < MAX_DENIED
    ensures Suppressed(m, key, now)
  {
    assert Fresh(r, key, clock, window);
  }

  /** A suppressed token was denied within the window, and fewer than 16 others
      were denied after it. */
  lemma SuppressedIsRecent(m: Cache, r: Record, clock: int, window: int, key: string, now: int)
    requires Refines(m, r, clock, window) && clock <= now
    requires Suppressed(m, key, now)
    ensures Fresh(r, key, now, window) && |Later(r, key)| < MAX_DENIED
  {
    var later := Later(r, key);
    if later <= m.Keys - {key} {
      SubsetIsSmaller(later, m.Keys - {key});
    } else {
      var k :| k in later && k !in m;
      assert Evicted(m, r, k);
    }
  }

  class Denylist {
    var denied: Cache
    const interval: int
    ghost var record: Record
    ghost var clock: int

    ghost predicate Valid()
      reads this
    {
      Refines(denied, record, clock, Window(interval))
    }

    constructor (interval: int, ghost now: int)
      ensures Valid() && denied == map[] && record == map[] && clock == now && this.interval == interval
    {
      denied, record, clock := map[], map[], now;
      this.interval := interval;
    }

    method Denied(token: string, now: int) returns (suppressed: bool)
      requires Valid() && clock <= now
      modifies this
      ensures Valid() && record == old(record) && clock == now
      ensures token == "" ==> !suppressed && denied == old(denied)
      ensures token != "" ==>
        && suppressed == Suppressed(old(denied), TokenKey(token), now)
        && denied == Probed(old(denied), TokenKey(token), now)
      ensures (token != "" && Fresh(record, TokenKey(token), now, Window(interval))
               && |LaterOrTied(record, TokenKey(token))| < MAX_DENIED) ==> suppressed
      ensures suppressed ==>
        && Fresh(record, TokenKey(token), now, Window(interval))
        && |Later(record, TokenKey(token))| < MAX_DENIED
    {
      if token == "" {
        ProbeKeepsRefinement(denied, record, clock, Window(interval), "", now);
        clock := now;
        return false;
      }
      var key := TokenKey(token);
      var ok := key in denied;
      suppressed := ok && now < denied[key];
      ProbeKeepsRefinement(denied, record, clock, Window(interval), key, now);
      if suppressed {
        SuppressedIsRecent(denied, record, clock, Window(interval), key, now);
      } else if Fresh(record, key, now, Window(interval)) && |LaterOrTied(record, key)| < MAX_DENIED {
        RecentIsSuppressed(denied, record, clock, Window(interval), key, now);
      }
      if ok && !suppressed {
        denied := denied - {key};
      }
      clock := now;
    }

    method Deny(token: string, now: int) returns (announce: bool)
      requires Valid() && clock <= now
      modifies this
      ensures Valid() && clock == now
      ensures record == if token == "" then old(record) else old(record)[TokenKey(token) := now]
      ensures announce == (token != "" && !Suppressed(old(denied), TokenKey(token), now))
      ensures token == "" ==> denied == old(denied)
      ensures token != "" ==>
        exists victim ::
          && MayEvict(old(denied), TokenKey(token), victim)
          && denied == DeniedWith(old(denied), TokenKey(token), now, Window(interval), victim)
    {
      announce := false;
      if token == "" {
        ProbeKeepsRefinement(denied, record, clock, Window(interval), "", now);
        clock := now;
        return;
      }
      var key := TokenKey(token);
      var existing := key in denied;
      ghost var victim := "";
      if existing && now < denied[key] {
        denied := denied[key := now + Window(interval)];
      } else {
        if !existing && |denied| >= MAX_DENIED {
          victim := EvictOldest();
        }
        denied := denied[key := now + Window(interval)];
        announce := true;
      }
      assert denied == DeniedWith(old(denied), key, now, Window(interval), victim);
      assert MayEvict(old(denied), key, victim);
      DenyKeepsRefinement(old(denied), record, clock, Window(interval), key, now, victim);
      record, clock := record[key := now], now;
    }

    /** The argmin loop.  The empty key means "nothing seen yet", so the scan
        relies on no stored key being empty. */
    method EvictOldest() returns (ghost victim: string)
      requires denied != map[] && "" !in denied
      modifies this`denied
      ensures IsOldest(old(denied), victim) && denied == old(denied) - {victim}
    {
      var oldestKey, oldest := "", 0;
      var rest := denied.Keys;
      while rest != {}
        invariant rest <= denied.Keys && denied == old(denied)
        invariant oldestKey == "" ==> rest == denied.Keys
        invariant oldestKey != "" ==> oldestKey in denied && oldest == denied[oldestKey]
        invariant oldestKey != "" ==> forall k :: k in denied && k !in rest ==> oldest <= denied[k]
        decreases rest
      {
        var k :| k in rest;
        if oldestKey == "" || denied[k] < oldest {
          oldestKey, oldest := k, denied[k];
        }
        rest := rest - {k};
      }
      if oldestKey != "" {
        denied := denied - {oldestKey};
      }
      victim := oldestKey;
    }

    method Clear(ghost now: int) returns (n: nat)
      requires Valid() && clock <= now
      modifies this
      ensures Valid() && clock == now && denied == map[] && record == map[] && n == |old(denied)|
    {
      n := |denied|;
      if n > 0 {
        denied := map[];
      }
      record, clock := map[], now;
    }
  }

  // --------------------------------------------------------------- whole runs

  datatype State = State(cache: Cache, record: Record, clock: int, window: int)

  datatype Step =
    | Deny(key: string, now: int, victim: string)
    | Probe(key: string, now: int)
    | Clear(now: int)

  /** `strict` additionally demands that no two denials share an instant. */
  ghost predicate Enabled(s: State, step: Step, strict: bool) {
    && s.clock <= step.now
    && (step.Deny? ==> step.key != "" && MayEvict(s.cache, step.key, step.victim))
    && (step.Deny? && strict ==> forall k :: k in s.record ==> s.record[k] < step.now)
  }

  function Do(s: State, step: Step): State {
    match step
    case Deny(key, now, victim) =>
      s.(cache := DeniedWith(s.cache, key, now, s.window, victim), record := s.record[key := now], clock := now)
    case Probe(key, now) => s.(cache := Probed(s.cache, key, now), clock := now)
    case Clear(now) => s.(cache := map[], record := map[], clock := now)
  }

  ghost predicate IsRun(s: State, steps: seq<Step>, strict: bool)
    decreases |steps|
  {
    steps == [] || (Enabled(s, steps[0], strict) && IsRun(Do(s, steps[0]), steps[1..], strict))
  }

  function Exec(s: State, steps: seq<Step>): State
    decreases |steps|
  {
    if steps == [] then s else Exec(Do(s, steps[0]), steps[1..])
  }

  predicate Initial(s: State) {
    s.cache == map[] && s.record == map[] && s.window > 0
  }

  /** No two keys of the record were last denied at the same instant. */
  ghost predicate Distinct(r: Record) {
    forall a, b :: a in r && b in r && r[a] == r[b] ==> a == b
  }

  ghost predicate Inv(s: State, strict: bool) {
    && Refines(s.cache, s.record, s.clock, s.window)
    && (strict ==> Distinct(s.record))
  }

  lemma {:induction false} RunKeepsInv(s: State, steps: seq<Step>, strict: bool)
    requires Inv(s, strict) && IsRun(s, steps, strict)
    ensures Inv(Exec(s, steps), strict) && Exec(s, steps).window == s.window
    decreases |steps|
  {
    if steps != [] {
      match steps[0] {
        case Deny(key, now, victim) =>
          DenyKeepsRefinement(s.cache, s.record, s.clock, s.window, key, now, victim);
        case Probe(key, now) => ProbeKeepsRefinement(s.cache, s.record, s.clock, s.window, key, now);
        case Clear(now) =>
      }
      RunKeepsInv(Do(s, steps[0]), steps[1..], strict);
    }
  }

  /** The cache is an exact LRU.  When no two denials share an instant, after any
      sequence of Deny, Denied and Clear the suppressed tokens are exactly those
      still inside their window among the 16 most recently denied since the last
      Clear; and the map never grows past 16. */
  lemma {:induction false} CacheIsLru(s: State, steps: seq<Step>, key: string, now: int)
    requires Initial(s) && IsRun(s, steps, true) && Exec(s, steps).clock <= now
    ensures var e := Exec(s, steps);
      && |e.cache| <= 16
      && (Suppressed(e.cache, key, now) <==>
            Fresh(e.record, key, now, e.window) && |Later(e.record, key)| < 16)
  {
    RunKeepsInv(s, steps, true);
    var e := Exec(s, steps);
    if Fresh(e.record, key, now, e.window) && |Later(e.record, key)| < 16 {
      assert LaterOrTied(e.record, key) == Later(e.record, key);
      RecentIsSuppressed(e.cache, e.record, e.clock, e.window, key, now);
    }
    if Suppressed(e.cache, key, now) {
      SuppressedIsRecent(e.cache, e.record, e.clock, e.window, key, now);
    }
  }

  /** With denials that share an instant only the order among those is open. */
  lemma {:induction false} CacheIsLruUpToTies(s: State, steps: seq<Step>, key: string, now: int)
    requires Initial(s) && IsRun(s, steps, false) && Exec(s, steps).clock <= now
    ensures var e := Exec(s, steps);
      && |e.cache| <= 16
      && (Suppressed(e.cache, key, now) ==>
            Fresh(e.record, key, now, e.window) && |Later(e.record, key)| < 16)
      && (Fresh(e.record, key, now, e.window) && |LaterOrTied(e.record, key)| < 16 ==>
            Suppressed(e.cache, key, now))
  {
    RunKeepsInv(s, steps, false);
    var e := Exec(s, steps);
    if Suppressed(e.cache, key, now) {
      SuppressedIsRecent(e.cache, e.record, e.clock, e.window, key, now);
    }
    if Fresh(e.record, key, now, e.window) && |LaterOrTied(e.record, key)| < 16 {
      RecentIsSuppressed(e.cache, e.record, e.clock, e.window, key, now);
    }
  }
}
