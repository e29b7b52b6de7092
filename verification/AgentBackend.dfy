/** The SSH agent's backend (internal/agent/backend.go): it joins the listings of the
    configured sources behind a short-lived cache, picks the source that signs, and
    forwards mutations to the sources that take them. */
module AgentBackend {

  type Identity = string

  datatype Source = Source(needsToken: bool, mutates: bool)

  /** What the sources answer to one request, by their position. */
  datatype Answer = Ids(ids: seq<Identity>) | Failed
  datatype SignAnswer = Matched | NoMatch | SignFailed
  datatype MutateAnswer = Done | Refused | NotMine
  datatype Mutation = Mutated | ReadOnly | MutationFailed(failures: seq<nat>)

  // ----------------------------------------------------- choosing sources

  /** Positions before `n` whose source can be consulted with or without a token. */
  function Usable(sources: seq<Source>, token: bool, n: nat): seq<nat>
    requires n <= |sources|
  {
    if n == 0 then []
    else Usable(sources, token, n - 1) + if token || !sources[n - 1].needsToken then [n - 1] else []
  }

  function Mutating(sources: seq<Source>, n: nat): seq<nat>
    requires n <= |sources|
  {
    if n == 0 then []
    else Mutating(sources, n - 1) + if sources[n - 1].mutates then [n - 1] else []
  }

  // ------------------------------------------------------------- listing

  function Gathered(answers: nat -> Answer, asked: seq<nat>): seq<Identity> {
    if asked == [] then []
    else (if answers(asked[0]).Ids? then answers(asked[0]).ids else []) + Gathered(answers, asked[1..])
  }

  function Failures(answers: nat -> Answer, asked: seq<nat>): seq<nat> {
    if asked == [] then []
    else (if answers(asked[0]).Failed? then [asked[0]] else []) + Failures(answers, asked[1..])
  }

  datatype Listing = Listed(ids: seq<Identity>) | ListFailed(failures: seq<nat>) | Gated

  function Refreshed(answers: nat -> Answer, asked: seq<nat>): Listing {
    if Failures(answers, asked) != [] && Gathered(answers, asked) == [] then ListFailed(Failures(answers, asked))
    else Listed(Gathered(answers, asked))
  }

  // ------------------------------------------------------------- signing

  datatype Signing = Signed(source: nat) | SignErrors(failures: seq<nat>) | NoToken | KeyNotFound | SignGated

  function FirstMatch(answers: nat -> SignAnswer, asked: seq<nat>): (r: int)
    ensures -1 <= r
  {
    if asked == [] then -1
    else if answers(asked[0]).Matched? then asked[0]
    else FirstMatch(answers, asked[1..])
  }

  function SignFailures(answers: nat -> SignAnswer, asked: seq<nat>): seq<nat> {
    if asked == [] || answers(asked[0]).Matched? then []
    else (if answers(asked[0]).SignFailed? then [asked[0]] else []) + SignFailures(answers, asked[1..])
  }

  function SigningOf(token: bool, answers: nat -> SignAnswer, asked: seq<nat>): Signing {
    var who := FirstMatch(answers, asked);
    if asked == [] then NoToken
    else if who >= 0 then Signed(who)
    else if SignFailures(answers, asked) != [] then SignErrors(SignFailures(answers, asked))
    else if !token then NoToken
    else KeyNotFound
  }

  // ------------------------------------------------------------- mutating

  function Refusals(answers: nat -> MutateAnswer, asked: seq<nat>): seq<nat> {
    if asked == [] then []
    else (if answers(asked[0]).Refused? then [asked[0]] else []) + Refusals(answers, asked[1..])
  }

  /** Removing a key from whichever of `srcs` holds it. */
  function RemovalOf(answers: nat -> MutateAnswer, srcs: seq<nat>): Mutation {
    if exists i :: i in srcs && answers(i).Done? then Mutated
    else if Refusals(answers, srcs) != [] then MutationFailed(Refusals(answers, srcs))
    else ReadOnly
  }

  /** An agent-wide operation on all of `srcs`. */
  function BroadcastOf(answers: nat -> MutateAnswer, srcs: seq<nat>): Mutation {
    if srcs == [] then ReadOnly
    else if Refusals(answers, srcs) != [] then MutationFailed(Refusals(answers, srcs))
    else Mutated
  }

  // --------------------------------------------------------- the backend

  /** A cached listing. An empty one is the nil slice, which the cache never serves. */
  datatype Cache = Cache(ids: seq<Identity>, at: int)

  const EMPTY := Cache([], 0)

  predicate Serves(c: Cache, ttl: int, now: int) {
    c.ids != [] && now - c.at < ttl
  }

  /** A refresh that asked every configured source and heard from all of them. */
  predicate Fills(sources: seq<Source>, token: bool, answers: nat -> Answer) {
    var asked := Usable(sources, token, |sources|);
    token && asked != [] && Failures(answers, asked) == []
  }

  function Refilled(c: Cache, sources: seq<Source>, token: bool, answers: nat -> Answer, done: int): Cache {
    if Fills(sources, token, answers) then Cache(Gathered(answers, Usable(sources, token, |sources|)), done) else c
  }

  class Backend {
    const sources: seq<Source>
    const ttl: int
    var cached: seq<Identity>
    var cachedAt: int
    var reported: seq<nat>    // sources whose errors were handed to the lifecycle manager

    function Held(): Cache
      reads this
    {
      Cache(cached, cachedAt)
    }

    constructor (sources: seq<Source>, ttl: int)
      ensures this.sources == sources && this.ttl == ttl && Held() == EMPTY && reported == []
    {
      this.sources, this.ttl := sources, ttl;
      cached, cachedAt, reported := [], 0, [];
    }

    method UsableSources(token: bool) returns (asked: seq<nat>, reduced: bool)
      ensures asked == Usable(sources, token, |sources|) && reduced == !token
    {
      if token {
        UsableWithToken(sources, |sources|);
        return seq(|sources|, i => i), false;
      }
      asked, reduced := [], true;
      for i := 0 to |sources|
        invariant asked == Usable(sources, false, i)
      {
        if !sources[i].needsToken {
          asked := asked + [i];
        }
      }
    }

    method CachedIdentities(now: int) returns (ids: seq<Identity>, ok: bool)
      ensures ok <==> Serves(Held(), ttl, now)
      ensures ids == if ok then cached else []
    {
      if |cached| != 0 && now - cachedAt < ttl {
        return cached, true;
      }
      return [], false;
    }

    /** A refresh that starts at `now` and ends at `done`. */
    method Identities(now: int, done: int, token: bool, answers: nat -> Answer) returns (r: Listing)
      modifies this
      ensures var asked := Usable(sources, token, |sources|);
        if Serves(old(Held()), ttl, now) then
          r == Listed(old(cached)) && Held() == old(Held()) && reported == old(reported)
        else
          && r == Refreshed(answers, asked)
          && reported == old(reported) + Failures(answers, asked)
          && Held() == Refilled(old(Held()), sources, token, answers, done)
    {
      var ids, ok := CachedIdentities(now);
      if ok {
        return Listed(ids);
      }
      var asked, reduced := UsableSources(token);
      if |asked| == 0 {
        return Listed([]);
      }
      var all, errs := Gather(answers, asked);
      reported := reported + errs;
      if |errs| > 0 {
        return if |all| == 0 then ListFailed(errs) else Listed(all);
      }
      if reduced {
        return Listed(all);
      }
      cached, cachedAt := all, done;
      return Listed(all);
    }

    /** `open`: the wait on the token replacement ended well, at `later`. */
    method List(now: int, later: int, done: int, open: bool, token: bool, answers: nat -> Answer) returns (r: Listing)
      requires now <= later
      modifies this
      ensures var asked := Usable(sources, token, |sources|);
        if Serves(old(Held()), ttl, now) then
          r == Listed(old(cached)) && Held() == old(Held())
        else if !open then r == Gated && Held() == old(Held())
        else
          && r == Refreshed(answers, asked)
          && Held() == Refilled(old(Held()), sources, token, answers, done)
    {
      var ids, ok := CachedIdentities(now);
      if ok {
        return Listed(ids);
      }
      if !open {
        return Gated;
      }
      r := Identities(later, done, token, answers);
    }

    method SignWithFlags(open: bool, token: bool, answers: nat -> SignAnswer) returns (r: Signing)
      modifies this`reported
      ensures r == if open then SigningOf(token, answers, Usable(sources, token, |sources|)) else SignGated
      ensures reported == old(reported)
            + if open then SignFailures(answers, Usable(sources, token, |sources|)) else []
    {
      if !open {
        return SignGated;
      }
      var asked, reduced := UsableSources(token);
      if |asked| == 0 {
        return NoToken;
      }
      var who, errs := TrySign(answers, asked);
      reported := reported + errs;
      if who >= 0 {
        return Signed(who);
      }
      if |errs| > 0 {
        return SignErrors(errs);
      }
      return if reduced then NoToken else KeyNotFound;
    }

    method Invalidate()
      modifies this`cached, this`cachedAt
      ensures Held() == EMPTY
    {
      cached, cachedAt := [], 0;
    }

    method MutatingSources() returns (out: seq<nat>)
      ensures out == Mutating(sources, |sources|)
    {
      out := [];
      for i := 0 to |sources|
        invariant out == Mutating(sources, i)
      {
        if sources[i].mutates {
          out := out + [i];
        }
      }
    }

    method Add(answers: nat -> MutateAnswer) returns (r: Mutation)
      modifies this`cached, this`cachedAt
      ensures var srcs := Mutating(sources, |sources|);
        r == if srcs == [] then ReadOnly else if answers(srcs[0]).Done? then Mutated else MutationFailed([srcs[0]])
      ensures Held() == if r.Mutated? then EMPTY else old(Held())
    {
      var srcs := MutatingSources();
      if |srcs| == 0 {
        return ReadOnly;
      }
      if !answers(srcs[0]).Done? {
        return MutationFailed([srcs[0]]);
      }
      Invalidate();
      return Mutated;
    }

    method Remove(answers: nat -> MutateAnswer) returns (r: Mutation)
      modifies this`cached, this`cachedAt
      ensures r == RemovalOf(answers, Mutating(sources, |sources|))
      ensures Held() == if r.Mutated? then EMPTY else old(Held())
    {
      var srcs := MutatingSources();
      var errs: seq<nat>, k := [], 0;
      while k < |srcs|
        invariant 0 <= k <= |srcs|
        invariant forall j :: 0 <= j < k ==> !answers(srcs[j]).Done?
        invariant Refusals(answers, srcs) == errs + Refusals(answers, srcs[k..])
        invariant Held() == old(Held())
      {
        assert srcs[k..][1..] == srcs[k + 1..];
        match answers(srcs[k]) {
          case Refused => errs := errs + [srcs[k]];
          case Done =>
            assert srcs[k] in srcs;
            Invalidate();
            return Mutated;
          case NotMine =>
        }
        k := k + 1;
      }
      assert srcs[k..] == [];
      return if |errs| > 0 then MutationFailed(errs) else ReadOnly;
    }

    /** RemoveAll, Lock and Unlock: the cache is dropped even when sources refuse. */
    method Broadcast(answers: nat -> MutateAnswer) returns (r: Mutation)
      modifies this`cached, this`cachedAt
      ensures r == BroadcastOf(answers, Mutating(sources, |sources|))
      ensures Held() == if r.ReadOnly? then old(Held()) else EMPTY
    {
      var srcs := MutatingSources();
      if |srcs| == 0 {
        return ReadOnly;
      }
      var errs: seq<nat>, k := [], 0;
      while k < |srcs|
        invariant 0 <= k <= |srcs|
        invariant Refusals(answers, srcs) == errs + Refusals(answers, srcs[k..])
      {
        assert srcs[k..][1..] == srcs[k + 1..];
        if answers(srcs[k]).Refused? {
          errs := errs + [srcs[k]];
        }
        k := k + 1;
      }
      assert srcs[k..] == [];
      Invalidate();
      return if |errs| > 0 then MutationFailed(errs) else Mutated;
    }
  }

  method Gather(answers: nat -> Answer, asked: seq<nat>) returns (all: seq<Identity>, errs: seq<nat>)
    ensures all == Gathered(answers, asked) && errs == Failures(answers, asked)
  {
    all, errs := [], [];
    var i := 0;
    while i < |asked|
      invariant 0 <= i <= |asked|
      invariant Gathered(answers, asked) == all + Gathered(answers, asked[i..])
      invariant Failures(answers, asked) == errs + Failures(answers, asked[i..])
    {
      assert asked[i..][1..] == asked[i + 1..];
      var a := answers(asked[i]);
      if a.Failed? {
        errs := errs + [asked[i]];
      } else {
        all := all + a.ids;
      }
      i := i + 1;
    }
    assert asked[i..] == [];
  }

  method TrySign(answers: nat -> SignAnswer, asked: seq<nat>) returns (who: int, errs: seq<nat>)
    ensures who == FirstMatch(answers, asked) && errs == SignFailures(answers, asked)
  {
    errs := [];
    var i := 0;
    while i < |asked|
      invariant 0 <= i <= |asked|
      invariant FirstMatch(answers, asked) == FirstMatch(answers, asked[i..])
      invariant SignFailures(answers, asked) == errs + SignFailures(answers, asked[i..])
    {
      assert asked[i..][1..] == asked[i + 1..];
      match answers(asked[i]) {
        case Matched => return asked[i], errs;
        case SignFailed => errs := errs + [asked[i]];
        case NoMatch =>
      }
      i := i + 1;
    }
    assert asked[i..] == [];
    who := -1;
  }

  // ------------------------------------------------ facts of the selection

  lemma {:induction false} UsableWithToken(sources: seq<Source>, n: nat)
    requires n <= |sources|
    ensures Usable(sources, true, n) == seq(n, i => i)
  {
    if n > 0 {
      UsableWithToken(sources, n - 1);
    }
  }

  lemma {:induction false} UsableExactly(sources: seq<Source>, token: bool, n: nat)
    requires n <= |sources|
    ensures forall i :: i in Usable(sources, token, n) <==> 0 <= i < n && (token || !sources[i].needsToken)
    ensures forall i, j :: 0 <= i < j < |Usable(sources, token, n)| ==>
      Usable(sources, token, n)[i] < Usable(sources, token, n)[j]
  {
    if n > 0 {
      UsableExactly(sources, token, n - 1);
      var before := Usable(sources, token, n - 1);
      assert forall i :: 0 <= i < |before| ==> before[i] in before;
    }
  }

  lemma {:induction false} MutatingExactly(sources: seq<Source>, n: nat)
    requires n <= |sources|
    ensures forall i :: i in Mutating(sources, n) <==> 0 <= i < n && sources[i].mutates
  {
    if n > 0 {
      MutatingExactly(sources, n - 1);
    }
  }
}
