/** The digest of the observability headers (cmd/dotvault/main.go): a sorted,
    length-prefixed stream of each header map is hashed, and the three digests are
    hashed again under labels. Equal digests are shown to mean equal headers,
    unless the hash itself collides. */
module HeaderDigest {

  type Byte = b: int | 0 <= b < 256
  type Bytes = seq<Byte>

  /** A Go string: its length is a signed 64-bit integer. */
  type Text = s: seq<Byte> | |s| < 0x8000_0000_0000_0000 witness []
  type Headers = map<Text, Text>

  type Digest = d: seq<Byte> | |d| == 32 witness seq(32, _ => 0)

  const ZERO: Digest := seq(32, _ => 0)

  // -------------------------------------------------------- length prefixes

  /** The `k` low bytes of `n`, most significant first. */
  function BigEndian(n: nat, k: nat): (r: Bytes)
    ensures |r| == k
  {
    if k == 0 then [] else BigEndian(n / 256, k - 1) + [n % 256]
  }

  function Value(bs: Bytes): nat {
    if bs == [] then 0 else 256 * Value(bs[..|bs| - 1]) + bs[|bs| - 1]
  }

  function Pow256(k: nat): (r: nat)
    ensures r > 0
  {
    if k == 0 then 1 else 256 * Pow256(k - 1)
  }

  lemma {:induction false} BigEndianRoundTrips(n: nat, k: nat)
    requires n < Pow256(k)
    ensures Value(BigEndian(n, k)) == n
  {
    if k > 0 {
      BigEndianRoundTrips(n / 256, k - 1);
      var bs := BigEndian(n, k);
      assert bs[..k - 1] == BigEndian(n / 256, k - 1);
    }
  }

  /** A string as it is fed to the hash. */
  function Prefixed(s: Text): Bytes {
    BigEndian(|s|, 8) + s
  }

  lemma LengthRoundTrips(s: Text)
    ensures Value(BigEndian(|s|, 8)) == |s|
  {
    assert Pow256(8) == 256 * (256 * (256 * (256 * (256 * (256 * (256 * (256 * Pow256(0))))))));
    BigEndianRoundTrips(|s|, 8);
  }

  /** Where one string ends and the rest begins can be read off the stream. */
  lemma PrefixedSplits(a: Text, x: Bytes, b: Text, y: Bytes)
    requires Prefixed(a) + x == Prefixed(b) + y
    ensures a == b && x == y
  {
    var s, t := Prefixed(a) + x, Prefixed(b) + y;
    assert s[..8] == BigEndian(|a|, 8) && t[..8] == BigEndian(|b|, 8);
    LengthRoundTrips(a);
    LengthRoundTrips(b);
    assert a == s[8..8 + |a|] == t[8..8 + |b|] == b;
    assert x == s[8 + |a|..] == t[8 + |b|..] == y;
  }

  // ---------------------------------------------------------- sorted keys

  /** The byte order of Go's string comparison. */
  predicate Less(a: Text, b: Text)
    decreases |a|
  {
    b != [] && (a == [] || a[0] < b[0] || (a[0] == b[0] && Less(a[1..], b[1..])))
  }

  lemma {:induction false} LessIsTotal(a: Text, b: Text)
    ensures !Less(a, a)
    ensures a == b || Less(a, b) || Less(b, a)
    ensures !(Less(a, b) && Less(b, a))
    decreases |a|
  {
    if a != [] {
      if b != [] {
        LessIsTotal(a[1..], b[1..]);
        assert a == [a[0]] + a[1..] && b == [b[0]] + b[1..];
      } else {
        LessIsTotal(a[1..], []);
      }
    }
  }

  lemma {:induction false} LessIsTransitive(a: Text, b: Text, c: Text)
    requires Less(a, b) && Less(b, c)
    ensures Less(a, c)
    decreases |a|
  {
    if a != [] && a[0] == b[0] && b[0] == c[0] {
      LessIsTransitive(a[1..], b[1..], c[1..]);
    }
  }

  ghost predicate Ascending(keys: seq<Text>) {
    forall i, j :: 0 <= i < j < |keys| ==> Less(keys[i], keys[j])
  }

  function Insert(k: Text, keys: seq<Text>): seq<Text> {
    if keys == [] || Less(k, keys[0]) then [k] + keys else [keys[0]] + Insert(k, keys[1..])
  }

  /** Stands for slices.Sort. */
  function Sort(keys: seq<Text>): seq<Text> {
    if keys == [] then [] else Insert(keys[0], Sort(keys[1..]))
  }

  lemma {:induction false} InsertKeepsElements(k: Text, keys: seq<Text>)
    ensures forall x :: x in Insert(k, keys) <==> x == k || x in keys
  {
    if keys != [] && !Less(k, keys[0]) {
      InsertKeepsElements(k, keys[1..]);
      assert keys == [keys[0]] + keys[1..];
    }
  }

  lemma {:induction false} InsertKeepsOrder(k: Text, keys: seq<Text>)
    requires Ascending(keys) && k !in keys
    ensures Ascending(Insert(k, keys))
  {
    if keys != [] {
      LessIsTotal(k, keys[0]);
      if Less(k, keys[0]) {
        forall j | 0 <= j < |keys| ensures Less(k, keys[j]) {
          if j > 0 {
            LessIsTransitive(k, keys[0], keys[j]);
          }
        }
      } else {
        InsertKeepsOrder(k, keys[1..]);
        InsertKeepsElements(k, keys[1..]);
        var rest := Insert(k, keys[1..]);
        forall j | 0 <= j < |rest| ensures Less(keys[0], rest[j]) {
          assert rest[j] in rest;
          if rest[j] != k {
            var i :| 0 <= i < |keys[1..]| && keys[1..][i] == rest[j];
            assert keys[i + 1] == rest[j];
          }
        }
      }
    }
  }

  ghost predicate Distinct(keys: seq<Text>) {
    forall i, j :: 0 <= i < j < |keys| ==> keys[i] != keys[j]
  }

  lemma {:induction false} SortSorts(keys: seq<Text>)
    requires Distinct(keys)
    ensures Ascending(Sort(keys))
    ensures forall k :: k in Sort(keys) <==> k in keys
  {
    if keys != [] {
      SortSorts(keys[1..]);
      assert keys == [keys[0]] + keys[1..];
      assert keys[0] !in keys[1..];
      InsertKeepsOrder(keys[0], Sort(keys[1..]));
      InsertKeepsElements(keys[0], Sort(keys[1..]));
    }
  }

  /** Sorting leaves nothing to choose: the order the keys were met in is forgotten. */
  lemma {:induction false} AscendingIsUnique(a: seq<Text>, b: seq<Text>)
    requires Ascending(a) && Ascending(b) && forall k :: k in a <==> k in b
    ensures a == b
  {
    if a != [] {
      assert a[0] in a;
    }
    if b != [] {
      assert b[0] in b;
    }
    if a != [] {
      LeastIsFirst(a, b);
      forall k ensures k in a[1..] <==> k in b[1..] {
        AscendingTail(a, k);
        AscendingTail(b, k);
      }
      AscendingIsUnique(a[1..], b[1..]);
    }
  }

  lemma AscendingTail(a: seq<Text>, k: Text)
    requires Ascending(a) && a != []
    ensures k in a[1..] <==> k in a && k != a[0]
  {
    assert a == [a[0]] + a[1..];
    LessIsTotal(a[0], a[0]);
  }

  lemma LeastIsFirst(a: seq<Text>, b: seq<Text>)
    requires Ascending(a) && Ascending(b) && a != [] && b != [] && a[0] in b && b[0] in a
    ensures a[0] == b[0]
  {
    var i :| 0 <= i < |b| && b[i] == a[0];
    var j :| 0 <= j < |a| && a[j] == b[0];
    LessIsTotal(a[0], b[0]);
  }

  // ------------------------------------------------------------ the stream

  function Stream(keys: seq<Text>, h: Headers): Bytes
    requires forall k :: k in keys ==> k in h
  {
    if keys == [] then []
    else Prefixed(keys[0]) + (Prefixed(h[keys[0]]) + Stream(keys[1..], h))
  }

  ghost predicate Lists(keys: seq<Text>, h: Headers) {
    Ascending(keys) && forall k :: k in keys <==> k in h
  }

  /** The keys of a map, in order. */
  ghost function SortedKeys(h: Headers): (keys: seq<Text>)
    ensures Lists(keys, h)
    decreases |h|
  {
    if h == map[] then []
    else
      var k :| k in h;
      var rest := SortedKeys(h - {k});
      InsertKeepsOrder(k, rest);
      InsertKeepsElements(k, rest);
      Insert(k, rest)
  }

  ghost function Encoding(h: Headers): Bytes {
    Stream(SortedKeys(h), h)
  }

  lemma {:induction false} StreamDetermines(a: seq<Text>, h: Headers, b: seq<Text>, g: Headers)
    requires (forall k :: k in a ==> k in h) && (forall k :: k in b ==> k in g)
    requires Stream(a, h) == Stream(b, g)
    ensures a == b && forall k :: k in a ==> h[k] == g[k]
  {
    if a != [] && b != [] {
      PrefixedSplits(a[0], Prefixed(h[a[0]]) + Stream(a[1..], h), b[0], Prefixed(g[b[0]]) + Stream(b[1..], g));
      PrefixedSplits(h[a[0]], Stream(a[1..], h), g[b[0]], Stream(b[1..], g));
      StreamDetermines(a[1..], h, b[1..], g);
      assert a == [a[0]] + a[1..] && b == [b[0]] + b[1..];
    }
  }

  /** Two header maps have the same stream if and only if they are equal. */
  lemma EncodingIsInjective(h: Headers, g: Headers)
    ensures Encoding(h) == Encoding(g) <==> h == g
  {
    if Encoding(h) == Encoding(g) {
      StreamDetermines(SortedKeys(h), h, SortedKeys(g), g);
      assert h.Keys == g.Keys;
    }
  }

  /** Any way of listing the keys in order gives the same stream. */
  lemma EncodingIsCanonical(h: Headers, keys: seq<Text>)
    requires Lists(keys, h)
    ensures Stream(keys, h) == Encoding(h)
  {
    AscendingIsUnique(keys, SortedKeys(h));
  }

  // ------------------------------------------------------------ the digests

  ghost function DigestOf(hash: Bytes -> Digest, salt: Bytes, h: Headers): Digest {
    if h == map[] then ZERO else hash(salt + Encoding(h))
  }

  method KeyList(h: Headers) returns (keys: seq<Text>)
    ensures Distinct(keys) && forall k :: k in keys <==> k in h
  {
    keys := [];
    var left := h.Keys;
    while left != {}
      invariant left <= h.Keys && Distinct(keys)
      invariant forall k :: k in keys <==> k in h && k !in left
      decreases left
    {
      var k :| k in left;
      assert forall x :: x in keys + [k] <==> x in keys || x == k;
      keys := keys + [k];
      left := left - {k};
    }
  }

  method DigestHeaders(hash: Bytes -> Digest, salt: Bytes, h: Headers) returns (d: Digest)
    ensures d == DigestOf(hash, salt, h)
  {
    if h == map[] {
      return ZERO;
    }
    var keys := KeyList(h);
    SortSorts(keys);
    keys := Sort(keys);
    var fed := Feed(salt, keys, h);
    EncodingIsCanonical(h, keys);
    d := hash(fed);
  }

  lemma StreamStep(keys: seq<Text>, h: Headers, i: nat, fed: Bytes)
    requires i < |keys| && forall k :: k in keys ==> k in h
    ensures fed + Prefixed(keys[i]) + Prefixed(h[keys[i]]) + Stream(keys[i + 1..], h) == fed + Stream(keys[i..], h)
  {
    assert keys[i..][1..] == keys[i + 1..];
    var k, v, rest := Prefixed(keys[i]), Prefixed(h[keys[i]]), Stream(keys[i + 1..], h);
    assert Stream(keys[i..], h) == k + (v + rest);
    assert fed + k + v + rest == fed + (k + (v + rest));
  }

  /** The loop that writes each key and its value to the hash. */
  method Feed(salt: Bytes, keys: seq<Text>, h: Headers) returns (fed: Bytes)
    requires forall k :: k in keys ==> k in h
    ensures fed == salt + Stream(keys, h)
  {
    fed := salt;
    var i := 0;
    while i < |keys|
      invariant 0 <= i <= |keys|
      invariant fed + Stream(keys[i..], h) == salt + Stream(keys, h)
    {
      StreamStep(keys, h, i, fed);
      fed := fed + Prefixed(keys[i]);
      fed := fed + Prefixed(h[keys[i]]);
      i := i + 1;
    }
    assert keys[i..] == [];
  }

  datatype Part = Shared | Metrics | Logs

  datatype Config = Config(shared: Headers, metrics: Headers, logs: Headers) {
    function Get(p: Part): Headers {
      match p
      case Shared => shared
      case Metrics => metrics
      case Logs => logs
    }

    function With(p: Part, h: Headers): Config {
      match p
      case Shared => this.(shared := h)
      case Metrics => this.(metrics := h)
      case Logs => this.(logs := h)
    }
  }

  function Label(p: Part): Text {
    match p
    case Shared => [115, 104, 97, 114, 101, 100]
    case Metrics => [109, 101, 116, 114, 105, 99, 115]
    case Logs => [108, 111, 103, 115]
  }

  /** The labels separate the parts. */
  lemma LabelsDiffer(p: Part, q: Part)
    requires p != q
    ensures Label(p) != Label(q)
  {
    assert |Label(p)| == (match p case Shared => 6 case Metrics => 7 case Logs => 4);
    assert |Label(q)| == (match q case Shared => 6 case Metrics => 7 case Logs => 4);
  }

  const PARTS := [Shared, Metrics, Logs]

  /** Each part's label and digest, one after the other. */
  ghost function Labelled(hash: Bytes -> Digest, salt: Bytes, o: Config, parts: seq<Part>): Bytes {
    if parts == [] then []
    else Prefixed(Label(parts[0])) + (DigestOf(hash, salt, o.Get(parts[0])) + Labelled(hash, salt, o, parts[1..]))
  }

  ghost function CombinedOf(hash: Bytes -> Digest, salt: Bytes, o: Config): Digest {
    hash(Labelled(hash, salt, o, PARTS))
  }

  method DigestObservabilityHeaders(hash: Bytes -> Digest, salt: Bytes, o: Config) returns (d: Digest)
    ensures d == CombinedOf(hash, salt, o)
  {
    var fed := FeedParts(hash, salt, o, PARTS);
    d := hash(fed);
  }

  method FeedParts(hash: Bytes -> Digest, salt: Bytes, o: Config, parts: seq<Part>) returns (fed: Bytes)
    ensures fed == Labelled(hash, salt, o, parts)
  {
    fed := [];
    var i := 0;
    while i < |parts|
      invariant 0 <= i <= |parts|
      invariant fed + Labelled(hash, salt, o, parts[i..]) == Labelled(hash, salt, o, parts)
    {
      LabelledStep(hash, salt, o, parts, i, fed);
      fed := fed + Prefixed(Label(parts[i]));
      var sub := DigestHeaders(hash, salt, o.Get(parts[i]));
      fed := fed + sub;
      i := i + 1;
    }
    assert parts[i..] == [];
  }

  lemma LabelledStep(hash: Bytes -> Digest, salt: Bytes, o: Config, parts: seq<Part>, i: nat, fed: Bytes)
    requires i < |parts|
    ensures fed + Prefixed(Label(parts[i])) + DigestOf(hash, salt, o.Get(parts[i])) + Labelled(hash, salt, o, parts[i + 1..])
         == fed + Labelled(hash, salt, o, parts[i..])
  {
    assert parts[i..][1..] == parts[i + 1..];
    var a, d: Bytes, rest: Bytes := Prefixed(Label(parts[i])), DigestOf(hash, salt, o.Get(parts[i])), Labelled(hash, salt, o, parts[i + 1..]);
    assert fed + a + d + rest == fed + (a + (d + rest));
  }

  lemma {:induction false} LabelledDetermines(hash: Bytes -> Digest, salt: Bytes, o: Config, o': Config, parts: seq<Part>)
    requires Labelled(hash, salt, o, parts) == Labelled(hash, salt, o', parts)
    ensures forall p :: p in parts ==> DigestOf(hash, salt, o.Get(p)) == DigestOf(hash, salt, o'.Get(p))
  {
    if parts != [] {
      var d, d' := DigestOf(hash, salt, o.Get(parts[0])), DigestOf(hash, salt, o'.Get(parts[0]));
      var rest: Bytes, rest': Bytes := Labelled(hash, salt, o, parts[1..]), Labelled(hash, salt, o', parts[1..]);
      PrefixedSplits(Label(parts[0]), d + rest, Label(parts[0]), d' + rest');
      assert d == (d + rest)[..32] == (d' + rest')[..32] == d';
      assert rest == (d + rest)[32..] == (d' + rest')[32..] == rest';
      LabelledDetermines(hash, salt, o, o', parts[1..]);
      assert parts == [parts[0]] + parts[1..];
    }
  }

  // ------------------------------------------------------ what they promise

  /** Every byte stream the combined digest of `o` hashes. */
  ghost function Hashed(hash: Bytes -> Digest, salt: Bytes, o: Config): set<Bytes> {
    {Labelled(hash, salt, o, PARTS)} + Fed(salt, o.shared) + Fed(salt, o.metrics) + Fed(salt, o.logs)
  }

  ghost function Fed(salt: Bytes, h: Headers): set<Bytes> {
    if h == map[] then {} else {salt + Encoding(h)}
  }

  /** The hash does not collide on these streams, nor map one of them to zero. */
  ghost predicate Separates(hash: Bytes -> Digest, streams: set<Bytes>) {
    && (forall x, y :: x in streams && y in streams && hash(x) == hash(y) ==> x == y)
    && (forall x :: x in streams ==> hash(x) != ZERO)
  }

  lemma DigestSeparates(hash: Bytes -> Digest, salt: Bytes, h: Headers, g: Headers, streams: set<Bytes>)
    requires Separates(hash, streams) && Fed(salt, h) <= streams && Fed(salt, g) <= streams
    ensures DigestOf(hash, salt, h) == DigestOf(hash, salt, g) <==> h == g
  {
    if h != map[] {
      assert salt + Encoding(h) in Fed(salt, h);
    }
    if g != map[] {
      assert salt + Encoding(g) in Fed(salt, g);
    }
    if h != map[] && g != map[] && salt + Encoding(h) == salt + Encoding(g) {
      assert Encoding(h) == (salt + Encoding(h))[|salt|..] == (salt + Encoding(g))[|salt|..] == Encoding(g);
      EncodingIsInjective(h, g);
    }
  }

  /** Unless the hash collides on the very streams it is fed, two configurations have
      the same digest if and only if all three of their header maps are equal. */
  lemma DigestIsFaithful(hash: Bytes -> Digest, salt: Bytes, o: Config, o': Config)
    requires Separates(hash, Hashed(hash, salt, o) + Hashed(hash, salt, o'))
    ensures CombinedOf(hash, salt, o) == CombinedOf(hash, salt, o') <==> o == o'
  {
    if CombinedOf(hash, salt, o) == CombinedOf(hash, salt, o') {
      var streams := Hashed(hash, salt, o) + Hashed(hash, salt, o');
      assert Labelled(hash, salt, o, PARTS) in streams && Labelled(hash, salt, o', PARTS) in streams;
      LabelledDetermines(hash, salt, o, o', PARTS);
      assert Shared in PARTS && Metrics in PARTS && Logs in PARTS;
      DigestSeparates(hash, salt, o.shared, o'.shared, streams);
      DigestSeparates(hash, salt, o.metrics, o'.metrics, streams);
      DigestSeparates(hash, salt, o.logs, o'.logs, streams);
    }
  }

  function Moved(o: Config, from: Part, to: Part, k: Text): Config
    requires k in o.Get(from)
  {
    o.With(from, o.Get(from) - {k}).With(to, o.Get(to)[k := o.Get(from)[k]])
  }

  /** Moving a header from one map to another always changes the digest. */
  lemma MovedHeaderChangesDigest(hash: Bytes -> Digest, salt: Bytes, o: Config, from: Part, to: Part, k: Text)
    requires from != to && k in o.Get(from)
    requires Separates(hash, Hashed(hash, salt, o) + Hashed(hash, salt, Moved(o, from, to, k)))
    ensures CombinedOf(hash, salt, o) != CombinedOf(hash, salt, Moved(o, from, to, k))
  {
    assert k !in Moved(o, from, to, k).Get(from);
    DigestIsFaithful(hash, salt, o, Moved(o, from, to, k));
  }

  /** The salt takes part: under two salts of the same length no header map that is not
      empty is digested from the same stream, so its digests differ unless the hash
      collides. */
  lemma SaltMatters(hash: Bytes -> Digest, salt: Bytes, salt': Bytes, h: Headers)
    requires |salt| == |salt'| && salt != salt' && h != map[]
    requires Separates(hash, Fed(salt, h) + Fed(salt', h))
    ensures DigestOf(hash, salt, h) != DigestOf(hash, salt', h)
  {
    var s, t := salt + Encoding(h), salt' + Encoding(h);
    assert s in Fed(salt, h) && t in Fed(salt', h);
    assert s[..|salt|] == salt && t[..|salt'|] == salt';
  }
}
