/** Unfolded marshal values and the structural digest of a value.

    A `Value` is the tree a marshal stream denotes once every back reference is
    replaced by what it refers to.  The hash is a parameter: nothing below depends on
    how SHA-256 computes, only on its 32-byte output and, for the converse direction,
    on the absence of a collision among the byte strings that were really hashed. */
module MarshalValue {
  import opened Octets

  datatype Value =
    | Atom(kind: char, payload: Bytes)                 // N F T . i g y
    | Long(count: Bytes, digits: Bytes)                // l
    | Raw(raw: Bytes)                                  // s
    | Text(raw: Bytes)                                 // t u a A z Z
    | Tuple(items: seq<Value>)                         // ( )
    | FrozenSet(items: seq<Value>)                     // >
    | Code(head: Bytes, fields: seq<Value>, line: Bytes, tables: seq<Value>)
    | Slice(parts: seq<Value>)                         // :

  type Hash = Bytes -> Digest

  /** Bytes following the tag of a fixed-size atom, or -1 for another tag. */
  function AtomSize(kind: char): int {
    if kind == 'N' || kind == 'F' || kind == 'T' || kind == '.' then 0
    else if kind == 'i' then 4
    else if kind == 'g' then 8
    else if kind == 'y' then 16
    else -1
  }

  function Abs(n: int): nat {
    if n < 0 then -n else n
  }

  predicate Continuation(b: byte) {
    0x80 <= b < 0xC0
  }

  /** What `raw.decode("utf-8", errors="surrogatepass")` accepts. */
  predicate ValidUtf8(s: Bytes) {
    || s == []
    || (s[0] < 0x80 && ValidUtf8(s[1..]))
    || (0xC2 <= s[0] < 0xE0 && |s| >= 2 && Continuation(s[1]) && ValidUtf8(s[2..]))
    || (0xE0 <= s[0] < 0xF0 && |s| >= 3 && Continuation(s[1]) && Continuation(s[2])
        && (s[0] == 0xE0 ==> s[1] >= 0xA0) && ValidUtf8(s[3..]))
    || (0xF0 <= s[0] < 0xF5 && |s| >= 4 && Continuation(s[1]) && Continuation(s[2]) && Continuation(s[3])
        && (s[0] == 0xF0 ==> s[1] >= 0x90) && (s[0] == 0xF4 ==> s[1] < 0x90) && ValidUtf8(s[4..]))
  }

  predicate Ascii(s: Bytes) {
    forall i :: 0 <= i < |s| ==> s[i] < 0x80
  }

  lemma {:induction false} AsciiIsUtf8(s: Bytes)
    requires Ascii(s)
    ensures ValidUtf8(s)
  {
    if s != [] {
      AsciiIsUtf8(s[1..]);
    }
  }

  /** What the layout fixes about one node, leaving its children aside. */
  predicate WellFormedNode(v: Value) {
    match v
    case Atom(kind, payload) => |payload| == AtomSize(kind)
    case Long(count, digits) => |count| == 4 && |digits| == 2 * Abs(Signed4(count))
    case Raw(raw) => |raw| < TWO_TO_THE_32
    case Text(raw) => |raw| < TWO_TO_THE_32 && ValidUtf8(raw)
    case Tuple(items) => |items| < TWO_TO_THE_32
    case FrozenSet(items) => |items| < TWO_TO_THE_32
    case Code(head, fields, line, tables) => |head| == 20 && |fields| == 8 && |line| == 4 && |tables| == 2
    case Slice(parts) => |parts| == 3
  }

  function Children(v: Value): (r: seq<Value>)
    ensures forall c :: c in r ==> c < v
  {
    match v
    case Tuple(items) => items
    case FrozenSet(items) => items
    case Code(_, fields, _, tables) => fields + tables
    case Slice(parts) => parts
    case _ => []
  }

  predicate WellFormed(v: Value)
    decreases v
  {
    WellFormedNode(v) && forall c :: c in Children(v) ==> WellFormed(c)
  }

  // ---- the digest ---------------------------------------------------------------

  /** The type byte hashed first; short and long spellings of one type share it. */
  function Tag(v: Value): byte
    requires WellFormedNode(v)
  {
    match v
    case Atom(kind, _) => kind as int
    case Long(_, _) => 'l' as int
    case Raw(_) => 's' as int
    case Text(_) => 'u' as int
    case Tuple(_) => '(' as int
    case FrozenSet(_) => '>' as int
    case Code(_, _, _, _) => 'c' as int
    case Slice(_) => ':' as int
  }

  /** What is hashed after the tag, given the children's digests. */
  function Body(v: Value, ds: seq<Digest>): (r: Bytes)
    requires WellFormedNode(v) && |ds| == |Children(v)|
  {
    match v
    case Atom(_, payload) => payload
    case Long(count, digits) => count + digits
    case Raw(raw) => LittleEndian4(|raw|) + raw
    case Text(raw) => LittleEndian4(|raw|) + raw
    case Tuple(items) => LittleEndian4(|items|) + Concat(ds)
    case FrozenSet(items) => LittleEndian4(|items|) + Concat(Sort(ds))
    case Code(head, _, line, _) => head + Concat(ds[..8]) + line + Concat(ds[8..])
    case Slice(_) => Concat(ds)
  }

  function Image(v: Value, ds: seq<Digest>): (r: Bytes)
    requires WellFormedNode(v) && |ds| == |Children(v)|
  {
    [Tag(v)] + Body(v, ds)
  }

  function Preimage(hash: Hash, v: Value): Bytes
    requires WellFormed(v)
    decreases v, 1
  {
    Image(v, ChildDigests(hash, v))
  }

  function DigestOf(hash: Hash, v: Value): Digest
    requires WellFormed(v)
    decreases v, 2
  {
    hash(Preimage(hash, v))
  }

  function ChildDigests(hash: Hash, v: Value): (ds: seq<Digest>)
    requires WellFormed(v)
    ensures |ds| == |Children(v)|
    decreases v, 0
  {
    seq(|Children(v)|, i requires 0 <= i < |Children(v)| => DigestOf(hash, Children(v)[i]))
  }

  /** `x` is one of the byte strings hashed while computing `DigestOf(hash, v)`. */
  ghost predicate Hashed(hash: Hash, v: Value, x: Bytes)
    requires WellFormed(v)
    decreases v
  {
    x == Preimage(hash, v) || exists c :: c in Children(v) && Hashed(hash, c, x)
  }

  /** No two different strings hashed for `a` and for `b` share a digest. */
  ghost predicate NoCollision(hash: Hash, a: Value, b: Value)
    requires WellFormed(a) && WellFormed(b)
  {
    forall x, y :: Hashed(hash, a, x) && Hashed(hash, b, y) && hash(x) == hash(y) ==> x == y
  }

  // ---- equality up to frozenset order ----------------------------------------------

  /** The two roots agree in everything but their children. */
  predicate SameShape(a: Value, b: Value) {
    && |Children(a)| == |Children(b)|
    && match (a, b)
       case (Atom(k, p), Atom(k', p')) => k == k' && p == p'
       case (Long(c, d), Long(c', d')) => c == c' && d == d'
       case (Raw(r), Raw(r')) => r == r'
       case (Text(r), Text(r')) => r == r'
       case (Tuple(_), Tuple(_)) => true
       case (FrozenSet(_), FrozenSet(_)) => true
       case (Code(h, f, l, _), Code(h', f', l', _)) => h == h' && |f| == |f'| && l == l'
       case (Slice(_), Slice(_)) => true
       case _ => false
  }

  /** Equal trees, except that the members of a frozenset may come in another order. */
  ghost predicate Equivalent(a: Value, b: Value)
    decreases a
  {
    && SameShape(a, b)
    && exists p :: Matches(a, b, p)
  }

  ghost predicate Matches(a: Value, b: Value, p: seq<nat>)
    decreases a, 0
  {
    var n := |Children(a)|;
    && |Children(b)| == n
    && IsPermutation(p, n)
    && (!a.FrozenSet? ==> forall i :: 0 <= i < n ==> p[i] == i)
    && forall i :: 0 <= i < n ==> Equivalent(Children(a)[i], Children(b)[p[i]])
  }

  lemma IdentityPermutation(n: nat) returns (p: seq<nat>)
    ensures IsPermutation(p, n) && forall i :: 0 <= i < n ==> p[i] == i
  {
    p := seq(n, i => i);
  }

  // ---- equivalent values have one digest, for every hash ------------------------

  lemma {:induction false} EquivalentSameDigest(hash: Hash, a: Value, b: Value)
    requires WellFormed(a) && WellFormed(b) && Equivalent(a, b)
    ensures DigestOf(hash, a) == DigestOf(hash, b)
    decreases a
  {
    var p :| Matches(a, b, p);
    var da, db := ChildDigests(hash, a), ChildDigests(hash, b);
    forall i | 0 <= i < |da| ensures da[i] == db[p[i]] {
      EquivalentSameDigest(hash, Children(a)[i], Children(b)[p[i]]);
    }
    if a.FrozenSet? {
      PermutationKeepsMultiset(da, db, p);
      SortedUnique(Sort(da), Sort(db));
    } else {
      assert da == db;
    }
  }

  // ---- and one digest means equivalent values, unless the hash collided ----------

  /** The byte strings `p + x` and `q + y` with equally long first parts split one way. */
  lemma SplitEqual(p: Bytes, x: Bytes, q: Bytes, y: Bytes)
    requires p + x == q + y && |p| == |q|
    ensures p == q && x == y
  {
    assert p == (p + x)[..|p|] && q == (q + y)[..|p|];
    assert x == (p + x)[|p|..] && y == (q + y)[|p|..];
  }

  lemma CodeBodyInjective(a: Value, da: seq<Digest>, b: Value, db: seq<Digest>)
    requires WellFormedNode(a) && WellFormedNode(b) && a.Code? && b.Code?
    requires |da| == |db| == 10
    requires Body(a, da) == Body(b, db)
    ensures a.head == b.head && a.line == b.line && da == db
  {
    SplitEqual(a.head + Concat(da[..8]) + a.line, Concat(da[8..]), b.head + Concat(db[..8]) + b.line, Concat(db[8..]));
    SplitEqual(a.head + Concat(da[..8]), a.line, b.head + Concat(db[..8]), b.line);
    SplitEqual(a.head, Concat(da[..8]), b.head, Concat(db[..8]));
    ConcatInjective(da[..8], db[..8]);
    ConcatInjective(da[8..], db[8..]);
    assert da == da[..8] + da[8..] && db == db[..8] + db[8..];
  }

  lemma LeafBodyInjective(a: Value, b: Value)
    requires WellFormedNode(a) && WellFormedNode(b) && Children(a) == Children(b) == []
    requires Tag(a) == Tag(b) && Body(a, []) == Body(b, [])
    requires !a.Tuple? && !a.FrozenSet?
    ensures SameShape(a, b)
  {
    match a
    case Atom(_, _) =>
    case Long(c, d) => SplitEqual(c, d, b.count, b.digits);
    case Raw(r) => SplitEqual(LittleEndian4(|r|), r, LittleEndian4(|b.raw|), b.raw);
    case Text(r) => SplitEqual(LittleEndian4(|r|), r, LittleEndian4(|b.raw|), b.raw);
  }

  lemma ContainerBodyInjective(a: Value, da: seq<Digest>, b: Value, db: seq<Digest>)
    requires WellFormedNode(a) && WellFormedNode(b)
    requires (a.Tuple? && b.Tuple?) || (a.FrozenSet? && b.FrozenSet?)
    requires |da| == |a.items| && |db| == |b.items| && Body(a, da) == Body(b, db)
    ensures if a.FrozenSet? then multiset(da) == multiset(db) else da == db
  {
    var x, y := if a.Tuple? then da else Sort(da), if b.Tuple? then db else Sort(db);
    SplitEqual(LittleEndian4(|da|), Concat(x), LittleEndian4(|db|), Concat(y));
    ConcatInjective(x, y);
  }

  predicate IsLeaf(v: Value) {
    v.Atom? || v.Long? || v.Raw? || v.Text?
  }

  lemma SameTagSameType(a: Value, b: Value)
    requires WellFormedNode(a) && WellFormedNode(b) && Tag(a) == Tag(b)
    ensures IsLeaf(a) == IsLeaf(b) && a.Tuple? == b.Tuple? && a.FrozenSet? == b.FrozenSet?
    ensures a.Code? == b.Code? && a.Slice? == b.Slice?
  {
  }

  /** A node encoding is tagged, length-prefixed and made of fixed-size parts, so it
      determines the node and its children's digests (as a multiset, for a frozenset). */
  lemma ImageInjective(a: Value, da: seq<Digest>, b: Value, db: seq<Digest>)
    requires WellFormedNode(a) && WellFormedNode(b)
    requires |da| == |Children(a)| && |db| == |Children(b)|
    requires Image(a, da) == Image(b, db)
    ensures SameShape(a, b)
    ensures if a.FrozenSet? then multiset(da) == multiset(db) else da == db
  {
    SplitEqual([Tag(a)], Body(a, da), [Tag(b)], Body(b, db));
    assert [Tag(a)][0] == [Tag(b)][0];
    SameTagSameType(a, b);
    if IsLeaf(a) {
      LeafBodyInjective(a, b);
    } else if a.Tuple? || a.FrozenSet? {
      ContainerBodyInjective(a, da, b, db);
      assert |multiset(da)| == |multiset(db)|;
    } else if a.Code? {
      CodeBodyInjective(a, da, b, db);
    } else {
      ConcatInjective(da, db);
    }
  }

  lemma {:induction false} DigestDeterminesValue(hash: Hash, a: Value, b: Value)
    requires WellFormed(a) && WellFormed(b) && NoCollision(hash, a, b)
    requires DigestOf(hash, a) == DigestOf(hash, b)
    ensures Equivalent(a, b)
    decreases a
  {
    var da, db := ChildDigests(hash, a), ChildDigests(hash, b);
    assert Hashed(hash, a, Preimage(hash, a)) && Hashed(hash, b, Preimage(hash, b));
    ImageInjective(a, da, b, db);
    var p: seq<nat>;
    if a.FrozenSet? {
      p := MultisetMatching(da, db);
    } else {
      p := IdentityPermutation(|da|);
    }
    forall i | 0 <= i < |da| ensures Equivalent(Children(a)[i], Children(b)[p[i]]) {
      var c, d := Children(a)[i], Children(b)[p[i]];
      assert da[i] == db[p[i]];
      NoCollisionInChildren(hash, a, b, c, d);
      DigestDeterminesValue(hash, c, d);
    }
    assert Matches(a, b, p);
  }

  lemma NoCollisionInChildren(hash: Hash, a: Value, b: Value, c: Value, d: Value)
    requires WellFormed(a) && WellFormed(b) && NoCollision(hash, a, b)
    requires c in Children(a) && d in Children(b)
    ensures WellFormed(c) && WellFormed(d) && NoCollision(hash, c, d)
  {
    forall x, y | Hashed(hash, c, x) && Hashed(hash, d, y) && hash(x) == hash(y) ensures x == y {
      assert Hashed(hash, a, x) && Hashed(hash, b, y);
    }
  }
}
