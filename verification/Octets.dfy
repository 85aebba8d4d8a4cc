/** Byte strings, little-endian integers and the lexicographic order that Python's
    `sorted` uses on `bytes`. */
module Octets {

  type byte = b: int | 0 <= b < 256

  type Bytes = seq<byte>

  /** A SHA-256 digest: exactly 32 bytes. */
  type Digest = d: Bytes | |d| == 32 witness seq(32, _ => 0)

  const TWO_TO_THE_32: int := 0x1_0000_0000

  datatype Option<+T> = None | Some(value: T) {
    predicate IsFailure() { None? }

    function PropagateFailure<U>(): Option<U>
      requires None?
    {
      None
    }

    function Extract(): T
      requires Some?
    {
      value
    }
  }

  // ---- little-endian integers -------------------------------------------------

  /** `n.to_bytes(4, "little")` */
  function LittleEndian4(n: nat): (r: Bytes)
    requires n < TWO_TO_THE_32
    ensures |r| == 4 && Unsigned4(r) == n
  {
    var q1 := n / 256;
    var q2 := q1 / 256;
    var q3 := q2 / 256;
    [n % 256, q1 % 256, q2 % 256, q3]
  }

  function Unsigned4(b: Bytes): (n: nat)
    requires |b| == 4
    ensures n < TWO_TO_THE_32
  {
    var b0: int, b1: int, b2: int, b3: int := b[0], b[1], b[2], b[3];
    b0 + 256 * (b1 + 256 * (b2 + 256 * b3))
  }

  /** `int.from_bytes(b, "little", signed=True)` */
  function Signed4(b: Bytes): (n: int)
    requires |b| == 4
    ensures -0x8000_0000 <= n < 0x8000_0000
  {
    var u := Unsigned4(b);
    if u < 0x8000_0000 then u else u - TWO_TO_THE_32
  }

  // ---- concatenation of fixed-size digests ------------------------------------

  function Concat(ds: seq<Digest>): (r: Bytes)
    ensures |r| == 32 * |ds|
  {
    if ds == [] then [] else ds[0] + Concat(ds[1..])
  }

  /** Digests have one size, so their concatenation determines each of them. */
  lemma {:induction false} ConcatInjective(a: seq<Digest>, b: seq<Digest>)
    requires Concat(a) == Concat(b)
    ensures a == b
  {
    if a == [] {
      assert |Concat(b)| == 0;
    } else {
      assert |b| == |a|;
      assert a[0] == Concat(a)[..32] && b[0] == Concat(b)[..32];
      assert Concat(a[1..]) == Concat(a)[32..] && Concat(b[1..]) == Concat(b)[32..];
      ConcatInjective(a[1..], b[1..]);
      assert a == [a[0]] + a[1..] && b == [b[0]] + b[1..];
    }
  }

  // ---- lexicographic order ----------------------------------------------------

  predicate LexLeq(a: Bytes, b: Bytes) {
    a == [] || (b != [] && (a[0] < b[0] || (a[0] == b[0] && LexLeq(a[1..], b[1..]))))
  }

  lemma {:induction false} LexTotal(a: Bytes, b: Bytes)
    ensures LexLeq(a, b) || LexLeq(b, a)
  {
    if a != [] && b != [] && a[0] == b[0] {
      LexTotal(a[1..], b[1..]);
    }
  }

  lemma {:induction false} LexAntisymmetric(a: Bytes, b: Bytes)
    requires LexLeq(a, b) && LexLeq(b, a)
    ensures a == b
  {
    if a != [] && b != [] {
      LexAntisymmetric(a[1..], b[1..]);
      assert a == [a[0]] + a[1..] && b == [b[0]] + b[1..];
    }
  }

  lemma {:induction false} LexTransitive(a: Bytes, b: Bytes, c: Bytes)
    requires LexLeq(a, b) && LexLeq(b, c)
    ensures LexLeq(a, c)
  {
    if a != [] && b != [] && c != [] && a[0] == b[0] == c[0] {
      LexTransitive(a[1..], b[1..], c[1..]);
    }
  }

  // ---- sorting ----------------------------------------------------------------

  predicate Sorted(s: seq<Digest>) {
    |s| <= 1 || (LexLeq(s[0], s[1]) && Sorted(s[1..]))
  }

  function Insert(x: Digest, s: seq<Digest>): (r: seq<Digest>)
    requires Sorted(s)
    ensures Sorted(r) && multiset(r) == multiset(s) + multiset{x} && |r| == |s| + 1
  {
    if s == [] then [x]
    else if LexLeq(x, s[0]) then [x] + s
    else
      LexTotal(x, s[0]);
      var r := [s[0]] + Insert(x, s[1..]);
      assert s == [s[0]] + s[1..];
      r
  }

  /** `sorted(s)` */
  function Sort(s: seq<Digest>): (r: seq<Digest>)
    ensures Sorted(r) && multiset(r) == multiset(s) && |r| == |s|
  {
    if s == [] then []
    else
      assert s == [s[0]] + s[1..];
      Insert(s[0], Sort(s[1..]))
  }

  lemma {:induction false} HeadIsLeast(s: seq<Digest>, x: Digest)
    requires Sorted(s) && x in s
    ensures LexLeq(s[0], x)
  {
    if x == s[0] {
      LexTotal(x, x);
    } else {
      assert s == [s[0]] + s[1..];
      HeadIsLeast(s[1..], x);
      LexTransitive(s[0], s[1], x);
    }
  }

  /** A sorted sequence is determined by its multiset of elements. */
  lemma {:induction false} SortedUnique(a: seq<Digest>, b: seq<Digest>)
    requires Sorted(a) && Sorted(b) && multiset(a) == multiset(b)
    ensures a == b
  {
    if a == [] {
      assert |multiset(b)| == 0;
    } else {
      assert a[0] in multiset(b);
      assert |multiset(b)| > 0;
      assert b[0] in multiset(a);
      HeadIsLeast(a, b[0]);
      HeadIsLeast(b, a[0]);
      LexAntisymmetric(a[0], b[0]);
      assert a == [a[0]] + a[1..] && b == [b[0]] + b[1..];
      assert multiset(a[1..]) == multiset(a) - multiset{a[0]};
      assert multiset(b[1..]) == multiset(b) - multiset{b[0]};
      SortedUnique(a[1..], b[1..]);
    }
  }

  // ---- permutations -----------------------------------------------------------

  /** `p` lists each of `0..n` exactly once. */
  ghost predicate IsPermutation(p: seq<nat>, n: nat) {
    && |p| == n
    && (forall i :: 0 <= i < n ==> p[i] < n)
    && (forall i, j :: 0 <= i < j < n ==> p[i] != p[j])
  }

  function RemoveAt<T>(s: seq<T>, k: nat): (r: seq<T>)
    requires k < |s|
    ensures |r| == |s| - 1
    ensures multiset(s) == multiset(r) + multiset{s[k]}
  {
    assert s == s[..k] + [s[k]] + s[k + 1..];
    s[..k] + s[k + 1..]
  }

  /** The index in `s` of what sits at index `j` once index `k` is removed. */
  function Skip(k: nat, j: nat): nat {
    if j < k then j else j + 1
  }

  /** Extends a matching of `a[1..]` with `RemoveAt(b, k)` to one of `a` with `b`. */
  lemma ExtendMatching(a: seq<Digest>, b: seq<Digest>, k: nat, q: seq<nat>) returns (p: seq<nat>)
    requires |a| == |b| && k < |b| && a[0] == b[k]
    requires IsPermutation(q, |a| - 1)
    requires forall i :: 0 <= i < |a| - 1 ==> a[i + 1] == RemoveAt(b, k)[q[i]]
    ensures IsPermutation(p, |a|)
    ensures forall i :: 0 <= i < |a| ==> a[i] == b[p[i]]
  {
    p := [k] + seq(|q|, i requires 0 <= i < |q| => Skip(k, q[i]));
    forall i | 0 <= i < |a| ensures p[i] < |b| && a[i] == b[p[i]] {
      if i > 0 {
        assert a[i - 1 + 1] == RemoveAt(b, k)[q[i - 1]];
      }
    }
  }

  lemma Cancel(x: multiset<Digest>, y: multiset<Digest>, z: multiset<Digest>)
    requires x + z == y + z
    ensures x == y
  {
    assert x == x + z - z && y == y + z - z;
  }

  /** Sequences that are equal as multisets are matched by a permutation. */
  lemma {:induction false} MultisetMatching(a: seq<Digest>, b: seq<Digest>) returns (p: seq<nat>)
    requires multiset(a) == multiset(b)
    ensures IsPermutation(p, |a|) && |b| == |a|
    ensures forall i :: 0 <= i < |a| ==> a[i] == b[p[i]]
  {
    assert |multiset(a)| == |multiset(b)|;
    if a == [] {
      p := [];
    } else {
      assert a[0] in multiset(b);
      var k: nat :| k < |b| && b[k] == a[0];
      var rest := RemoveAt(b, k);
      assert a == [a[0]] + a[1..];
      Cancel(multiset(a[1..]), multiset(rest), multiset{a[0]});
      var q := MultisetMatching(a[1..], rest);
      p := ExtendMatching(a, b, k, q);
    }
  }

  /** Shrinks a matching of `a` with `b` to one of `a[1..]` with `RemoveAt(b, p[0])`. */
  lemma ShrinkMatching(a: seq<Digest>, b: seq<Digest>, p: seq<nat>) returns (q: seq<nat>)
    requires |a| == |b| > 0 && IsPermutation(p, |a|)
    requires forall i :: 0 <= i < |a| ==> a[i] == b[p[i]]
    ensures IsPermutation(q, |a| - 1)
    ensures forall i :: 0 <= i < |a| - 1 ==> a[i + 1] == RemoveAt(b, p[0])[q[i]]
  {
    var k := p[0];
    q := seq(|a| - 1, i requires 0 <= i < |a| - 1 => if p[i + 1] < k then p[i + 1] else p[i + 1] - 1);
    forall i | 0 <= i < |a| - 1 ensures q[i] < |a| - 1 && Skip(k, q[i]) == p[i + 1] {
      assert p[0] != p[i + 1];
    }
    forall i, j | 0 <= i < j < |a| - 1 ensures q[i] != q[j] {
      assert p[i + 1] != p[j + 1];
      assert Skip(k, q[i]) != Skip(k, q[j]);
    }
  }

  /** Permuting a sequence keeps its multiset. */
  lemma {:induction false} PermutationKeepsMultiset(a: seq<Digest>, b: seq<Digest>, p: seq<nat>)
    requires |a| == |b| && IsPermutation(p, |a|)
    requires forall i :: 0 <= i < |a| ==> a[i] == b[p[i]]
    ensures multiset(a) == multiset(b)
  {
    if a != [] {
      var q := ShrinkMatching(a, b, p);
      PermutationKeepsMultiset(a[1..], RemoveAt(b, p[0]), q);
      assert a == [a[0]] + a[1..];
    }
  }
}
