/** Paths as strings, and the text keys under which a lease table stores them. */
module Paths {

  // ---- overlap and ancestors ------------------------------------------------------------------

  predicate Under(path: string, root: string) {
    root + "/" <= path
  }

  predicate Overlap(a: string, b: string) {
    a == b || Under(a, b) || Under(b, a)
  }

  /** The proper ancestors of `path[..i]`, as `PurePosixPath.parents` lists them. */
  function AncestorsTo(path: string, i: nat): seq<string>
    requires i <= |path|
  {
    if i <= 1 then ["/"]
    else if path[i - 1] == '/' then [path[..i - 1]] + AncestorsTo(path, i - 1)
    else AncestorsTo(path, i - 1)
  }

  function Ancestors(path: string): seq<string> {
    AncestorsTo(path, |path|)
  }

  lemma {:induction false} PrefixIsAncestor(path: string, i: nat, j: nat)
    requires 0 < j < i <= |path| && path[j] == '/'
    ensures path[..j] in AncestorsTo(path, i)
    decreases i
  {
    if j < i - 1 {
      PrefixIsAncestor(path, i - 1, j);
    }
  }

  lemma {:induction false} AncestorsArePrefixes(path: string, i: nat, a: string)
    requires i <= |path| && a in AncestorsTo(path, i)
    ensures a == "/" || exists j :: 0 < j < i && path[j] == '/' && a == path[..j]
    decreases i
  {
    if i > 1 {
      if path[i - 1] == '/' && a == path[..i - 1] {
        assert 0 < i - 1 < i;
      } else {
        AncestorsArePrefixes(path, i - 1, a);
      }
    }
  }

  /** Looking up all ancestors finds exactly the roots that the path lies under. */
  lemma UnderIsAncestor(path: string, root: string)
    requires root != "" && root != "/"
    ensures Under(path, root) <==> root in Ancestors(path)
  {
    if Under(path, root) {
      assert path[|root|] == (root + "/")[|root|] == '/';
      assert path[..|root|] == root;
      PrefixIsAncestor(path, |path|, |root|);
    }
    if root in Ancestors(path) {
      AncestorsArePrefixes(path, |path|, root);
      var j :| 0 < j < |path| && path[j] == '/' && root == path[..j];
      assert root + "/" == path[..j + 1];
    }
  }

  // ---- the prefix range -------------------------------------------------------------------------

  /** Binary string order. */
  predicate Less(a: string, b: string) {
    b != "" && (a == "" || a[0] < b[0] || (a[0] == b[0] && Less(a[1..], b[1..])))
  }

  predicate AtMost(a: string, b: string) {
    a == b || Less(a, b)
  }

  /** The half-open range from `key/` to `key0` holds exactly the strings that begin with
      `key/`, because nothing lies between these two characters. */
  lemma {:induction false} PrefixRange(key: string, s: string)
    ensures AtMost(key + "/", s) && Less(s, key + "0") <==> key + "/" <= s
    decreases |key|
  {
    if key == "" {
      assert key + "/" == "/" && key + "0" == "0";
      if s != "" {
        assert "/"[1..] == "" && "0"[1..] == "" && !Less(s[1..], "");
        assert Less("", s[1..]) <==> s[1..] != "";
        assert Less("/", s) <==> '/' < s[0] || (s[0] == '/' && s[1..] != "");
        assert Less(s, "0") <==> s[0] < '0';
        assert "/" <= s <==> s[0] == '/';
        assert s == [s[0]] + s[1..];
      }
    } else if s != "" {
      var a, z := key + "/", key + "0";
      assert a[1..] == key[1..] + "/" && z[1..] == key[1..] + "0";
      PrefixRange(key[1..], s[1..]);
      if s[0] == key[0] {
        assert a == s <==> a[1..] == s[1..] by {
          assert a == [a[0]] + a[1..] && s == [s[0]] + s[1..];
        }
        assert a <= s <==> a[1..] <= s[1..] by {
          assert a[1..] <= s[1..] ==> [a[0]] + a[1..] <= [s[0]] + s[1..];
        }
      }
    }
  }

  // ---- decimal identities -----------------------------------------------------------------------

  function Digit(n: nat): char
    requires n < 10
  {
    '0' + n as char
  }

  function Decimal(n: nat): string {
    if n < 10 then [Digit(n)] else Decimal(n / 10) + [Digit(n % 10)]
  }

  lemma {:induction false} DecimalDigits(n: nat)
    ensures |Decimal(n)| > 0 && forall c :: c in Decimal(n) ==> '0' <= c <= '9'
  {
    if n >= 10 {
      DecimalDigits(n / 10);
    }
  }

  lemma {:induction false} DecimalInjective(a: nat, b: nat)
    requires Decimal(a) == Decimal(b)
    ensures a == b
  {
    var s, t := Decimal(a), Decimal(b);
    assert s[|s| - 1] == Digit(a % 10) && t[|t| - 1] == Digit(b % 10);
    if a >= 10 && b >= 10 {
      assert Decimal(a / 10) == s[..|s| - 1] && Decimal(b / 10) == t[..|t| - 1];
      DecimalInjective(a / 10, b / 10);
    } else if a >= 10 {
      DecimalDigits(a / 10);
    } else if b >= 10 {
      DecimalDigits(b / 10);
    }
  }

  function Pair(a: nat, b: nat): string {
    Decimal(a) + ":" + Decimal(b)
  }

  /** The colon stands right after the first number. */
  lemma ColonAt(a: nat, b: nat)
    ensures |Decimal(a)| < |Pair(a, b)| && Pair(a, b)[|Decimal(a)|] == ':'
    ensures forall i :: 0 <= i < |Decimal(a)| ==> Pair(a, b)[i] != ':'
    ensures Pair(a, b)[..|Decimal(a)|] == Decimal(a) && Pair(a, b)[|Decimal(a)| + 1..] == Decimal(b)
  {
    DecimalDigits(a);
    forall i | 0 <= i < |Decimal(a)| ensures Pair(a, b)[i] != ':' {
      assert Pair(a, b)[i] == Decimal(a)[i] && Decimal(a)[i] in Decimal(a);
    }
  }

  /** Two numbers separated by a colon can be read back. */
  lemma PairInjective(a: nat, b: nat, c: nat, d: nat)
    requires Pair(a, b) == Pair(c, d)
    ensures a == c && b == d
  {
    ColonAt(a, b);
    ColonAt(c, d);
    assert |Decimal(a)| == |Decimal(c)|;
    DecimalInjective(a, c);
    DecimalInjective(b, d);
  }
}
