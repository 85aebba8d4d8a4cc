/** Reservation of root slots: consumed for ever, never shared, never rebound. */
module RootLeases {
  import opened Octets
  import opened Paths
  import opened BootstrapRoots
  import Broker

  // ---- the text keys of the lease table -----------------------------------------------------------

  function PathKey(path: string): string {
    "bootstrap-path:" + path
  }

  function InodeKey(r: Root): string {
    "bootstrap-inode:" + Pair(r.device, r.inode)
  }

  lemma KeysDiffer(path: string, other: string, r: Root, q: Root)
    ensures PathKey(path) == PathKey(other) <==> path == other
    ensures InodeKey(r) == InodeKey(q) <==> r.device == q.device && r.inode == q.inode
    ensures PathKey(path) != InodeKey(r)
  {
    assert path == PathKey(path)[15..] && other == PathKey(other)[15..];
    assert Pair(r.device, r.inode) == InodeKey(r)[16..] && Pair(q.device, q.inode) == InodeKey(q)[16..];
    if InodeKey(r) == InodeKey(q) {
      PairInjective(r.device, r.inode, q.device, q.inode);
    }
    assert PathKey(path)[10] == 'p' && InodeKey(r)[10] == 'i';
  }

  /** The lookups of `_available` for one root: its own keys, its ancestors and the range of
      everything below it. */
  predicate Free(leases: map<string, Owner>, r: Root) {
    && PathKey(r.path) !in leases && InodeKey(r) !in leases
    && (forall a :: a in Ancestors(r.path) ==> PathKey(a) !in leases)
    && (forall k :: k in leases ==> !(AtMost(PathKey(r.path) + "/", k) && Less(k, PathKey(r.path) + "0")))
  }

  /** Whatever is leased is found: a free root is apart from every leased one. */
  lemma FreeIsApart(leases: map<string, Owner>, r: Root, q: Root)
    requires Free(leases, r) && PathKey(q.path) in leases && InodeKey(q) in leases && CanonicalPath(q.path)
    ensures Apart(r, q)
  {
    KeysDiffer(r.path, q.path, r, q);
    UnderIsAncestor(r.path, q.path);
    if Under(q.path, r.path) {
      assert PathKey(r.path) + "/" == "bootstrap-path:" + (r.path + "/");
      assert PathKey(r.path) + "/" <= PathKey(q.path);
      PrefixRange(PathKey(r.path), PathKey(q.path));
    }
  }

  /** The lease is one of the two that belong to the root `q`. */
  predicate KeyOf(k: string, q: Root) {
    k == PathKey(q.path) || k == InodeKey(q)
  }

  /** And nothing is refused without reason: where all leases are those of some roots, a root
      that is apart from all of them is free. */
  lemma ApartIsFree(leases: map<string, Owner>, roots: seq<Root>, r: Root)
    requires forall k :: k in leases ==> exists q :: q in roots && KeyOf(k, q)
    requires forall q :: q in roots ==> Apart(r, q) && CanonicalPath(q.path)
    ensures Free(leases, r)
  {
    forall k | k in leases
      ensures k != PathKey(r.path) && k != InodeKey(r)
      ensures forall a :: a in Ancestors(r.path) ==> PathKey(a) != k
      ensures !(AtMost(PathKey(r.path) + "/", k) && Less(k, PathKey(r.path) + "0"))
    {
      var q :| q in roots && KeyOf(k, q);
      KeysDiffer(r.path, q.path, r, q);
      KeysDiffer(r.path, q.path, q, r);
      KeysDiffer(q.path, r.path, r, q);
      PrefixRange(PathKey(r.path), k);
      NotBelow(r, q, k);
      forall a | a in Ancestors(r.path) ensures PathKey(a) != k {
        KeysDiffer(a, q.path, q, r);
        UnderIsAncestor(r.path, q.path);
      }
    }
  }

  lemma SamePrefix(p: string, a: string, b: string)
    ensures p + a <= p + b <==> a <= b
  {
    if p + a <= p + b {
      assert a == (p + a)[|p|..] && b == (p + b)[|p|..];
      assert (p + b)[..|p + a|] == p + a;
      assert b[..|a|] == (p + b)[|p|..|p + a|] == a;
    }
  }

  lemma NotBelow(r: Root, q: Root, k: string)
    requires KeyOf(k, q) && Apart(r, q)
    ensures !(PathKey(r.path) + "/" <= k)
  {
    assert (PathKey(r.path) + "/")[10] == 'p' && InodeKey(q)[10] == 'i';
    assert PathKey(r.path) + "/" == "bootstrap-path:" + (r.path + "/");
    SamePrefix("bootstrap-path:", r.path + "/", q.path);
  }

  method RootAvailable(leases: map<string, Owner>, r: Root) returns (ok: bool)
    ensures ok <==> Free(leases, r)
  {
    if PathKey(r.path) in leases || InodeKey(r) in leases {
      return false;
    }
    var ancestors := Ancestors(r.path);
    for i := 0 to |ancestors|
      invariant forall j :: 0 <= j < i ==> PathKey(ancestors[j]) !in leases
    {
      if PathKey(ancestors[i]) in leases {
        return false;
      }
    }
    ok := !exists k :: k in leases && AtMost(PathKey(r.path) + "/", k) && Less(k, PathKey(r.path) + "0");
  }

  predicate SlotFree(leases: map<string, Owner>, slot: Slot) {
    forall r :: r in Three(slot.roots) ==> Free(leases, r)
  }

  /** The first slot of the pool that is free, if any. */
  method FirstFree(leases: map<string, Owner>, slots: seq<Slot>) returns (found: Option<Slot>)
    ensures found.Some? ==> exists i :: 0 <= i < |slots| && slots[i] == found.value && SlotFree(leases, found.value)
                              && forall j :: 0 <= j < i ==> !SlotFree(leases, slots[j])
    ensures found == None ==> forall i :: 0 <= i < |slots| ==> !SlotFree(leases, slots[i])
  {
    for i := 0 to |slots|
      invariant forall j :: 0 <= j < i ==> !SlotFree(leases, slots[j])
    {
      var ok := RootAvailable(leases, slots[i].roots.work);
      if ok {
        ok := RootAvailable(leases, slots[i].roots.evidence);
      }
      if ok {
        ok := RootAvailable(leases, slots[i].roots.temporary);
      }
      assert ok <==> SlotFree(leases, slots[i]) by {
        hide Free;
        assert slots[i].roots.work in Three(slots[i].roots) && slots[i].roots.evidence in Three(slots[i].roots)
               && slots[i].roots.temporary in Three(slots[i].roots);
      }
      if ok {
        return Some(slots[i]);
      }
    }
    found := None;
  }
}
