/** One-use root slots on a permanent lease table. */
module BootstrapRoots {
  import opened Octets
  import opened Paths
  import Broker

  type Record = Broker.Key

  const MaxSafeInteger: nat := 9007199254740991
  const MaxSlots := 1024

  datatype Root = Root(path: string, device: nat, inode: nat, uid: nat)

  datatype Roots = Roots(work: Root, evidence: Root, temporary: Root)

  datatype Slot = Slot(id: string, roots: Roots)

  /** Stands for the digest over record, slot, paths and identities. */
  datatype Allocation = Allocation(record: Record, slot: string, roots: Roots)

  datatype Grant = Grant(
    record: Record, operation: string, phase: Broker.Phase, allocation: Allocation,
    retained: Option<Root>, sources: seq<string>)

  datatype Owner = Bootstrap(allocation: Allocation) | Operation(id: string)

  function Three(r: Roots): (s: seq<Root>)
    ensures |s| == 3
  {
    [r.work, r.evidence, r.temporary]
  }

  // ---- what is a root ---------------------------------------------------------------------------

  predicate Space(c: char) {
    c <= ' ' || c == '\U{85}' || c == '\U{A0}' || c == '\U{1680}' || '\U{2000}' <= c <= '\U{200A}'
    || c == '\U{2028}' || c == '\U{2029}' || c == '\U{202F}' || c == '\U{205F}' || c == '\U{3000}'
  }

  /** A component `.` or `..` begins after position `i`. */
  predicate DotsAfter(p: string, i: nat) {
    && i + 1 < |p| && p[i] == '/' && p[i + 1] == '.'
    && (|| i + 2 == |p| || p[i + 2] == '/'
        || (p[i + 2] == '.' && (i + 3 == |p| || p[i + 3] == '/')))
  }

  predicate CanonicalPath(p: string) {
    && |p| > 1 && p[0] == '/' && p[|p| - 1] != '/'
    && (forall i :: 0 <= i < |p| - 1 ==> !(p[i] == '/' && p[i + 1] == '/'))
    && (forall i :: 0 <= i < |p| ==> !DotsAfter(p, i))
    && (forall c :: c in p ==> !Space(c) && c != '\\' && c != '%' && c != '$')
  }

  predicate ValidRoot(r: Root, uid: Option<nat>) {
    && CanonicalPath(r.path) && 1 <= r.inode <= MaxSafeInteger && r.device <= MaxSafeInteger && r.uid <= MaxSafeInteger
    && (uid.Some? ==> r.uid == uid.value)
  }

  /** Neither one directory under two names nor one inside the other. */
  predicate Apart(a: Root, b: Root) {
    !Overlap(a.path, b.path) && (a.device != b.device || a.inode != b.inode)
  }

  predicate AllApart(roots: seq<Root>) {
    forall i, j :: 0 <= i < j < |roots| ==> Apart(roots[i], roots[j])
  }

  // ---- a pool of slots ----------------------------------------------------------------------------

  datatype Policy = Policy(parents: Option<seq<string>>, uid: Option<nat>, forbidden: seq<string>)

  predicate PolicyOk(policy: Policy) {
    && (policy.parents.Some? ==> |policy.parents.value| == 3 && forall p :: p in policy.parents.value ==> CanonicalPath(p))
    && forall p :: p in policy.forbidden ==> CanonicalPath(p)
  }

  /** The root is valid, strictly inside its profile parent and outside every forbidden root. */
  predicate RootAdmitted(policy: Policy, n: nat, r: Root)
    requires n < 3 && PolicyOk(policy)
  {
    && ValidRoot(r, policy.uid)
    && (policy.parents.Some? ==> Under(r.path, policy.parents.value[n]))
    && forall p :: p in policy.forbidden ==> !Overlap(r.path, p)
  }

  function AllRoots(slots: seq<Slot>): seq<Root> {
    if slots == [] then [] else AllRoots(slots[..|slots| - 1]) + Three(slots[|slots| - 1].roots)
  }

  predicate SlotsOk(slots: seq<Slot>, policy: Policy) {
    && 1 <= |slots| <= MaxSlots && PolicyOk(policy)
    && (forall i, j :: 0 <= i < j < |slots| ==> slots[i].id != slots[j].id)
    && (forall i, n :: 0 <= i < |slots| && 0 <= n < 3 ==> RootAdmitted(policy, n, Three(slots[i].roots)[n]))
    && AllApart(AllRoots(slots))
  }

  lemma AllRootsStep(slots: seq<Slot>, i: nat)
    requires i < |slots|
    ensures AllRoots(slots[..i + 1]) == AllRoots(slots[..i]) + Three(slots[i].roots)
  {
    assert slots[..i + 1][..i] == slots[..i];
  }

  lemma {:induction false} AllRootsPrefix(slots: seq<Slot>, i: nat)
    requires i <= |slots|
    ensures AllRoots(slots[..i]) <= AllRoots(slots)
    decreases |slots| - i
  {
    if i < |slots| {
      AllRootsStep(slots, i);
      AllRootsPrefix(slots, i + 1);
    } else {
      assert slots[..i] == slots;
    }
  }

  lemma ApartMore(seen: seq<Root>, r: Root)
    requires AllApart(seen)
    ensures AllApart(seen + [r]) <==> forall j :: 0 <= j < |seen| ==> Apart(seen[j], r)
  {
    if AllApart(seen + [r]) {
      forall j | 0 <= j < |seen| ensures Apart(seen[j], r) {
        assert (seen + [r])[j] == seen[j] && (seen + [r])[|seen|] == r;
      }
    }
  }

  /** The accumulators hold the paths and inodes seen so far. */
  ghost predicate Tallied(seen: seq<Root>, paths: seq<string>, inodes: set<(nat, nat)>) {
    && |paths| == |seen| && (forall i :: 0 <= i < |seen| ==> paths[i] == seen[i].path)
    && inodes == set r | r in seen :: (r.device, r.inode)
  }

  predicate Clashes(r: Root, paths: seq<string>, inodes: set<(nat, nat)>) {
    (r.device, r.inode) in inodes || exists i :: 0 <= i < |paths| && Overlap(r.path, paths[i])
  }

  lemma TallyDecides(seen: seq<Root>, paths: seq<string>, inodes: set<(nat, nat)>, r: Root)
    requires Tallied(seen, paths, inodes) && AllApart(seen)
    ensures AllApart(seen + [r]) <==> !Clashes(r, paths, inodes)
    ensures Tallied(seen + [r], paths + [r.path], inodes + {(r.device, r.inode)})
  {
    ApartMore(seen, r);
    if !Clashes(r, paths, inodes) {
      forall j | 0 <= j < |seen| ensures Apart(seen[j], r) {
        assert seen[j] in seen && !Overlap(r.path, paths[j]);
      }
    } else if (r.device, r.inode) in inodes {
      var q :| q in seen && (r.device, r.inode) == (q.device, q.inode);
      var j :| 0 <= j < |seen| && seen[j] == q;
      assert !Apart(seen[j], r);
    } else {
      var j :| 0 <= j < |paths| && Overlap(r.path, paths[j]);
      assert !Apart(seen[j], r);
    }
  }

  lemma ApartPrefix(roots: seq<Root>, some: seq<Root>)
    requires AllApart(roots) && some <= roots
    ensures AllApart(some)
  {
  }

  /** One slot against everything seen before it. */
  method CheckSlot(roots: seq<Root>, policy: Policy, ghost seen: seq<Root>, paths: seq<string>, inodes: set<(nat, nat)>)
    returns (ok: bool, paths2: seq<string>, inodes2: set<(nat, nat)>)
    requires |roots| == 3 && PolicyOk(policy) && AllApart(seen) && Tallied(seen, paths, inodes)
    ensures ok <==> (forall n :: 0 <= n < 3 ==> RootAdmitted(policy, n, roots[n])) && AllApart(seen + roots)
    ensures ok ==> Tallied(seen + roots, paths2, inodes2)
  {
    hide AllApart;
    hide Tallied;
    hide Clashes;
    hide RootAdmitted;
    paths2, inodes2 := paths, inodes;
    ghost var done := seen;
    assert seen + roots[..0] == seen;
    for n := 0 to 3
      invariant done == seen + roots[..n]
      invariant AllApart(done) && Tallied(done, paths2, inodes2)
      invariant forall j :: 0 <= j < n ==> RootAdmitted(policy, j, roots[j])
    {
      var r := roots[n];
      if !RootAdmitted(policy, n, r) {
        return false, paths2, inodes2;
      }
      TallyDecides(done, paths2, inodes2, r);
      assert done + [r] == seen + roots[..n + 1];
      if Clashes(r, paths2, inodes2) {
        if AllApart(seen + roots) {
          ApartPrefix(seen + roots, done + [r]);
        }
        return false, paths2, inodes2;
      }
      done, paths2, inodes2 := done + [r], paths2 + [r.path], inodes2 + {(r.device, r.inode)};
    }
    assert roots[..3] == roots;
    ok := true;
  }

  /** Accepts exactly the pools whose slots are distinct, admitted and nowhere overlapping. */
  method ValidateSlots(slots: seq<Slot>, policy: Policy) returns (ok: bool)
    ensures ok <==> SlotsOk(slots, policy)
  {
    if !(1 <= |slots| <= MaxSlots) || !PolicyOk(policy) {
      return false;
    }
    var ids: set<string> := {};
    var paths: seq<string> := [];
    var inodes: set<(nat, nat)> := {};
    for i := 0 to |slots|
      invariant ids == set j | 0 <= j < i :: slots[j].id
      invariant forall j, k :: 0 <= j < k < i ==> slots[j].id != slots[k].id
      invariant forall j, n :: 0 <= j < i && 0 <= n < 3 ==> RootAdmitted(policy, n, Three(slots[j].roots)[n])
      invariant AllApart(AllRoots(slots[..i]))
      invariant Tallied(AllRoots(slots[..i]), paths, inodes)
    {
      if slots[i].id in ids {
        return false;
      }
      ids := ids + {slots[i].id};
      ghost var seen := AllRoots(slots[..i]);
      AllRootsStep(slots, i);
      ok, paths, inodes := CheckSlot(Three(slots[i].roots), policy, seen, paths, inodes);
      if !ok {
        AllRootsPrefix(slots, i + 1);
        return;
      }
    }
    assert slots[..|slots|] == slots;
    ok := true;
  }
}
