/** The table of consumed root slots and the grants drawn from it. */
module RootTable {
  import opened Octets
  import opened Paths
  import opened BootstrapRoots
  import opened RootLeases
  import opened BindExecution
  import Broker

  datatype Reply = Granted(grant: Grant) | Invalid | NoSlotLeft

  predicate PhaseOf(record: Record, phase: Broker.Phase) {
    if record.Job? then phase != Broker.Reconcile else phase == Broker.Reconcile || phase == Broker.Evidence
  }

  predicate NoOverlap(paths: seq<string>) {
    forall i, j :: 0 <= i < j < |paths| ==> !Overlap(paths[i], paths[j])
  }

  predicate RootsOk(roots: Roots) {
    AllApart(Three(roots)) && forall r :: r in Three(roots) ==> ValidRoot(r, None)
  }

  /** `validate_grant` */
  predicate GrantOk(g: Grant) {
    && PhaseOf(g.record, g.phase) && (g.record.Job? ==> g.record.id == g.operation)
    && |g.sources| == 3 && (forall p :: p in g.sources ==> CanonicalPath(p)) && NoOverlap(g.sources)
    && RootsOk(g.allocation.roots)
    && (g.retained.Some? ==>
          && g.phase == Broker.Evidence && ValidRoot(g.retained.value, None)
          && forall r :: r in Three(g.allocation.roots) ==> Apart(r, g.retained.value))
  }

  // ---- allocations ------------------------------------------------------------------------------

  function Keys(a: Allocation): set<string> {
    (set r | r in Three(a.roots) :: PathKey(r.path)) + (set r | r in Three(a.roots) :: InodeKey(r))
  }

  ghost predicate LeasedTo(leases: map<string, Owner>, a: Allocation) {
    forall k :: k in Keys(a) ==> k in leases && leases[k] == Bootstrap(a)
  }

  /** No directory of the one is, contains or lies in a directory of the other. */
  ghost predicate Separate(a: Allocation, b: Allocation) {
    forall r, q :: r in Three(a.roots) && q in Three(b.roots) ==> Apart(r, q)
  }

  ghost predicate AllSeparate(allocations: seq<Allocation>) {
    && (forall i :: 0 <= i < |allocations| ==> RootsOk(allocations[i].roots))
    && (forall i, j :: 0 <= i < |allocations| && 0 <= j < |allocations| && i != j ==> Separate(allocations[i], allocations[j]))
  }

  ghost predicate AllLeased(leases: map<string, Owner>, allocations: seq<Allocation>) {
    forall a :: a in allocations ==> LeasedTo(leases, a)
  }

  type Grants = map<(Record, Broker.Phase), Grant>

  ghost predicate Rested(grants: Grants, allocations: seq<Allocation>) {
    forall x :: x in grants ==>
      && grants[x].record == x.0 && grants[x].phase == x.1 && GrantOk(grants[x])
      && grants[x].allocation in allocations && grants[x].allocation.record == x.0
  }

  /** Only the preflight and business phases of one record share an allocation. */
  ghost predicate Exclusive(grants: Grants) {
    forall x, y :: x in grants && y in grants && x != y && grants[x].allocation == grants[y].allocation ==>
      x.0 == y.0 && {x.1, y.1} == {Broker.Preflight, Broker.Business}
  }

  /** The call that was answered with `g` is made again, with a pool that still has its slot. */
  predicate Repeats(g: Grant, operation: string, slots: seq<Slot>, extra: Option<Root>, sources: seq<string>) {
    && g.operation == operation && g.retained == extra && g.sources == sources
    && SlotsOk(slots, Policy(None, None, [])) && Slot(g.allocation.slot, g.allocation.roots) in slots
  }

  lemma LeasedKeys(leases: map<string, Owner>, a: Allocation, r: Root)
    requires LeasedTo(leases, a) && r in Three(a.roots)
    ensures PathKey(r.path) in leases && InodeKey(r) in leases
  {
    assert PathKey(r.path) in Keys(a) && InodeKey(r) in Keys(a);
  }

  lemma ApartSymmetric(a: Root, b: Root)
    requires Apart(a, b)
    ensures Apart(b, a)
  {
  }

  /** A free slot is separate from everything that was ever leased. */
  lemma FreeIsSeparate(leases: map<string, Owner>, a: Allocation, slot: Slot, record: Record)
    requires LeasedTo(leases, a) && RootsOk(a.roots) && SlotFree(leases, slot)
    ensures Separate(Allocation(record, slot.id, slot.roots), a) && Separate(a, Allocation(record, slot.id, slot.roots))
  {
    hide Apart;
    hide Free;
    forall r, q | r in Three(slot.roots) && q in Three(a.roots) ensures Apart(r, q) && Apart(q, r) {
      LeasedKeys(leases, a, q);
      FreeIsApart(leases, r, q);
      ApartSymmetric(r, q);
    }
  }

  lemma OneMore(allocations: seq<Allocation>, leases: map<string, Owner>, slot: Slot, record: Record)
    requires AllSeparate(allocations) && RootsOk(slot.roots) && SlotFree(leases, slot) && AllLeased(leases, allocations)
    ensures AllSeparate(allocations + [Allocation(record, slot.id, slot.roots)])
    ensures Allocation(record, slot.id, slot.roots) !in allocations
  {
    var a := Allocation(record, slot.id, slot.roots);
    hide RootsOk;
    hide SlotFree;
    hide LeasedTo;
    forall i | 0 <= i < |allocations|
      ensures Separate(allocations[i], a) && Separate(a, allocations[i]) && allocations[i] != a
    {
      hide Separate;
      FreeIsSeparate(leases, allocations[i], slot, record);
      if allocations[i] == a {
        NotSeparateFromItself(a);
      }
    }
  }

  lemma NotSeparateFromItself(a: Allocation)
    ensures !Separate(a, a)
  {
    assert a.roots.work in Three(a.roots) && !Apart(a.roots.work, a.roots.work);
  }

  /** The permanent leases of a new allocation are added to the others. */
  function WithLeases(leases: map<string, Owner>, a: Allocation): map<string, Owner> {
    leases + map k | k in Keys(a) :: Bootstrap(a)
  }

  lemma LeasesKept(leases: map<string, Owner>, allocations: seq<Allocation>, a: Allocation)
    requires AllLeased(leases, allocations) && SlotFree(leases, Slot(a.slot, a.roots))
    ensures AllLeased(WithLeases(leases, a), allocations + [a])
    ensures forall k :: k in leases ==> k in WithLeases(leases, a) && WithLeases(leases, a)[k] == leases[k]
  {
    assert forall r :: r in Three(a.roots) ==> PathKey(r.path) !in leases && InodeKey(r) !in leases;
    hide SlotFree;
    hide PathKey;
    hide InodeKey;
    forall b | b in allocations ensures LeasedTo(WithLeases(leases, a), b) {
      assert LeasedTo(leases, b);
    }
  }

  class Table {
    var leases: map<string, Owner>
    var grants: Grants
    /** Every allocation ever made, in order. */
    ghost var allocations: seq<Allocation>

    /** Allocations are leased and separate, and each grant rests on one of them. */
    ghost predicate Valid()
      reads this
    {
      AllSeparate(allocations) && AllLeased(leases, allocations) && Rested(grants, allocations) && Exclusive(grants)
    }

    constructor ()
      ensures Valid() && leases == map[] && grants == map[] && allocations == []
    {
      leases, grants, allocations := map[], map[], [];
    }

    /** Ordinary operations acquire and release other leases in the same table. */
    method Others(added: map<string, Owner>, dropped: set<string>)
      requires Valid()
      modifies this`leases
      ensures Valid()
      ensures forall k :: k in old(leases) && old(leases)[k].Bootstrap? ==> k in leases && leases[k] == old(leases)[k]
    {
      leases := (map k | k in added && added[k].Operation? :: added[k])
        + (map k | k in leases && (leases[k].Bootstrap? || k !in dropped) :: leases[k]);
    }

    /** `assert_reserved`: the grant is valid, and the table still shows the consumption of its
        roots. */
    method StillReserved(g: Grant) returns (ok: bool)
      ensures ok <==> GrantOk(g) && LeasedTo(leases, g.allocation)
    {
      if !GrantOk(g) {
        return false;
      }
      ok := forall k :: k in Keys(g.allocation) ==> k in leases && leases[k] == Bootstrap(g.allocation);
    }

    /** The slot that an earlier grant of this record consumed, found unchanged in the pool. */
    method Inherited(g: Grant, slots: seq<Slot>) returns (ok: bool)
      requires SlotsOk(slots, Policy(None, None, []))
      ensures ok <==> GrantOk(g) && LeasedTo(leases, g.allocation)
                      && exists i :: 0 <= i < |slots| && slots[i] == Slot(g.allocation.slot, g.allocation.roots)
    {
      ok := StillReserved(g);
      if !ok {
        return;
      }
      for i := 0 to |slots|
        invariant forall j :: 0 <= j < i ==> slots[j].id != g.allocation.slot
      {
        if slots[i].id == g.allocation.slot {
          ok := slots[i].roots == g.allocation.roots;
          return;
        }
      }
      ok := false;
    }

    /** Leases a free slot for good. */
    method Consume(record: Record, slot: Slot)
      requires Valid() && SlotFree(leases, slot) && RootsOk(slot.roots)
      modifies this`leases, this`allocations
      ensures Valid() && allocations == old(allocations) + [Allocation(record, slot.id, slot.roots)]
      ensures leases == WithLeases(old(leases), Allocation(record, slot.id, slot.roots))
      ensures Allocation(record, slot.id, slot.roots) !in old(allocations)
      ensures forall k :: k in old(leases) ==> k in leases && leases[k] == old(leases)[k]
    {
      hide GrantOk;
      hide AllSeparate;
      hide AllLeased;
      hide Exclusive;
      hide SlotFree;
      hide RootsOk;
      hide WithLeases;
      var a := Allocation(record, slot.id, slot.roots);
      OneMore(allocations, leases, slot, record);
      LeasesKept(leases, allocations, a);
      leases := WithLeases(leases, a);
      allocations := allocations + [a];
    }

    /** Reserves the roots of one phase.  A repeated call returns the same grant and changes
        nothing; the business phase takes over the preflight roots and leases nothing; every
        other first call consumes the first free slot of the pool, whatever pools were in use
        before.  A refusal changes nothing. */
    method Reserve(record: Record, operation: string, phase: Broker.Phase, slots: seq<Slot>, extra: Option<Root>,
                   sources: seq<string>) returns (reply: Reply)
      requires Valid()
      modifies this
      ensures Valid()
      ensures forall k :: k in old(leases) ==> k in leases && leases[k] == old(leases)[k]
      ensures !reply.Granted? ==> leases == old(leases) && grants == old(grants) && allocations == old(allocations)
      ensures reply.Granted? ==> grants == old(grants)[(record, phase) := reply.grant] && GrantOk(reply.grant)
      ensures reply.Granted? && (record, phase) in old(grants) ==>
                reply.grant == old(grants)[(record, phase)] && leases == old(leases) && allocations == old(allocations)
      ensures (record, phase) in old(grants) && Repeats(old(grants)[(record, phase)], operation, slots, extra, sources) ==>
                reply.Granted?
      ensures reply.Granted? && phase == Broker.Business && (record, phase) !in old(grants) ==>
                && (record, Broker.Preflight) in old(grants)
                && reply.grant.allocation == old(grants)[(record, Broker.Preflight)].allocation
                && leases == old(leases) && allocations == old(allocations)
      ensures reply.Granted? && phase != Broker.Business && (record, phase) !in old(grants) ==>
                && reply.grant.allocation !in old(allocations) && allocations == old(allocations) + [reply.grant.allocation]
                && Slot(reply.grant.allocation.slot, reply.grant.allocation.roots) in slots
    {
      hide AllSeparate;
      hide AllLeased;
      hide SlotFree;
      hide WithLeases;
      hide GrantOk;
      hide RootsOk;
      hide Exclusive;
      hide SlotsOk;
      if (record, phase) in grants {
        GrantPhase(grants[(record, phase)]);
      }
      var sane := ValidateSlots(slots, Policy(None, None, []));
      if !sane || !PhaseOf(record, phase) || (extra.Some? && phase != Broker.Evidence) {
        return Invalid;
      }
      if (record, phase) in grants || phase == Broker.Business {
        reply := Inherit(record, operation, phase, slots, extra, sources);
        return;
      }
      var found := FirstFree(leases, slots);
      if found == None {
        return NoSlotLeft;
      }
      var slot := found.value;
      var grant := Grant(record, operation, phase, Allocation(record, slot.id, slot.roots), extra, sources);
      if !GrantOk(grant) {
        return Invalid;
      }
      GrantRoots(grant);
      Consume(record, slot);
      assert Exclusive(grants[(record, phase) := grant]) by {
        NewIsExclusive(grants, old(allocations), (record, phase), grant);
      }
      grants := grants[(record, phase) := grant];
      reply := Granted(grant);
    }

    method Inherit(record: Record, operation: string, phase: Broker.Phase, slots: seq<Slot>, extra: Option<Root>,
                   sources: seq<string>) returns (reply: Reply)
      requires Valid() && SlotsOk(slots, Policy(None, None, []))
      requires (record, phase) in grants || phase == Broker.Business
      modifies this`grants
      ensures Valid()
      ensures !reply.Granted? ==> grants == old(grants)
      ensures reply.Granted? ==> grants == old(grants)[(record, phase) := reply.grant] && GrantOk(reply.grant)
      ensures reply.Granted? && (record, phase) in old(grants) ==> reply.grant == old(grants)[(record, phase)]
      ensures (record, phase) in old(grants) && Repeats(old(grants)[(record, phase)], operation, slots, extra, sources) ==>
                reply.Granted?
      ensures reply.Granted? && (record, phase) !in old(grants) ==>
                && (record, Broker.Preflight) in old(grants)
                && reply.grant.allocation == old(grants)[(record, Broker.Preflight)].allocation
    {
      hide AllSeparate;
      hide AllLeased;
      hide GrantOk;
      hide Exclusive;
      hide SlotsOk;
      hide LeasedTo;
      if (record, phase) !in grants && (record, Broker.Preflight) !in grants {
        return Invalid;
      }
      var prior := if (record, phase) in grants then grants[(record, phase)] else grants[(record, Broker.Preflight)];
      assert LeasedTo(leases, prior.allocation) by {
        OneLeased(leases, allocations, prior.allocation);
      }
      var ok := Inherited(prior, slots);
      if !ok {
        return Invalid;
      }
      var grant := Grant(record, operation, phase, prior.allocation, extra, sources);
      if !GrantOk(grant) || ((record, phase) in grants && grant != grants[(record, phase)]) {
        return Invalid;
      }
      assert Exclusive(grants[(record, phase) := grant]) by {
        SharedIsExclusive(grants, record, phase, grant);
      }
      grants := grants[(record, phase) := grant];
      reply := Granted(grant);
    }
  }

  lemma GrantPhase(g: Grant)
    requires GrantOk(g)
    ensures PhaseOf(g.record, g.phase) && (g.retained.Some? ==> g.phase == Broker.Evidence)
  {
  }

  lemma OneLeased(leases: map<string, Owner>, allocations: seq<Allocation>, a: Allocation)
    requires AllLeased(leases, allocations) && a in allocations
    ensures LeasedTo(leases, a)
  {
  }

  lemma GrantRoots(g: Grant)
    requires GrantOk(g)
    ensures RootsOk(g.allocation.roots)
  {
  }

  lemma NewIsExclusive(grants: Grants, allocations: seq<Allocation>, x: (Record, Broker.Phase), g: Grant)
    requires Exclusive(grants) && (forall y :: y in grants ==> grants[y].allocation in allocations) && g.allocation !in allocations
    ensures Exclusive(grants[x := g])
  {
  }

  /** Taking over the preflight roots for the business phase shares them with nobody else. */
  lemma SharedIsExclusive(grants: Grants, record: Record, phase: Broker.Phase, g: Grant)
    requires Exclusive(grants)
    requires if (record, phase) in grants then g == grants[(record, phase)]
             else phase == Broker.Business && (record, Broker.Preflight) in grants
                  && g.allocation == grants[(record, Broker.Preflight)].allocation
    ensures Exclusive(grants[(record, phase) := g])
  {
  }

  /** The moves that `bind_execution` reads off a grant. */
  function MovesOf(g: Grant): seq<Move>
    requires |g.sources| == 3
  {
    seq(3, i requires 0 <= i < 3 => Move(g.sources[i], Three(g.allocation.roots)[i].path))
  }

  /** Every grant meets what the laws of binding ask for. */
  lemma GrantMovesApart(g: Grant)
    requires GrantOk(g)
    ensures SourcesApart(MovesOf(g)) && TargetsApart(MovesOf(g))
  {
    forall i, j | 0 <= i < j < 3
      ensures !Overlap(MovesOf(g)[i].source, MovesOf(g)[j].source) && !Overlap(MovesOf(g)[i].target, MovesOf(g)[j].target)
    {
      assert !Overlap(g.sources[i], g.sources[j]);
      assert Apart(Three(g.allocation.roots)[i], Three(g.allocation.roots)[j]);
    }
  }
}
