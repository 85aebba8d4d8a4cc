/** Verification of a recovery point: every committed ledger operation must resolve to a
    retained original request. */
module ArchiveRecovery {
  import opened Octets
  import opened Collections
  import opened Archive

  /** A store as it is found; nothing is assumed about it. */
  datatype Point = Point(tasks: map<Task, Directory>, reservations: map<Task, Reservation>, ledger: map<OpKey, Committed>)

  function ReceiptsOf(p: Point, t: Task): map<Kind, Committed> {
    if t in p.reservations then p.reservations[t].receipts else map[]
  }

  /** The retained files of `t` are those of an original staging, and its reservation agrees. */
  predicate Intact(p: Point, t: Task)
    requires t in p.tasks
  {
    var d := p.tasks[t];
    && d.binding.task == t && d == Staged(d.binding, d.files)
    && (t in p.reservations ==> p.reservations[t].binding == d.binding)
  }

  function Key(p: Point, t: Task, kind: Kind): OpKey
    requires t in p.tasks
  {
    KeyOf(p.tasks[t].binding, kind)
  }

  function Original(p: Point, t: Task, kind: Kind): Request
    requires t in p.tasks
  {
    RequestOf(p.tasks[t].binding, kind, p.tasks[t].files)
  }

  /** Something retained says that this operation was committed. */
  predicate Expected(p: Point, t: Task, kind: Kind)
    requires t in p.tasks
  {
    kind in ReceiptsOf(p, t) || (kind == Create && (Key(p, t, Append) in p.ledger || Append in ReceiptsOf(p, t)))
  }

  /** The ledger's operation is the retained request, and agrees with its receipt; or there is
      none and none is expected. */
  predicate OperationOk(p: Point, t: Task, kind: Kind)
    requires t in p.tasks
  {
    if Key(p, t, kind) in p.ledger then
      && p.ledger[Key(p, t, kind)].request == Original(p, t, kind)
      && (kind in ReceiptsOf(p, t) ==> ReceiptsOf(p, t)[kind] == p.ledger[Key(p, t, kind)])
    else !Expected(p, t, kind)
  }

  predicate TaskOk(p: Point, t: Task)
    requires t in p.tasks
  {
    Intact(p, t) && OperationOk(p, t, Create) && OperationOk(p, t, Append)
  }

  predicate TasksOk(p: Point) {
    && (forall t :: t in p.reservations ==> t in p.tasks)
    && (forall t :: t in p.tasks ==> TaskOk(p, t))
  }

  /** The ledger key belongs to a retained task. */
  predicate Resolves(p: Point, key: OpKey) {
    exists t, kind :: t in p.tasks && key == Key(p, t, kind)
  }

  /** `verified` is what the ledger holds of the first `i` tasks. */
  ghost predicate Covers(p: Point, names: seq<Task>, i: nat, verified: set<OpKey>)
    requires i <= |names| && forall t :: t in names ==> t in p.tasks
  {
    forall key :: key in verified <==> key in p.ledger && exists j, kind :: 0 <= j < i && key == Key(p, names[j], kind)
  }

  method VerifyOperation(p: Point, t: Task, kind: Kind, verified: set<OpKey>) returns (ok: bool, more: set<OpKey>)
    requires t in p.tasks
    ensures ok <==> OperationOk(p, t, kind)
    ensures ok ==> more == verified + (if Key(p, t, kind) in p.ledger then {Key(p, t, kind)} else {})
  {
    var key := Key(p, t, kind);
    ok, more := true, verified;
    if key !in p.ledger {
      ok := !Expected(p, t, kind);
      return;
    }
    if p.ledger[key].request != Original(p, t, kind) {
      return false, verified;
    }
    if kind in ReceiptsOf(p, t) && ReceiptsOf(p, t)[kind] != p.ledger[key] {
      return false, verified;
    }
    more := verified + {key};
  }

  /** The pass over the retained tasks.  Given the ledger's own count, it accepts exactly the
      stores in which every task is in order and every committed operation resolves to one of
      them. */
  method VerifyRequests(p: Point, count: nat) returns (ok: bool)
    requires count == |p.ledger|
    ensures ok <==> TasksOk(p) && forall key :: key in p.ledger ==> Resolves(p, key)
  {
    hide Covers;
    hide OperationOk;
    hide Intact;
    hide Resolves;
    hide Key;
    if exists t :: t in p.reservations && t !in p.tasks {
      return false;
    }
    var names := Listing(p.tasks.Keys);
    var verified: set<OpKey> := {};
    NothingCovered(p, names);
    for i := 0 to |names|
      invariant forall j :: 0 <= j < i ==> TaskOk(p, names[j])
      invariant Covers(p, names, i, verified)
    {
      var t := names[i];
      var before := verified;
      if !Intact(p, t) {
        return false;
      }
      ok, verified := VerifyOperation(p, t, Create, verified);
      if !ok {
        return;
      }
      ok, verified := VerifyOperation(p, t, Append, verified);
      if !ok {
        return;
      }
      Grown(p, names, i, before, verified);
    }
    ok := |verified| == count;
    CountDecides(p, names, verified);
  }

  lemma NothingCovered(p: Point, names: seq<Task>)
    requires forall t :: t in names ==> t in p.tasks
    ensures Covers(p, names, 0, {})
  {
  }

  lemma Grown(p: Point, names: seq<Task>, i: nat, before: set<OpKey>, after: set<OpKey>)
    requires i < |names| && (forall t :: t in names ==> t in p.tasks) && Covers(p, names, i, before)
    requires after == before + (if Key(p, names[i], Create) in p.ledger then {Key(p, names[i], Create)} else {})
                      + (if Key(p, names[i], Append) in p.ledger then {Key(p, names[i], Append)} else {})
    ensures Covers(p, names, i + 1, after)
  {
    forall key | key in p.ledger && exists j, kind :: 0 <= j < i + 1 && key == Key(p, names[j], kind) ensures key in after {
      var j, kind :| 0 <= j < i + 1 && key == Key(p, names[j], kind);
      assert kind == Create || kind == Append;
    }
  }

  /** Distinct verified keys of the ledger, as many as the ledger has, are all of them. */
  lemma CountDecides(p: Point, names: seq<Task>, verified: set<OpKey>)
    requires (forall t :: t in p.tasks <==> t in names) && Covers(p, names, |names|, verified)
    ensures |verified| == |p.ledger| <==> forall key :: key in p.ledger ==> Resolves(p, key)
  {
    assert verified <= p.ledger.Keys;
    if forall key :: key in p.ledger ==> Resolves(p, key) {
      forall key | key in p.ledger ensures key in verified {
        var t, kind :| t in p.tasks && key == Key(p, t, kind);
        var j :| 0 <= j < |names| && names[j] == t;
        assert key == Key(p, names[j], kind);
      }
      assert verified == p.ledger.Keys;
    } else if |verified| == |p.ledger| {
      SameSize(verified, p.ledger.Keys);
    }
  }

  /** A verified recovery point: each committed operation is byte for byte the request that one
      of the retained tasks still holds in its files. */
  lemma CommittedIsRetained(p: Point, key: OpKey)
    requires TasksOk(p) && key in p.ledger && Resolves(p, key)
    ensures exists t :: t in p.tasks && p.ledger[key].request in {p.tasks[t].create, p.tasks[t].append}
  {
    var t, kind :| t in p.tasks && key == Key(p, t, kind);
    assert TaskOk(p, t);
    assert kind == Create || kind == Append;
    assert p.ledger[key].request in {p.tasks[t].create, p.tasks[t].append};
  }
}
