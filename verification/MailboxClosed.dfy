/** Tasks that no foreign writer touches.  `own` is a set of task ids: workers and controllers
    are the code modelled here, one worker per node, pushes are fast-forward, and foreign writers
    may add any record except one about an id in `own`.  For these ids a success that a
    controller returns is the handler's own.  The closed system is the case of all ids. */
module MailboxClosed {
  import opened Mailbox
  import opened MailboxSafety

  type Ids = iset<TaskId>

  /** No record about an id in `own` differs between the two trees. */
  ghost predicate Untouched(own: Ids, a: Remote, b: Remote) {
    && (forall id :: id in own ==> (id in a.tasks <==> id in b.tasks) && (id in a.tasks ==> a.tasks[id] == b.tasks[id]))
    && (forall id :: id in own ==> (id in a.results <==> id in b.results) && (id in a.results ==> a.results[id] == b.results[id]))
    && (forall d: Digest :: d.task.id in own ==> (d in a.conflicts <==> d in b.conflicts))
  }

  ghost predicate Allowed(own: Ids, w: World, s: Step) {
    !s.ForeignRewrite? && (s.ForeignAdd? ==> Untouched(own, w.remote, s.tree))
  }

  /** Along the run nobody else writes about the ids in `own`. */
  ghost predicate Guarded(own: Ids, w: World, steps: seq<Step>)
    requires Runs(w, steps)
    decreases |steps|
  {
    steps == [] || (Allowed(own, w, steps[0]) && Guarded(own, Apply(w, steps[0]), steps[1..]))
  }

  // ---- the invariant ----------------------------------------------------------------------

  ghost predicate About(own: Ids, name: Name) {
    NameId(name) in own
  }

  /** The branch binds `id` to a task for node `n`. */
  predicate Bound(w: World, n: NodeId, id: TaskId) {
    && id in w.remote.tasks && w.remote.tasks[id].Loaded?
    && w.remote.tasks[id].task.id == id && w.remote.tasks[id].task.node == n
  }

  function TaskOf(w: World, id: TaskId): Task
    requires id in w.remote.tasks && w.remote.tasks[id].Loaded?
  {
    w.remote.tasks[id].task
  }

  predicate BoundTo(w: World, n: NodeId, t: Task) {
    Bound(w, n, t.id) && TaskOf(w, t.id) == t
  }

  /** `r` is what some handler run returned for `t`, possibly cut down to fit. */
  predicate Returned(log: seq<Execution>, n: NodeId, t: Task, r: Result) {
    exists i :: 0 <= i < |log| && log[i].node == n && log[i].task == t
                && (r == log[i].result || r == Bounded(log[i].result, false))
  }

  predicate Explained(log: seq<Execution>, n: NodeId, t: Task, provenance: string, r: Result) {
    r == Unknown(t, n, provenance) || r == Rejection(t, n, provenance) || Returned(log, n, t, r)
  }

  ghost predicate NotPlaced(w: World, n: NodeId, id: TaskId) {
    forall p :: p in w.placed ==> p.node != n || p.id != id
  }

  predicate PlacementOk(w: World, p: Placement) {
    && p.node in w.nodes && Bound(w, p.node, p.id)
    && FromHandler(TaskOf(w, p.id), p.node, w.nodes[p.node].provenance, p.result)
    && Explained(w.log, p.node, TaskOf(w, p.id), w.nodes[p.node].provenance, p.result)
  }

  /** At most one result is ever placed for a task. */
  ghost predicate PlacedOk(own: Ids, w: World) {
    && (forall p :: p in w.placed && p.id in own ==> PlacementOk(w, p))
    && (forall p, q :: p in w.placed && q in w.placed && p.id == q.id && p.id in own ==> p == q)
  }

  ghost predicate RemoteOk(own: Ids, w: World) {
    && (forall d :: d in w.remote.conflicts ==> d.task.id !in own)
    && (forall id :: id in w.remote.tasks && id in own ==> w.remote.tasks[id].Loaded? && w.remote.tasks[id].task.id == id)
    && (forall id :: id in w.remote.results && id in own ==>
          && w.remote.results[id].Json? && id in w.remote.tasks
          && Placement(TaskOf(w, id).node, id, w.remote.results[id].result) in w.placed)
  }

  ghost predicate OutboxOk(own: Ids, w: World, n: NodeId, d: Disk) {
    forall name :: name in d.outbox && About(own, name) ==>
      name.Canonical? && d.outbox[name].Json? && Placement(n, name.id, d.outbox[name].result) in w.placed
  }

  ghost predicate ReceiptsOk(own: Ids, w: World, n: NodeId, d: Disk) {
    forall id :: id in d.receipts && id in own ==>
      && Bound(w, n, id)
      && (|| d.receipts[id] == Intent(Sha256(TaskOf(w, id)))
          || (&& d.receipts[id].Done? && d.receipts[id].digest == Sha256(TaskOf(w, id))
              && Placement(n, id, d.receipts[id].result) in w.placed))
  }

  ghost predicate DoingOk(own: Ids, w: World, n: NodeId, g: Doing, provenance: string) {
    g != Idle && g.task.id in own ==>
      && !g.Marked? && BoundTo(w, n, g.task)
      && (g.Intended? || g.Entered? || g.Produced? ==> NotPlaced(w, n, g.task.id))
      && (g.Produced? ==> FromHandler(g.task, n, provenance, g.result) && Returned(w.log, n, g.task, g.result))
      && (g.Stored? ==> Placement(n, g.task.id, g.result) in w.placed)
  }

  /** What was placed is still in the outbox, or visible in the worker's own checkout. */
  ghost predicate VisibleOk(own: Ids, w: World, n: NodeId, d: Disk) {
    && Worker(n) in w.clones
    && forall p :: p in w.placed && p.node == n && p.id in own ==>
         Canonical(p.id) in d.outbox || p.id in w.clones[Worker(n)].results
  }

  /** Whatever the worker has filed under an id carries the digest of a task with that id. */
  ghost predicate FiledOk(d: Disk, g: Doing) {
    && (forall id :: Canonical(id) in d.outbox && d.outbox[Canonical(id)].Json? ==>
          d.outbox[Canonical(id)].result.digest.task.id == id)
    && (forall id :: id in d.receipts && d.receipts[id].Done? ==> d.receipts[id].result.digest.task.id == id)
    && (g.Produced? || g.Stored? ==> g.result.digest.task.id == g.task.id)
  }

  /** Nothing about these ids was ever set aside. */
  ghost predicate CleanOk(own: Ids, d: Disk) {
    && (forall k :: k in d.markers ==> k.task.id !in own)
    && (forall q :: q in d.quarantine ==> !About(own, q.name))
  }

  ghost predicate NodeOk(own: Ids, w: World, n: NodeId)
    requires n in w.nodes
  {
    var d := w.nodes[n].disk;
    && CleanOk(own, d) && FiledOk(d, w.nodes[n].doing)
    && OutboxOk(own, w, n, d) && ReceiptsOk(own, w, n, d) && VisibleOk(own, w, n, d)
    && DoingOk(own, w, n, w.nodes[n].doing, w.nodes[n].provenance)
  }

  ghost predicate LogOk(own: Ids, w: World) {
    forall i :: 0 <= i < |w.entered| && w.entered[i].task.id in own ==> BoundTo(w, w.entered[i].node, w.entered[i].task)
  }

  ghost predicate Closed(own: Ids, w: World) {
    && Tracked(w) && Matched(w) && Behind(w) && PlacedOk(own, w) && RemoteOk(own, w) && LogOk(own, w)
    && forall n :: n in w.nodes ==> NodeOk(own, w, n)
  }

  /** Workers with empty state roots, and a branch that holds at most task files for these ids. */
  ghost predicate FreshSystem(own: Ids, w: World) {
    && Started(w) && w.placed == {} && Behind(w)
    && (forall id :: id in w.remote.results ==> id !in own)
    && (forall d :: d in w.remote.conflicts ==> d.task.id !in own)
    && (forall id :: id in w.remote.tasks && id in own ==> w.remote.tasks[id].Loaded? && w.remote.tasks[id].task.id == id)
    && (forall n :: n in w.nodes ==> Worker(n) in w.clones && w.nodes[n].disk == Disk(map[], map[], map[], map[]))
  }

  lemma FreshIsClosed(own: Ids, w: World)
    requires FreshSystem(own, w)
    ensures Closed(own, w)
  {
    forall n | n in w.nodes ensures NodeOk(own, w, n) {
      FreshNode(own, w, n);
    }
    hide Behind;
    hide NodeOk;
  }

  lemma FreshNode(own: Ids, w: World, n: NodeId)
    requires n in w.nodes && w.placed == {} && Worker(n) in w.clones
    requires w.nodes[n].disk == Disk(map[], map[], map[], map[]) && w.nodes[n].doing == Idle
    ensures NodeOk(own, w, n)
  {
  }

  // ---- what cannot happen to these ids --------------------------------------------------------

  lemma SeenIsBound(own: Ids, w: World, n: NodeId, t: Task)
    requires Closed(own, w) && HasNode(w, n) && Seen(w.clones[Worker(n)], n, t) && t.id in own
    ensures BoundTo(w, n, t)
  {
  }

  /** A result in a worker's checkout, for one of its tasks, is the one it placed. */
  lemma CheckoutResult(own: Ids, w: World, n: NodeId, id: TaskId)
    requires Closed(own, w) && HasNode(w, n) && id in w.clones[Worker(n)].results && Bound(w, n, id) && id in own
    ensures w.clones[Worker(n)].results[id].Json?
    ensures Placement(n, id, w.clones[Worker(n)].results[id].result) in w.placed
    ensures FromHandler(TaskOf(w, id), n, w.nodes[n].provenance, w.clones[Worker(n)].results[id].result)
  {
    assert w.clones[Worker(n)].results[id] == w.remote.results[id];
    assert PlacementOk(w, Placement(n, id, w.remote.results[id].result));
  }

  lemma ReceiptAgrees(own: Ids, w: World, n: NodeId, t: Task)
    requires Closed(own, w) && HasNode(w, n) && BoundTo(w, n, t) && t.id in w.nodes[n].disk.receipts && t.id in own
    ensures ReceiptFits(w.nodes[n].disk.receipts[t.id], t, n)
    ensures var rc := w.nodes[n].disk.receipts[t.id]; rc.Done? ==> Placement(n, t.id, rc.result) in w.placed
  {
    assert NodeOk(own, w, n);
    var rc := w.nodes[n].disk.receipts[t.id];
    if rc.Done? {
      assert PlacementOk(w, Placement(n, t.id, rc.result));
    }
  }

  lemma PlacedSame(own: Ids, w: World, p: Placement, q: Placement)
    requires Closed(own, w) && p in w.placed && q in w.placed && p.id == q.id && p.id in own
    ensures p == q
  {
  }

  lemma NoMark(own: Ids, w: World, n: NodeId, t: Task)
    requires Closed(own, w) && HasNode(w, n) && Seen(w.clones[Worker(n)], n, t) && t.id in own
    ensures !MustMark(w.clones[Worker(n)], w.nodes[n].disk, t, n)
  {
    SeenIsBound(own, w, n, t);
    hide Closed;
    var d, c := w.nodes[n].disk, w.clones[Worker(n)];
    if t.id in d.receipts {
      ReceiptAgrees(own, w, n, t);
    }
    if t.id in c.results {
      CheckoutResult(own, w, n, t.id);
      if t.id in d.receipts && d.receipts[t.id].Done? {
        PlacedSame(own, w, Placement(n, t.id, c.results[t.id].result), Placement(n, t.id, d.receipts[t.id].result));
      }
    }
  }

  lemma NoCollision(own: Ids, w: World, n: NodeId, name: Name)
    requires Closed(own, w) && HasNode(w, n) && name in w.nodes[n].disk.outbox && About(own, name)
    ensures name.Canonical? && OutboxValid(name, w.nodes[n].disk.outbox[name])
    ensures !Collided(w.clones[Worker(n)], name.id, w.nodes[n].disk.outbox[name].result)
    ensures !MustQuarantine(w.clones[Worker(n)], w.nodes[n].disk.outbox, name)
  {
    assert NodeOk(own, w, n);
    var r := w.nodes[n].disk.outbox[name].result;
    assert PlacementOk(w, Placement(n, name.id, r));
    if name.id in w.clones[Worker(n)].results {
      CheckoutResult(own, w, n, name.id);
      PlacedSame(own, w, Placement(n, name.id, w.clones[Worker(n)].results[name.id].result), Placement(n, name.id, r));
    }
  }

  /** A placed result is in the outbox or in the checkout, so it is never placed anew. */
  lemma ReadyNotPlaced(own: Ids, w: World, n: NodeId, t: Task)
    requires Closed(own, w) && Ready(w, n, t) && t.id !in w.clones[Worker(n)].results && t.id in own
    ensures NotPlaced(w, n, t.id)
  {
    assert NodeOk(own, w, n);
  }

  lemma NoResend(own: Ids, w: World, n: NodeId, t: Task)
    requires Closed(own, w) && Enabled(w, Resend(n, t))
    ensures t.id !in own
  {
    if t.id in own {
      SeenIsBound(own, w, n, t);
      ReceiptAgrees(own, w, n, t);
      ReadyNotPlaced(own, w, n, t);
    }
  }

  lemma NoBarrier(own: Ids, w: World, n: NodeId, d: Digest)
    requires Closed(own, w) && HasNode(w, n)
    ensures d in w.nodes[n].disk.markers || d in w.clones[Worker(n)].conflicts ==> d.task.id !in own
  {
    assert NodeOk(own, w, n);
    assert Extends(w.clones[Worker(n)], w.remote);
  }

  /** The id that a worker's step is about. */
  function Subject(w: World, s: Step): TaskId {
    match s
    case ResultPush(_, name, _) => NameId(name)
    case Unlink(_, name) => NameId(name)
    case MoveToQuarantine(_, name, _, _) => NameId(name)
    case QueueCollision(_, id) => id
    case QueueMark(n) => DoingId(w, n)
    case Enter(n) => DoingId(w, n)
    case Finish(n, _, _) => DoingId(w, n)
    case StoreProduced(n) => DoingId(w, n)
    case WriteReceipt(n) => DoingId(w, n)
    case Mark(_, t, _, _) => t.id
    case RequeueMark(_, t) => t.id
    case AdoptMark(_, t) => t.id
    case WriteIntent(_, t) => t.id
    case StoreUnknown(_, t) => t.id
    case StoreRejection(_, t) => t.id
    case Resend(_, t) => t.id
    case AdoptResult(_, t) => t.id
    case _ => ""
  }

  function NameId(name: Name): TaskId {
    match name
    case Canonical(id) => id
    case Conflict(d) => d.task.id
  }

  function DoingId(w: World, n: NodeId): TaskId {
    if n in w.nodes && w.nodes[n].doing != Idle then w.nodes[n].doing.task.id else ""
  }

  /** The steps that set something aside. */
  predicate SetsAside(s: Step) {
    s.QueueCollision? || s.MoveToQuarantine? || s.Mark? || s.QueueMark? || s.RequeueMark? || s.AdoptMark? || s.Resend?
  }

  lemma NoneSetAside(own: Ids, w: World, n: NodeId)
    requires Closed(own, w) && HasNode(w, n)
    ensures w.nodes[n].doing.Marked? ==> w.nodes[n].doing.task.id !in own
  {
    assert NodeOk(own, w, n);
  }

  lemma NoMarking(own: Ids, w: World, n: NodeId, t: Task, status: Status, code: string)
    requires Closed(own, w) && Enabled(w, Mark(n, t, status, code))
    ensures t.id !in own
  {
    if t.id in own {
      NoMark(own, w, n, t);
    }
  }

  lemma NoOutboxTrouble(own: Ids, w: World, n: NodeId, name: Name)
    requires Closed(own, w) && HasNode(w, n) && name in w.nodes[n].disk.outbox
    requires || MustQuarantine(w.clones[Worker(n)], w.nodes[n].disk.outbox, name)
             || (name.Canonical? && Collided(w.clones[Worker(n)], name.id, w.nodes[n].disk.outbox[name].result))
    ensures !About(own, name)
  {
    if About(own, name) {
      NoCollision(own, w, n, name);
    }
  }

  /** No collision, marker, quarantine or resend is ever reached for these ids. */
  lemma Impossible(own: Ids, w: World, s: Step)
    requires Closed(own, w) && Enabled(w, s) && SetsAside(s)
    ensures Subject(w, s) !in own
  {
    hide Closed;
    hide MustQuarantine;
    hide MustMark;
    hide Collided;
    if s.QueueCollision? {
      NoOutboxTrouble(own, w, s.node, Canonical(s.id));
    } else if s.MoveToQuarantine? {
      NoOutboxTrouble(own, w, s.node, s.name);
    } else if s.Mark? {
      NoMarking(own, w, s.node, s.task, s.status, s.code);
    } else if s.Resend? {
      NoResend(own, w, s.node, s.task);
    } else if s.RequeueMark? || s.AdoptMark? {
      NoBarrier(own, w, s.node, Sha256(s.task));
    } else {
      NoneSetAside(own, w, s.node);
    }
  }

  // ---- the invariant is kept: what others leave alone -------------------------------------------

  /** Nothing that `w` establishes about records is withdrawn in `w'`. */
  predicate Later(w: World, w': World) {
    && w'.nodes.Keys == w.nodes.Keys && (forall n :: n in w.nodes ==> w'.nodes[n].provenance == w.nodes[n].provenance)
    && Extends(w.remote, w'.remote) && w.placed <= w'.placed
    && w.log <= w'.log && w.entered <= w'.entered
  }

  /** No result was placed for these ids. */
  ghost predicate NothingPlaced(own: Ids, w: World, w': World) {
    forall p :: p in w'.placed && p.id in own ==> p in w.placed
  }

  lemma ReturnedLater(log: seq<Execution>, log': seq<Execution>, n: NodeId, t: Task, r: Result)
    requires log <= log' && Returned(log, n, t, r)
    ensures Returned(log', n, t, r)
  {
    var i :| 0 <= i < |log| && log[i].node == n && log[i].task == t
             && (r == log[i].result || r == Bounded(log[i].result, false));
    assert log'[i] == log[i];
  }

  lemma PlacementLater(w: World, w': World, p: Placement)
    requires Later(w, w') && PlacementOk(w, p)
    ensures PlacementOk(w', p)
  {
    var t, v := TaskOf(w, p.id), w.nodes[p.node].provenance;
    if p.result != Unknown(t, p.node, v) && p.result != Rejection(t, p.node, v) {
      ReturnedLater(w.log, w'.log, p.node, t, p.result);
    }
  }

  /** A node that did not act keeps its part of the invariant. */
  lemma NodeLater(own: Ids, w: World, w': World, n: NodeId)
    requires Later(w, w') && n in w.nodes && NodeOk(own, w, n) && w'.nodes[n] == w.nodes[n] && NothingPlacedBy(own, w, w', n)
    requires Worker(n) in w'.clones && w.clones[Worker(n)].results.Keys <= w'.clones[Worker(n)].results.Keys
    ensures NodeOk(own, w', n)
  {
    var g := w.nodes[n].doing;
    if g.Produced? && g.task.id in own {
      ReturnedLater(w.log, w'.log, n, g.task, g.result);
    }
  }

  ghost predicate NothingPlacedBy(own: Ids, w: World, w': World, n: NodeId) {
    forall p :: p in w'.placed && p.id in own && p.node == n ==> p in w.placed
  }

  lemma LogLater(own: Ids, w: World, w': World)
    requires Later(w, w') && LogOk(own, w) && w'.entered == w.entered
    ensures LogOk(own, w')
  {
  }

  lemma PlacedLater(own: Ids, w: World, w': World)
    requires Later(w, w') && PlacedOk(own, w) && NothingPlaced(own, w, w')
    ensures PlacedOk(own, w')
  {
    forall p | p in w'.placed && p.id in own ensures PlacementOk(w', p) {
      PlacementLater(w, w', p);
    }
  }

  lemma NodeHasClone(own: Ids, w: World, n: NodeId)
    requires n in w.nodes && NodeOk(own, w, n)
    ensures Worker(n) in w.clones
  {
  }

  lemma CheckoutGrows(w: World, s: Step, p: Party)
    requires Behind(w) && Enabled(w, s) && !s.ForeignRewrite? && p in w.clones
    ensures p in Apply(w, s).clones && w.clones[p].results.Keys <= Apply(w, s).clones[p].results.Keys
  {
    hide Enabled;
    hide Apply;
    BranchFrame(w, s);
  }

  // ---- the first placement of a result ------------------------------------------------------------

  predicate Places(s: Step) {
    s.StoreProduced? || s.StoreUnknown? || s.StoreRejection?
  }

  /** Only these steps place, and only for the id they are about. */
  lemma PlacedSubject(w: World, s: Step, p: Placement)
    requires Enabled(w, s) && p in Apply(w, s).placed && p !in w.placed
    ensures Places(s) || s.Resend?
    ensures p.id == Subject(w, s)
  {
  }

  lemma ClosedParts(own: Ids, w: World)
    requires Closed(own, w)
    ensures Tracked(w) && Matched(w) && Behind(w)
  {
  }

  lemma StepIsLater(own: Ids, w: World, s: Step)
    requires Closed(own, w) && Enabled(w, s) && !s.ForeignRewrite?
    ensures Later(w, Apply(w, s))
    ensures !(Places(s) && Subject(w, s) in own) ==> NothingPlaced(own, w, Apply(w, s))
  {
    hide Enabled;
    hide Apply;
    hide Closed;
    hide Tracked;
    hide Behind;
    hide Subject;
    ClosedParts(own, w);
    GrowsStep(w, s);
    StepFrame(w, s);
    AuditFrame(w, s);
    if !(Places(s) && Subject(w, s) in own) {
      forall p | p in Apply(w, s).placed && p.id in own ensures p in w.placed {
        if p !in w.placed {
          PlacedSubject(w, s, p);
          Impossible(own, w, s);
        }
      }
    }
  }

  /** `s` places `p`, the first placement for its task. */
  ghost predicate PlacesFirst(own: Ids, w: World, s: Step, p: Placement)
    requires Enabled(w, s)
  {
    && HasNode(w, p.node) && NotPlaced(w, p.node, p.id) && PlacementOk(w, p) && p.id in own
    && PlacedAs(w, Apply(w, s), p)
  }

  ghost predicate PlacedAs(w: World, w': World, p: Placement)
    requires p.node in w.nodes && Bound(w, p.node, p.id)
  {
    var d := w.nodes[p.node].disk;
    w' == WithNode(w, p.node, d.(outbox := d.outbox[Canonical(p.id) := Json(p.result, 0)]),
                   Stored(TaskOf(w, p.id), p.result)).(placed := w.placed + {p})
  }

  lemma PlaceProduced(own: Ids, w: World, n: NodeId) returns (p: Placement)
    requires Closed(own, w) && Enabled(w, StoreProduced(n)) && DoingId(w, n) in own
    ensures p.node == n && PlacesFirst(own, w, StoreProduced(n), p)
  {
    assert NodeOk(own, w, n);
    p := Placement(n, w.nodes[n].doing.task.id, w.nodes[n].doing.result);
  }

  lemma PlaceUnknown(own: Ids, w: World, n: NodeId, t: Task) returns (p: Placement)
    requires Closed(own, w) && Enabled(w, StoreUnknown(n, t)) && t.id in own
    ensures p.node == n && PlacesFirst(own, w, StoreUnknown(n, t), p)
  {
    SeenIsBound(own, w, n, t);
    ReadyNotPlaced(own, w, n, t);
    p := Placement(n, t.id, Unknown(t, n, w.nodes[n].provenance));
  }

  lemma PlaceRejection(own: Ids, w: World, n: NodeId, t: Task) returns (p: Placement)
    requires Closed(own, w) && Enabled(w, StoreRejection(n, t)) && t.id in own
    ensures p.node == n && PlacesFirst(own, w, StoreRejection(n, t), p)
  {
    SeenIsBound(own, w, n, t);
    ReadyNotPlaced(own, w, n, t);
    p := Placement(n, t.id, Rejection(t, n, w.nodes[n].provenance));
  }

  lemma NewPlacement(own: Ids, w: World, s: Step) returns (p: Placement)
    requires Closed(own, w) && Enabled(w, s) && Places(s) && Subject(w, s) in own
    ensures p.node == s.node && PlacesFirst(own, w, s, p)
  {
    hide Enabled;
    hide Apply;
    match s
    case StoreProduced(n) => p := PlaceProduced(own, w, n);
    case StoreUnknown(n, t) => p := PlaceUnknown(own, w, n, t);
    case StoreRejection(n, t) => p := PlaceRejection(own, w, n, t);
  }

  lemma PlacedOnce(own: Ids, w: World, w': World, p: Placement)
    requires PlacedOk(own, w) && RemoteOk(own, w) && Later(w, w') && w'.placed == w.placed + {p}
    requires PlacementOk(w, p) && NotPlaced(w, p.node, p.id)
    ensures PlacedOk(own, w')
  {
    forall q | q in w'.placed && q.id in own ensures PlacementOk(w', q) && (q.id == p.id ==> q == p) {
      PlacementLater(w, w', q);
    }
  }

  lemma PlacingNode(own: Ids, w: World, w': World, p: Placement)
    requires p.node in w.nodes && NodeOk(own, w, p.node) && PlacementOk(w, p) && p.id in own && PlacedAs(w, w', p)
    ensures NodeOk(own, w', p.node)
  {
  }

  /** The other parts of the invariant, once `p` has been placed. */
  lemma PlacingRest(own: Ids, w: World, w': World, p: Placement)
    requires PlacedOk(own, w) && RemoteOk(own, w) && LogOk(own, w) && (forall n :: n in w.nodes ==> NodeOk(own, w, n))
    requires p.node in w.nodes && NotPlaced(w, p.node, p.id) && PlacementOk(w, p) && p.id in own && PlacedAs(w, w', p)
    ensures PlacedOk(own, w') && RemoteOk(own, w') && LogOk(own, w') && (forall n :: n in w'.nodes ==> NodeOk(own, w', n))
  {
    hide NodeOk;
    PlacedOnce(own, w, w', p);
    LogLater(own, w, w');
    hide PlacementOk;
    forall n | n in w'.nodes ensures NodeOk(own, w', n) {
      if n == p.node {
        PlacingNode(own, w, w', p);
      } else {
        NodeHasClone(own, w, n);
        NodeLater(own, w, w', n);
      }
    }
  }

  lemma PlacingStep(own: Ids, w: World, s: Step)
    requires Closed(own, w) && Enabled(w, s) && Places(s) && Subject(w, s) in own
    ensures Closed(own, Apply(w, s))
  {
    hide Enabled;
    hide Apply;
    var p := NewPlacement(own, w, s);
    TrackedStep(w, s);
    MatchedStep(w, s);
    GrowsStep(w, s);
    hide Tracked;
    hide Matched;
    hide Behind;
    hide PlacedOk;
    hide RemoteOk;
    hide LogOk;
    hide NodeOk;
    hide PlacedAs;
    PlacingRest(own, w, Apply(w, s), p);
  }

  // ---- one lemma per other step of a worker: it keeps the worker's own part ---------------------

  lemma IntentNode(own: Ids, w: World, n: NodeId, t: Task)
    requires Enabled(w, WriteIntent(n, t)) && NodeOk(own, w, n)
    requires t.id in own ==> BoundTo(w, n, t) && NotPlaced(w, n, t.id)
    ensures NodeOk(own, Apply(w, WriteIntent(n, t)), n)
  {
  }

  lemma EnterNode(own: Ids, w: World, n: NodeId)
    requires Enabled(w, Enter(n)) && NodeOk(own, w, n)
    ensures NodeOk(own, Apply(w, Enter(n)), n)
  {
  }

  lemma FinishNode(own: Ids, w: World, n: NodeId, r: Result, fits: bool)
    requires Enabled(w, Finish(n, r, fits)) && NodeOk(own, w, n)
    ensures NodeOk(own, Apply(w, Finish(n, r, fits)), n)
  {
    var w' := Apply(w, Finish(n, r, fits));
    assert w'.log[|w.log|] == Execution(n, w.nodes[n].doing.task, r);
  }

  lemma ReceiptNode(own: Ids, w: World, n: NodeId)
    requires Enabled(w, WriteReceipt(n)) && NodeOk(own, w, n)
    ensures NodeOk(own, Apply(w, WriteReceipt(n)), n)
  {
  }

  lemma AdoptNode(own: Ids, w: World, n: NodeId, t: Task)
    requires Enabled(w, AdoptResult(n, t)) && NodeOk(own, w, n)
    requires t.id in own ==> BoundTo(w, n, t) && Placement(n, t.id, w.clones[Worker(n)].results[t.id].result) in w.placed
    ensures NodeOk(own, Apply(w, AdoptResult(n, t)), n)
  {
  }

  lemma UnlinkNode(own: Ids, w: World, n: NodeId, name: Name)
    requires Enabled(w, Unlink(n, name)) && NodeOk(own, w, n)
    ensures NodeOk(own, Apply(w, Unlink(n, name)), n)
  {
  }

  lemma CrashNode(own: Ids, w: World, n: NodeId)
    requires Enabled(w, Crash(n)) && NodeOk(own, w, n)
    ensures NodeOk(own, Apply(w, Crash(n)), n)
  {
  }

  lemma PushNode(own: Ids, w: World, n: NodeId, name: Name, acked: bool)
    requires Enabled(w, ResultPush(n, name, acked)) && NodeOk(own, w, n) && w.clones[Worker(n)] == w.remote
    ensures NodeOk(own, Apply(w, ResultPush(n, name, acked)), n)
  {
    NodeLater(own, w, Apply(w, ResultPush(n, name, acked)), n);
  }

  /** A result for another id is put in the outbox. */
  lemma PlaceElse(own: Ids, w: World, n: NodeId, t: Task, r: Result, doing: Doing)
    requires n in w.nodes && NodeOk(own, w, n) && t.id !in own && r.digest.task.id == t.id
    requires doing == Idle || doing == Stored(t, r)
    ensures NodeOk(own, Place(w, n, t, r, doing), n)
  {
  }

  lemma CollisionNode(own: Ids, w: World, n: NodeId, id: TaskId)
    requires Enabled(w, QueueCollision(n, id)) && NodeOk(own, w, n) && id !in own
    ensures NodeOk(own, Apply(w, QueueCollision(n, id)), n)
  {
  }

  lemma QuarantineNode(own: Ids, w: World, n: NodeId, name: Name, reason: string, index: nat)
    requires Enabled(w, MoveToQuarantine(n, name, reason, index)) && NodeOk(own, w, n) && !About(own, name)
    ensures NodeOk(own, Apply(w, MoveToQuarantine(n, name, reason, index)), n)
  {
  }

  lemma MarkNode(own: Ids, w: World, n: NodeId, t: Task, status: Status, code: string)
    requires Enabled(w, Mark(n, t, status, code)) && NodeOk(own, w, n) && t.id !in own
    ensures NodeOk(own, Apply(w, Mark(n, t, status, code)), n)
  {
  }

  lemma QueueMarkNode(own: Ids, w: World, n: NodeId)
    requires Enabled(w, QueueMark(n)) && NodeOk(own, w, n) && DoingId(w, n) !in own
    ensures NodeOk(own, Apply(w, QueueMark(n)), n)
  {
  }

  lemma RequeueNode(own: Ids, w: World, n: NodeId, t: Task)
    requires Enabled(w, RequeueMark(n, t)) && NodeOk(own, w, n) && t.id !in own
    ensures NodeOk(own, Apply(w, RequeueMark(n, t)), n)
  {
  }

  lemma AdoptMarkNode(own: Ids, w: World, n: NodeId, t: Task)
    requires Enabled(w, AdoptMark(n, t)) && NodeOk(own, w, n) && t.id !in own
    ensures NodeOk(own, Apply(w, AdoptMark(n, t)), n)
  {
  }

  lemma IntentClosed(own: Ids, w: World, n: NodeId, t: Task)
    requires Closed(own, w) && Enabled(w, WriteIntent(n, t))
    ensures NodeOk(own, Apply(w, WriteIntent(n, t)), n)
  {
    hide Apply;
    if t.id in own {
      SeenIsBound(own, w, n, t);
      ReadyNotPlaced(own, w, n, t);
    }
    assert NodeOk(own, w, n);
    IntentNode(own, w, n, t);
  }

  lemma AdoptClosed(own: Ids, w: World, n: NodeId, t: Task)
    requires Closed(own, w) && Enabled(w, AdoptResult(n, t))
    ensures NodeOk(own, Apply(w, AdoptResult(n, t)), n)
  {
    hide Apply;
    if t.id in own {
      SeenIsBound(own, w, n, t);
      CheckoutResult(own, w, n, t.id);
    }
    assert NodeOk(own, w, n);
    AdoptNode(own, w, n, t);
  }

  lemma PushClosed(own: Ids, w: World, n: NodeId, name: Name, acked: bool)
    requires Closed(own, w) && Enabled(w, ResultPush(n, name, acked))
    ensures NodeOk(own, Apply(w, ResultPush(n, name, acked)), n)
  {
    hide Apply;
    assert NodeOk(own, w, n);
    PushNode(own, w, n, name, acked);
  }

  lemma PlaceElsewhere(own: Ids, w: World, s: Step)
    requires Enabled(w, s) && (Places(s) || s.Resend?) && Subject(w, s) !in own
    requires s.node in w.nodes && NodeOk(own, w, s.node)
    ensures s.node in Apply(w, s).nodes && NodeOk(own, Apply(w, s), s.node)
  {
    var n, g := s.node, w.nodes[s.node].doing;
    var t := if s.StoreProduced? then g.task else s.task;
    var v := w.nodes[n].provenance;
    var r := if s.StoreProduced? then g.result
             else if s.StoreUnknown? then Unknown(t, n, v)
             else if s.StoreRejection? then Rejection(t, n, v)
             else w.nodes[n].disk.receipts[t.id].result;
    assert r.digest.task.id == t.id;
    hide NodeOk;
    PlaceElse(own, w, n, t, r, if s.Resend? then Idle else Stored(t, r));
  }

  lemma AsideNode(own: Ids, w: World, s: Step)
    requires Enabled(w, s) && SetsAside(s) && !s.Resend? && Subject(w, s) !in own
    requires s.node in w.nodes && NodeOk(own, w, s.node)
    ensures s.node in Apply(w, s).nodes && NodeOk(own, Apply(w, s), s.node)
  {
    StepFrame(w, s);
    hide Enabled;
    hide Apply;
    hide NodeOk;
    if s.QueueCollision? {
      CollisionNode(own, w, s.node, s.id);
    } else if s.MoveToQuarantine? {
      QuarantineNode(own, w, s.node, s.name, s.reason, s.index);
    } else if s.Mark? {
      MarkNode(own, w, s.node, s.task, s.status, s.code);
    } else if s.QueueMark? {
      QueueMarkNode(own, w, s.node);
    } else if s.RequeueMark? {
      RequeueNode(own, w, s.node, s.task);
    } else {
      AdoptMarkNode(own, w, s.node, s.task);
    }
  }

  lemma ActingNode(own: Ids, w: World, s: Step)
    requires Closed(own, w) && Enabled(w, s) && ByWorker(s) && !(Places(s) && Subject(w, s) in own)
    ensures s.node in Apply(w, s).nodes && NodeOk(own, Apply(w, s), s.node)
  {
    hide Apply;
    hide Enabled;
    StepFrame(w, s);
    assert NodeOk(own, w, s.node);
    hide Closed;
    hide NodeOk;
    if SetsAside(s) {
      Impossible(own, w, s);
    }
    hide Subject;
    if Places(s) || s.Resend? {
      PlaceElsewhere(own, w, s);
    } else if SetsAside(s) {
      AsideNode(own, w, s);
    } else if s.WriteIntent? {
      IntentClosed(own, w, s.node, s.task);
    } else if s.AdoptResult? {
      AdoptClosed(own, w, s.node, s.task);
    } else if s.ResultPush? {
      PushClosed(own, w, s.node, s.name, s.acked);
    } else if s.Enter? {
      EnterNode(own, w, s.node);
    } else if s.Finish? {
      FinishNode(own, w, s.node, s.result, s.fits);
    } else if s.WriteReceipt? {
      ReceiptNode(own, w, s.node);
    } else if s.Unlink? {
      UnlinkNode(own, w, s.node, s.name);
    } else {
      CrashNode(own, w, s.node);
    }
  }

  // ---- the branch ------------------------------------------------------------------------------------

  lemma SubmitRemote(own: Ids, w: World, k: nat, t: Task, acked: bool)
    requires RemoteOk(own, w) && Enabled(w, SubmitPush(k, t, acked)) && t.id !in w.remote.tasks
    ensures RemoteOk(own, Apply(w, SubmitPush(k, t, acked)))
  {
  }

  lemma PushRemote(own: Ids, w: World, n: NodeId, name: Name, acked: bool)
    requires RemoteOk(own, w) && Enabled(w, ResultPush(n, name, acked))
    requires About(own, name) ==>
               && name.Canonical? && PlacementOk(w, Placement(n, name.id, w.nodes[n].disk.outbox[name].result))
               && Placement(n, name.id, w.nodes[n].disk.outbox[name].result) in w.placed
    ensures RemoteOk(own, Apply(w, ResultPush(n, name, acked)))
  {
  }

  lemma PushedResult(own: Ids, w: World, n: NodeId, name: Name, acked: bool)
    requires Closed(own, w) && Enabled(w, ResultPush(n, name, acked))
    ensures RemoteOk(own, Apply(w, ResultPush(n, name, acked)))
  {
    hide Apply;
    if About(own, name) {
      NoCollision(own, w, n, name);
      assert NodeOk(own, w, n);
      assert PlacementOk(w, Placement(n, name.id, w.nodes[n].disk.outbox[name].result));
    }
    PushRemote(own, w, n, name, acked);
  }

  lemma PushedTask(own: Ids, w: World, k: nat, t: Task, acked: bool)
    requires Closed(own, w) && Enabled(w, SubmitPush(k, t, acked))
    ensures RemoteOk(own, Apply(w, SubmitPush(k, t, acked)))
  {
    hide Apply;
    assert w.clones[Controller(k)] == w.remote;
    SubmitRemote(own, w, k, t, acked);
  }

  lemma SameRemote(own: Ids, w: World, w': World)
    requires RemoteOk(own, w) && w.placed <= w'.placed && Untouched(own, w.remote, w'.remote)
    ensures RemoteOk(own, w')
  {
  }

  lemma SyncOrForeign(w: World, s: Step)
    requires Enabled(w, s) && (s.Sync? || s.ForeignAdd?)
    ensures Apply(w, s).remote == if s.Sync? then w.remote else s.tree
  {
  }

  lemma RemoteStep(own: Ids, w: World, s: Step)
    requires Closed(own, w) && Enabled(w, s) && Allowed(own, w, s) && w.placed <= Apply(w, s).placed
    ensures RemoteOk(own, Apply(w, s))
  {
    hide Apply;
    hide Enabled;
    hide RemoteOk;
    hide Tracked;
    hide Behind;
    if s.ResultPush? {
      PushedResult(own, w, s.node, s.name, s.acked);
    } else if s.SubmitPush? {
      PushedTask(own, w, s.number, s.task, s.acked);
    } else {
      if s.Sync? || s.ForeignAdd? {
        SyncOrForeign(w, s);
      } else {
        LocalStep(w, s);
      }
      SameRemote(own, w, Apply(w, s));
    }
  }

  lemma LogStep(own: Ids, w: World, s: Step)
    requires Closed(own, w) && Enabled(w, s) && Later(w, Apply(w, s))
    ensures LogOk(own, Apply(w, s))
  {
    hide Enabled;
    hide Apply;
    hide Tracked;
    hide Behind;
    hide PlacedOk;
    hide RemoteOk;
    StepFrame(w, s);
    if s.Enter? {
      assert NodeOk(own, w, s.node);
    } else {
      LogLater(own, w, Apply(w, s));
    }
  }

  // ---- every step and every run ------------------------------------------------------------------------

  lemma NodesStep(own: Ids, w: World, s: Step, n: NodeId)
    requires Closed(own, w) && Enabled(w, s) && !s.ForeignRewrite? && !(Places(s) && Subject(w, s) in own) && n in w.nodes
    requires Later(w, Apply(w, s)) && NothingPlaced(own, w, Apply(w, s))
    ensures NodeOk(own, Apply(w, s), n)
  {
    hide Enabled;
    hide Apply;
    hide Tracked;
    hide Behind;
    hide NodeOk;
    hide PlacedOk;
    hide RemoteOk;
    hide LogOk;
    hide Later;
    hide Subject;
    StepFrame(w, s);
    if ByWorker(s) && s.node == n {
      ActingNode(own, w, s);
    } else {
      NodeHasClone(own, w, n);
      CheckoutGrows(w, s, Worker(n));
      NodeLater(own, w, Apply(w, s), n);
    }
  }

  lemma ClosedStep(own: Ids, w: World, s: Step)
    requires Closed(own, w) && Enabled(w, s) && Allowed(own, w, s)
    ensures Closed(own, Apply(w, s))
  {
    hide Enabled;
    hide Apply;
    hide Subject;
    if Places(s) && Subject(w, s) in own {
      PlacingStep(own, w, s);
    } else {
      hide Tracked;
      hide Matched;
      hide Behind;
      hide PlacedOk;
      hide RemoteOk;
      hide LogOk;
      hide NodeOk;
      var w' := Apply(w, s);
      StepIsLater(own, w, s);
      TrackedStep(w, s);
      MatchedStep(w, s);
      GrowsStep(w, s);
      PlacedLater(own, w, w');
      RemoteStep(own, w, s);
      LogStep(own, w, s);
      forall n | n in w'.nodes ensures NodeOk(own, w', n) {
        NodesStep(own, w, s, n);
      }
    }
  }

  lemma {:induction false} ClosedRun(own: Ids, w: World, steps: seq<Step>)
    requires Closed(own, w) && Runs(w, steps) && Guarded(own, w, steps)
    ensures Closed(own, After(w, steps))
    decreases |steps|
  {
    hide Enabled;
    hide Apply;
    hide Closed;
    hide Allowed;
    if steps != [] {
      ClosedStep(own, w, steps[0]);
      ClosedRun(own, Apply(w, steps[0]), steps[1..]);
    }
  }

  /** No conflict record, marker or quarantined file about these ids ever appears, whatever is
      pushed concurrently and whenever processes crash. */
  lemma NoConflictEver(own: Ids, w: World, steps: seq<Step>, n: NodeId)
    requires FreshSystem(own, w) && Runs(w, steps) && Guarded(own, w, steps) && n in After(w, steps).nodes
    ensures forall d :: d in After(w, steps).remote.conflicts ==> d.task.id !in own
    ensures CleanOk(own, After(w, steps).nodes[n].disk)
  {
    FreshIsClosed(own, w);
    ClosedRun(own, w, steps);
    hide Runs;
    hide After;
    assert NodeOk(own, After(w, steps), n);
  }

  // ---- what a controller returns ----------------------------------------------------------------

  datatype Verdict = Return(result: Result) | Raise | KeepWaiting

  /** One look of `_wait_for_result_locked` at its checkout: a conflict record first, then the
      canonical result; either must carry the admitted provenance. */
  function LookUp(c: Remote, t: Task, provenance: string): Verdict {
    if Sha256(t) in c.conflicts then
      var b := c.conflicts[Sha256(t)];
      if ConflictFits(b, t, t.node) && b.result.provenance == provenance then Return(b.result) else Raise
    else if t.id in c.results then
      var b := c.results[t.id];
      if Matches(b, t.id, t.action, t.node) && b.result.digest == Sha256(t) && b.result.provenance == provenance
      then Return(b.result) else Raise
    else KeepWaiting
  }

  /** The handler for exactly this task was entered once, on its target node, and what it
      returned is `r`. */
  ghost predicate RanOnceWith(w: World, t: Task, r: Result) {
    && (exists i :: 0 <= i < |w.entered| && w.entered[i] == Entry(t.node, t)
                    && forall j :: 0 <= j < |w.entered| && j != i ==> w.entered[j].task != t)
    && Execution(t.node, t, r) in w.log
    && (forall e :: e in w.log && e.task == t ==> e.result == r)
  }

  lemma SuccessWasReturned(own: Ids, w: World, p: Placement)
    requires PlacedOk(own, w) && p in w.placed && p.result.status == Succeeded && p.id in own
    ensures Bound(w, p.node, p.id) && p.result.digest == Sha256(TaskOf(w, p.id))
    ensures Execution(p.node, TaskOf(w, p.id), p.result) in w.log
  {
    assert PlacementOk(w, p);
    var t := TaskOf(w, p.id);
    var i :| 0 <= i < |w.log| && w.log[i].node == p.node && w.log[i].task == t
             && (p.result == w.log[i].result || p.result == Bounded(w.log[i].result, false));
    assert w.log[i] == Execution(p.node, t, p.result);
  }

  /** What has returned was entered, once, and returned once. */
  lemma ReturnedOnce(own: Ids, w: World, t: Task, r: Result)
    requires LogOk(own, w) && AtMostOnce(w.entered) && Matched(w) && t.id in own && Execution(t.node, t, r) in w.log
    ensures RanOnceWith(w, t, r)
  {
    assert Entry(t.node, t) in w.entered;
    var i :| 0 <= i < |w.entered| && w.entered[i] == Entry(t.node, t);
    assert forall j :: 0 <= j < |w.entered| && w.entered[j].task == t ==> w.entered[j].node == t.node;
    forall e | e in w.log && e.task == t ensures e.result == r {
      var k :| 0 <= k < |w.log| && w.log[k] == e;
      var k2 :| 0 <= k2 < |w.log| && w.log[k2] == Execution(t.node, t, r);
      assert Entry(e.node, t) in w.entered;
      var x :| 0 <= x < |w.entered| && w.entered[x] == Entry(e.node, t);
      assert e.node == t.node;
    }
  }

  lemma ResultIsEarned(own: Ids, w: World, c: Remote, t: Task, provenance: string, r: Result)
    requires Closed(own, w) && Extends(c, w.remote) && t.id in own
    requires LookUp(c, t, provenance) == Return(r) && r.status == Succeeded
    ensures Sha256(t) !in c.conflicts && RanOnceWith(w, t, r)
  {
    hide Behind;
    hide NodeOk;
    hide PlacedOk;
    hide LogOk;
    hide Matched;
    assert w.remote.results[t.id] == c.results[t.id];
    var p := Placement(TaskOf(w, t.id).node, t.id, r);
    SuccessWasReturned(own, w, p);
    ReturnedOnce(own, w, t, r);
  }

  /** Any success that a controller returns for one of these ids, from any checkout of any run,
      means that the handler for exactly that task was entered exactly once and returned that
      Result, and that no conflict record for it was in the checkout. */
  lemma SuccessMeansExecutedOnce(own: Ids, w: World, steps: seq<Step>, p: Party, t: Task, provenance: string, r: Result)
    requires FreshSystem(own, w) && Runs(w, steps) && Guarded(own, w, steps) && p in After(w, steps).clones && t.id in own
    requires LookUp(After(w, steps).clones[p], t, provenance) == Return(r) && r.status == Succeeded
    ensures Sha256(t) !in After(w, steps).clones[p].conflicts
    ensures RanOnceWith(After(w, steps), t, r)
  {
    FreshIsClosed(own, w);
    ClosedRun(own, w, steps);
    hide Runs;
    hide After;
    ResultIsEarned(own, After(w, steps), After(w, steps).clones[p], t, provenance, r);
  }
}
