/** The Git mailbox as a state machine: one shared branch, the clones of the workers
    and controllers, and what each worker keeps on disk.  One step is one durable write,
    one accepted push, one entry into a handler or return from it, or one loss of everything
    held in memory. */
module Mailbox {

  type TaskId = string
  type NodeId = string

  // ---- records ------------------------------------------------------------------------

  /** `admissible` is the verdict of `validate_task` on action and parameters. */
  datatype Task = Task(id: TaskId, node: NodeId, action: string, params: string, admissible: bool)

  /** SHA-256 over canonical JSON, taken as injective: the digest binds the whole task. */
  datatype Digest = Sha256(task: Task)

  datatype Status = Succeeded | Failed | Rejected | Stale | Indeterminate

  datatype Result = Result(
    taskId: TaskId, digest: Digest, action: string, node: NodeId, provenance: string,
    status: Status, code: string, details: string)

  /** A task file: a JSON object with a canonical digest, or anything else. */
  datatype TaskFile = Loaded(task: Task) | Unusable

  /** A result file: a valid Result in some JSON spelling (the worker writes spelling 0),
      or bytes that do not form one. */
  datatype Blob = Json(result: Result, spelling: nat) | Junk(bytes: nat)

  /** The committed tree of the branch and the commit it belongs to. */
  datatype Remote = Remote(
    head: nat, tasks: map<TaskId, TaskFile>, results: map<TaskId, Blob>, conflicts: map<Digest, Blob>)

  datatype Receipt = Intent(digest: Digest) | Done(digest: Digest, result: Result) | Broken(bytes: nat)

  datatype Name = Canonical(id: TaskId) | Conflict(digest: Digest)

  /** `<file>.<reason>.invalid`, then `<file>.<reason>.<index>.invalid` */
  datatype QuarantineName = QuarantineName(name: Name, reason: string, index: nat)

  datatype Disk = Disk(
    receipts: map<TaskId, Receipt>, outbox: map<Name, Blob>,
    markers: map<Digest, Blob>, quarantine: map<QuarantineName, Blob>)

  /** What the worker process holds in memory between two durable writes. */
  datatype Doing =
    | Idle
    | Intended(task: Task)                   // intent written, handler not entered
    | Entered(task: Task)                    // handler entered, not returned
    | Produced(task: Task, result: Result)   // handler returned, nothing stored yet
    | Stored(task: Task, result: Result)     // outbox written, receipt not yet
    | Marked(task: Task, result: Result)     // conflict marker written, outbox not yet

  datatype Node = Node(disk: Disk, doing: Doing, provenance: string)

  datatype Party = Worker(node: NodeId) | Controller(number: nat)

  datatype Entry = Entry(node: NodeId, task: Task)

  datatype Execution = Execution(node: NodeId, task: Task, result: Result)

  datatype Placement = Placement(node: NodeId, id: TaskId, result: Result)

  /** `entered` records every entry into a handler, `log` every return from one, and `placed`
      every canonical result ever written to an outbox; no step reads any of them. */
  datatype World = World(
    remote: Remote, clones: map<Party, Remote>, nodes: map<NodeId, Node>,
    entered: seq<Entry>, log: seq<Execution>, placed: set<Placement>)

  datatype Step =
    | Sync(party: Party)
    | SubmitPush(number: nat, task: Task, acked: bool)
    | ResultPush(node: NodeId, name: Name, acked: bool)
    | Unlink(node: NodeId, name: Name)
    | QueueCollision(node: NodeId, id: TaskId)
    | MoveToQuarantine(node: NodeId, name: Name, reason: string, index: nat)
    | Mark(node: NodeId, task: Task, status: Status, code: string)
    | QueueMark(node: NodeId)
    | RequeueMark(node: NodeId, task: Task)
    | AdoptMark(node: NodeId, task: Task)
    | WriteIntent(node: NodeId, task: Task)
    | Enter(node: NodeId)
    | Finish(node: NodeId, result: Result, fits: bool)
    | StoreProduced(node: NodeId)
    | StoreUnknown(node: NodeId, task: Task)
    | StoreRejection(node: NodeId, task: Task)
    | Resend(node: NodeId, task: Task)
    | WriteReceipt(node: NodeId)
    | AdoptResult(node: NodeId, task: Task)
    | Crash(node: NodeId)
    | ForeignAdd(tree: Remote)
    | ForeignRewrite(tree: Remote)

  // ---- results the worker makes -------------------------------------------------------

  function ErrorResult(t: Task, n: NodeId, provenance: string, status: Status, code: string): Result {
    Result(t.id, Sha256(t), t.action, n, provenance, status, code, "")
  }

  function Unknown(t: Task, n: NodeId, provenance: string): Result {
    ErrorResult(t, n, provenance, Indeterminate, "outcome_unknown")
  }

  function Rejection(t: Task, n: NodeId, provenance: string): Result {
    ErrorResult(t, n, provenance, Rejected, "invalid_task")
  }

  /** A Result built by `result_success` or `result_error` for this task on this node. */
  predicate FromHandler(t: Task, n: NodeId, provenance: string, r: Result) {
    r.taskId == t.id && r.digest == Sha256(t) && r.action == t.action && r.node == n && r.provenance == provenance
  }

  /** `_bounded_execution_result`: a Result too large to publish keeps its identity, and a
      success becomes indeterminate. */
  function Bounded(r: Result, fits: bool): Result {
    if fits then r
    else r.(status := if r.status == Succeeded then Indeterminate else r.status,
            code := "result_too_large", details := "")
  }

  function Collision(local: Result, code: string): Result {
    local.(status := Indeterminate, code := code, details := "")
  }

  // ---- what the code checks before acting ---------------------------------------------

  /** `_trusted_local_identity` on a file of the checkout. */
  predicate Seen(c: Remote, n: NodeId, t: Task) {
    t.id in c.tasks && c.tasks[t.id] == Loaded(t) && t.node == n && t.action != ""
  }

  /** `validate_remote_result` without an expected digest. */
  predicate Matches(b: Blob, id: TaskId, action: string, n: NodeId) {
    b.Json? && b.result.taskId == id && b.result.action == action && b.result.node == n
  }

  predicate ConflictFits(b: Blob, t: Task, n: NodeId) {
    Matches(b, t.id, t.action, n) && b.result.digest == Sha256(t) && b.result.status != Succeeded
  }

  /** `_validate_local_outbox_result` */
  predicate OutboxValid(name: Name, b: Blob) {
    && b.Json?
    && match name
       case Canonical(id) => b.result.taskId == id
       case Conflict(d) => b.result.digest == d && b.result.status != Succeeded
  }

  /** `_validate_receipt` */
  predicate ReceiptFits(rc: Receipt, t: Task, n: NodeId) {
    match rc
    case Broken(_) => false
    case Intent(d) => d == Sha256(t)
    case Done(d, r) => d == Sha256(t) && FromHandler(t, n, r.provenance, r)
  }

  /** Neither a local marker nor a remote conflict bars this task. */
  predicate Unbarred(c: Remote, d: Disk, t: Task) {
    Sha256(t) !in d.markers && Sha256(t) !in c.conflicts
  }

  predicate Targeted(c: Remote, name: Name) {
    match name
    case Canonical(id) => id in c.results
    case Conflict(d) => d in c.conflicts
  }

  /** The remote canonical result is not the local one. */
  predicate Collided(c: Remote, id: TaskId, local: Result) {
    id in c.results &&
    (!Matches(c.results[id], id, local.action, local.node) || c.results[id].result != local)
  }

  /** The outbox file is already in the checkout. */
  predicate Published(c: Remote, name: Name, b: Blob) {
    match name
    case Canonical(id) => id in c.results && b.Json? && c.results[id].Json? && c.results[id].result == b.result
    case Conflict(d) => d in c.conflicts && c.conflicts[d] == b
  }

  /** Why `process_once` sets a task aside. */
  predicate MustMark(c: Remote, d: Disk, t: Task, n: NodeId) {
    || (t.id in d.receipts && !ReceiptFits(d.receipts[t.id], t, n))
    || (t.id in c.results
        && (|| !Matches(c.results[t.id], t.id, t.action, n)
            || c.results[t.id].result.digest != Sha256(t)
            || (t.id in d.receipts && d.receipts[t.id].Done? && d.receipts[t.id].result != c.results[t.id].result)))
  }

  predicate MustQuarantine(c: Remote, outbox: map<Name, Blob>, name: Name)
    requires name in outbox
  {
    var b := outbox[name];
    || !OutboxValid(name, b)
    || (name.Conflict? && Targeted(c, name) && c.conflicts[name.digest] != b)
    || (name.Canonical? && Collided(c, name.id, b.result) && Conflict(b.result.digest) in outbox)
  }

  /** Every record of `a` is in `b`, unchanged. */
  predicate Extends(a: Remote, b: Remote) {
    && (forall k :: k in a.tasks ==> k in b.tasks && b.tasks[k] == a.tasks[k])
    && (forall k :: k in a.results ==> k in b.results && b.results[k] == a.results[k])
    && (forall k :: k in a.conflicts ==> k in b.conflicts && b.conflicts[k] == a.conflicts[k])
  }

  // ---- steps ----------------------------------------------------------------------------

  predicate HasNode(w: World, n: NodeId) {
    n in w.nodes && Worker(n) in w.clones
  }

  predicate IsIdle(w: World, n: NodeId) {
    HasNode(w, n) && w.nodes[n].doing == Idle
  }

  /** The task is in the checkout for this node, which has published everything canonical
      under its id, and nothing bars it. */
  predicate Ready(w: World, n: NodeId, t: Task) {
    && IsIdle(w, n)
    && Seen(w.clones[Worker(n)], n, t)
    && Unbarred(w.clones[Worker(n)], w.nodes[n].disk, t)
    && Canonical(t.id) !in w.nodes[n].disk.outbox
  }

  predicate Enabled(w: World, s: Step) {
    match s
    case Sync(p) => p in w.clones
    case SubmitPush(k, t, _) =>
      && Controller(k) in w.clones
      && w.clones[Controller(k)].head == w.remote.head
      && t.id !in w.clones[Controller(k)].tasks && t.admissible && t.action != ""
    case ResultPush(n, name, _) =>
      && IsIdle(w, n) && name in w.nodes[n].disk.outbox && OutboxValid(name, w.nodes[n].disk.outbox[name])
      && w.clones[Worker(n)].head == w.remote.head
      && !Targeted(w.clones[Worker(n)], name)
    case Unlink(n, name) =>
      && IsIdle(w, n) && name in w.nodes[n].disk.outbox && OutboxValid(name, w.nodes[n].disk.outbox[name])
      && Published(w.clones[Worker(n)], name, w.nodes[n].disk.outbox[name])
    case QueueCollision(n, id) =>
      && IsIdle(w, n) && Canonical(id) in w.nodes[n].disk.outbox
      && OutboxValid(Canonical(id), w.nodes[n].disk.outbox[Canonical(id)])
      && Collided(w.clones[Worker(n)], id, w.nodes[n].disk.outbox[Canonical(id)].result)
    case MoveToQuarantine(n, name, reason, index) =>
      && IsIdle(w, n) && name in w.nodes[n].disk.outbox
      && MustQuarantine(w.clones[Worker(n)], w.nodes[n].disk.outbox, name)
      && QuarantineName(name, reason, index) !in w.nodes[n].disk.quarantine
    case Mark(n, t, status, _) =>
      && IsIdle(w, n) && Seen(w.clones[Worker(n)], n, t) && Unbarred(w.clones[Worker(n)], w.nodes[n].disk, t)
      && MustMark(w.clones[Worker(n)], w.nodes[n].disk, t, n) && status != Succeeded
    case QueueMark(n) => HasNode(w, n) && w.nodes[n].doing.Marked?
    case RequeueMark(n, t) =>
      && IsIdle(w, n) && Sha256(t) in w.nodes[n].disk.markers
      && ConflictFits(w.nodes[n].disk.markers[Sha256(t)], t, n)
      && Sha256(t) !in w.clones[Worker(n)].conflicts && Conflict(Sha256(t)) !in w.nodes[n].disk.outbox
    case AdoptMark(n, t) =>
      && IsIdle(w, n) && Seen(w.clones[Worker(n)], n, t) && Sha256(t) !in w.nodes[n].disk.markers
      && Sha256(t) in w.clones[Worker(n)].conflicts && ConflictFits(w.clones[Worker(n)].conflicts[Sha256(t)], t, n)
    case WriteIntent(n, t) =>
      && Ready(w, n, t) && t.id !in w.nodes[n].disk.receipts && t.id !in w.clones[Worker(n)].results
      && t.admissible
    case Enter(n) => HasNode(w, n) && w.nodes[n].doing.Intended?
    case Finish(n, r, _) =>
      && HasNode(w, n) && w.nodes[n].doing.Entered?
      && FromHandler(w.nodes[n].doing.task, n, w.nodes[n].provenance, r)
    case StoreProduced(n) => HasNode(w, n) && w.nodes[n].doing.Produced?
    case StoreUnknown(n, t) =>
      && Ready(w, n, t) && t.id in w.nodes[n].disk.receipts && w.nodes[n].disk.receipts[t.id] == Intent(Sha256(t))
      && t.id !in w.clones[Worker(n)].results
    case StoreRejection(n, t) =>
      && Ready(w, n, t) && t.id !in w.nodes[n].disk.receipts && t.id !in w.clones[Worker(n)].results
      && !t.admissible
    case Resend(n, t) =>
      && Ready(w, n, t) && t.id in w.nodes[n].disk.receipts && w.nodes[n].disk.receipts[t.id].Done?
      && ReceiptFits(w.nodes[n].disk.receipts[t.id], t, n)
      && t.id !in w.clones[Worker(n)].results
    case WriteReceipt(n) => HasNode(w, n) && w.nodes[n].doing.Stored?
    case AdoptResult(n, t) =>
      && IsIdle(w, n) && Seen(w.clones[Worker(n)], n, t) && Unbarred(w.clones[Worker(n)], w.nodes[n].disk, t)
      && (t.id in w.nodes[n].disk.receipts ==> w.nodes[n].disk.receipts[t.id] == Intent(Sha256(t)))
      && t.id in w.clones[Worker(n)].results
      && !MustMark(w.clones[Worker(n)], w.nodes[n].disk, t, n)
    case Crash(n) => HasNode(w, n)
    case ForeignAdd(tree) => tree.head == w.remote.head + 1 && Extends(w.remote, tree)
    case ForeignRewrite(tree) => tree.head == w.remote.head + 1
  }

  function WithNode(w: World, n: NodeId, disk: Disk, doing: Doing): World
    requires n in w.nodes
  {
    w.(nodes := w.nodes[n := w.nodes[n].(disk := disk, doing := doing)])
  }

  /** An accepted push; an unacknowledged one leaves the pusher's checkout behind. */
  function Accept(w: World, p: Party, tree: Remote, acked: bool): World {
    w.(remote := tree, clones := if acked then w.clones[p := tree] else w.clones)
  }

  function WithBlob(c: Remote, name: Name, b: Blob): Remote {
    match name
    case Canonical(id) => c.(head := c.head + 1, results := c.results[id := b])
    case Conflict(d) => c.(head := c.head + 1, conflicts := c.conflicts[d := b])
  }

  /** Writes a canonical result to the outbox. */
  function Place(w: World, n: NodeId, t: Task, r: Result, doing: Doing): World
    requires n in w.nodes
  {
    var d := w.nodes[n].disk;
    WithNode(w, n, d.(outbox := d.outbox[Canonical(t.id) := Json(r, 0)]), doing)
      .(placed := w.placed + {Placement(n, t.id, r)})
  }

  function CollisionCode(c: Remote, id: TaskId, local: Result): string
    requires id in c.results
  {
    if !Matches(c.results[id], id, local.action, local.node) then "remote_result_invalid"
    else if c.results[id].result.digest != local.digest then "remote_result_digest_conflict"
    else "remote_result_content_conflict"
  }

  function Apply(w: World, s: Step): World
    requires Enabled(w, s)
  {
    match s
    case Sync(p) => w.(clones := w.clones[p := w.remote])
    case SubmitPush(k, t, acked) =>
      Accept(w, Controller(k), w.remote.(head := w.remote.head + 1, tasks := w.remote.tasks[t.id := Loaded(t)]), acked)
    case ResultPush(n, name, acked) =>
      Accept(w, Worker(n), WithBlob(w.remote, name, w.nodes[n].disk.outbox[name]), acked)
    case Unlink(n, name) =>
      var d := w.nodes[n].disk;
      WithNode(w, n, d.(outbox := d.outbox - {name}), Idle)
    case QueueCollision(n, id) =>
      var d := w.nodes[n].disk;
      var local := d.outbox[Canonical(id)].result;
      var code := CollisionCode(w.clones[Worker(n)], id, local);
      WithNode(w, n, d.(outbox := d.outbox[Conflict(local.digest) := Json(Collision(local, code), 0)]), Idle)
    case MoveToQuarantine(n, name, reason, index) =>
      var d := w.nodes[n].disk;
      var q := QuarantineName(name, reason, index);
      WithNode(w, n, d.(outbox := d.outbox - {name}, quarantine := d.quarantine[q := d.outbox[name]]), Idle)
    case Mark(n, t, status, code) =>
      var d := w.nodes[n].disk;
      var r := ErrorResult(t, n, w.nodes[n].provenance, status, code);
      WithNode(w, n, d.(markers := d.markers[Sha256(t) := Json(r, 0)]), Marked(t, r))
    case QueueMark(n) =>
      var d, g := w.nodes[n].disk, w.nodes[n].doing;
      WithNode(w, n, d.(outbox := d.outbox[Conflict(Sha256(g.task)) := Json(g.result, 0)]), Idle)
    case RequeueMark(n, t) =>
      var d := w.nodes[n].disk;
      WithNode(w, n, d.(outbox := d.outbox[Conflict(Sha256(t)) := Json(d.markers[Sha256(t)].result, 0)]), Idle)
    case AdoptMark(n, t) =>
      var d := w.nodes[n].disk;
      var b := w.clones[Worker(n)].conflicts[Sha256(t)];
      WithNode(w, n, d.(markers := d.markers[Sha256(t) := Json(b.result, 0)]), Idle)
    case WriteIntent(n, t) =>
      var d := w.nodes[n].disk;
      WithNode(w, n, d.(receipts := d.receipts[t.id := Intent(Sha256(t))]), Intended(t))
    case Enter(n) =>
      var t := w.nodes[n].doing.task;
      WithNode(w, n, w.nodes[n].disk, Entered(t)).(entered := w.entered + [Entry(n, t)])
    case Finish(n, r, fits) =>
      var t := w.nodes[n].doing.task;
      WithNode(w, n, w.nodes[n].disk, Produced(t, Bounded(r, fits))).(log := w.log + [Execution(n, t, r)])
    case StoreProduced(n) =>
      var g := w.nodes[n].doing;
      Place(w, n, g.task, g.result, Stored(g.task, g.result))
    case StoreUnknown(n, t) =>
      var r := Unknown(t, n, w.nodes[n].provenance);
      Place(w, n, t, r, Stored(t, r))
    case StoreRejection(n, t) =>
      var r := Rejection(t, n, w.nodes[n].provenance);
      Place(w, n, t, r, Stored(t, r))
    case Resend(n, t) => Place(w, n, t, w.nodes[n].disk.receipts[t.id].result, Idle)
    case WriteReceipt(n) =>
      var d, g := w.nodes[n].disk, w.nodes[n].doing;
      WithNode(w, n, d.(receipts := d.receipts[g.task.id := Done(Sha256(g.task), g.result)]), Idle)
    case AdoptResult(n, t) =>
      var d := w.nodes[n].disk;
      var r := w.clones[Worker(n)].results[t.id].result;
      WithNode(w, n, d.(receipts := d.receipts[t.id := Done(Sha256(t), r)]), Idle)
    case Crash(n) => WithNode(w, n, w.nodes[n].disk, Idle)
    case ForeignAdd(tree) => w.(remote := tree)
    case ForeignRewrite(tree) => w.(remote := tree)
  }

  // ---- runs -------------------------------------------------------------------------------

  predicate Runs(w: World, steps: seq<Step>)
    decreases |steps|
  {
    steps == [] || (Enabled(w, steps[0]) && Runs(Apply(w, steps[0]), steps[1..]))
  }

  function After(w: World, steps: seq<Step>): World
    requires Runs(w, steps)
    decreases |steps|
  {
    if steps == [] then w else After(Apply(w, steps[0]), steps[1..])
  }

  /** A run can be continued by one more enabled step. */
  lemma {:induction false} RunsOn(w: World, steps: seq<Step>, s: Step)
    requires Runs(w, steps) && Enabled(After(w, steps), s)
    ensures Runs(w, steps + [s]) && After(w, steps + [s]) == Apply(After(w, steps), s)
    decreases |steps|
  {
    if steps == [] {
      assert [s][1..] == [];
    } else {
      RunsOn(Apply(w, steps[0]), steps[1..], s);
      assert (steps + [s])[1..] == steps[1..] + [s];
    }
  }
}
