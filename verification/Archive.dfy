/** The artifact archive: staged requests, an independent reservation with confirmation
    receipts, and a ledger with idempotency keys.  One step is one durable publication, one
    ledger transaction, or one loss. */
module Archive {
  import opened Octets

  datatype Task = Task(producer: string, operation: string)

  /** The sealed evidence of a task, and the status observation it came with. */
  datatype Files = Files(source: string, status: string)

  /** V1 is the retained format of older stores; new bindings are V2. */
  datatype Schema = V1 | V2

  datatype Binding = Binding(schema: Schema, task: Task, status: string, token: string)

  datatype Kind = Create | Append

  datatype Scope = TaskScope(task: Task) | TokenScope(token: string)

  datatype OpKey = OpKey(scope: Scope, kind: Kind)

  datatype Request =
    | CreateArtifact(key: OpKey, artifact: string)
    | AppendVersion(key: OpKey, version: string, artifact: string, source: Task, files: Files)

  /** A ledger operation: the request it committed and when. */
  datatype Committed = Committed(request: Request, at: nat)

  datatype Directory = Directory(binding: Binding, files: Files, create: Request, append: Request)

  datatype Reservation = Reservation(binding: Binding, receipts: map<Kind, Committed>)

  datatype Execution = Execution(task: Task, kind: Kind, request: Request)

  /** `executed` records every request that the ledger ever committed and `tokens` every token
      ever drawn; no code reads either. */
  datatype State = State(
    tasks: map<Task, Directory>, reservations: map<Task, Reservation>, ledger: map<OpKey, Committed>,
    clock: nat, tokens: set<string>, executed: seq<Execution>)

  datatype Step =
    | Stage(task: Task, files: Files, token: string)
    | Reserve(task: Task)
    | Execute(task: Task, kind: Kind)
    | Confirm(task: Task, kind: Kind)
    | LoseTask(task: Task)
    | LoseReceipt(task: Task, kind: Kind)
    | LoseReservation(task: Task)
    | Rollback(keys: set<OpKey>)       // an older copy of the database is put back

  // ---- requests derived from the binding ---------------------------------------------------

  function ScopeOf(b: Binding): Scope {
    if b.schema == V2 then TaskScope(b.task) else TokenScope(b.token)
  }

  function KeyOf(b: Binding, kind: Kind): OpKey {
    OpKey(ScopeOf(b), kind)
  }

  function ArtifactId(b: Binding): string {
    "artifact:" + b.token
  }

  function VersionId(b: Binding): string {
    "version:" + b.token
  }

  function RequestOf(b: Binding, kind: Kind, files: Files): Request {
    match kind
    case Create => CreateArtifact(KeyOf(b, Create), ArtifactId(b))
    case Append => AppendVersion(KeyOf(b, Append), VersionId(b), ArtifactId(b), b.task, files)
  }

  function ResultRef(r: Request): string {
    if r.CreateArtifact? then r.artifact else r.version
  }

  function Staged(b: Binding, files: Files): Directory {
    Directory(b, files, RequestOf(b, Create, files), RequestOf(b, Append, files))
  }

  // ---- steps ----------------------------------------------------------------------------------

  /** Directory and reservation belong to the same binding. */
  predicate Backed(s: State, t: Task) {
    t in s.tasks && t in s.reservations && s.reservations[t].binding == s.tasks[t].binding
  }

  function RequestIn(s: State, t: Task, kind: Kind): Request
    requires t in s.tasks
  {
    RequestOf(s.tasks[t].binding, kind, s.tasks[t].files)
  }

  /** The ledger holds exactly this request. */
  predicate Holds(ledger: map<OpKey, Committed>, r: Request) {
    r.key in ledger && ledger[r.key].request == r
  }

  /** A retained receipt, of this operation or of the append that follows it. */
  predicate Confirmed(receipts: map<Kind, Committed>, kind: Kind) {
    kind in receipts || (kind == Create && Append in receipts)
  }

  predicate Enabled(s: State, step: Step) {
    match step
    case Stage(t, _, token) =>
      && t !in s.tasks && t !in s.reservations && token !in s.tokens
      && OpKey(TaskScope(t), Create) !in s.ledger && OpKey(TaskScope(t), Append) !in s.ledger
    case Reserve(t) => t in s.tasks && t !in s.reservations
    case Execute(t, kind) =>
      && Backed(s, t) && !Confirmed(s.reservations[t].receipts, kind)
      && RequestIn(s, t, kind).key !in s.ledger
      && (kind == Append ==> Holds(s.ledger, RequestIn(s, t, Create)))
    case Confirm(t, kind) =>
      Backed(s, t) && kind !in s.reservations[t].receipts && Holds(s.ledger, RequestIn(s, t, kind))
    case LoseTask(t) => t in s.tasks
    case LoseReceipt(t, kind) => t in s.reservations
    case LoseReservation(t) => t in s.reservations
    case Rollback(_) => true
  }

  function WithReceipts(s: State, t: Task, receipts: map<Kind, Committed>): State
    requires t in s.reservations
  {
    s.(reservations := s.reservations[t := s.reservations[t].(receipts := receipts)])
  }

  function Apply(s: State, step: Step): State
    requires Enabled(s, step)
  {
    match step
    case Stage(t, files, token) =>
      s.(tasks := s.tasks[t := Staged(Binding(V2, t, files.status, token), files)], tokens := s.tokens + {token})
    case Reserve(t) => s.(reservations := s.reservations[t := Reservation(s.tasks[t].binding, map[])])
    case Execute(t, kind) =>
      var r := RequestIn(s, t, kind);
      s.(ledger := s.ledger[r.key := Committed(r, s.clock)], clock := s.clock + 1,
         executed := s.executed + [Execution(t, kind, r)])
    case Confirm(t, kind) =>
      WithReceipts(s, t, s.reservations[t].receipts[kind := s.ledger[RequestIn(s, t, kind).key]])
    case LoseTask(t) => s.(tasks := s.tasks - {t})
    case LoseReceipt(t, kind) => WithReceipts(s, t, s.reservations[t].receipts - {kind})
    case LoseReservation(t) => s.(reservations := s.reservations - {t})
    case Rollback(keys) => s.(ledger := s.ledger - keys)
  }

  predicate Runs(s: State, steps: seq<Step>)
    decreases |steps|
  {
    steps == [] || (Enabled(s, steps[0]) && Runs(Apply(s, steps[0]), steps[1..]))
  }

  function After(s: State, steps: seq<Step>): State
    requires Runs(s, steps)
    decreases |steps|
  {
    if steps == [] then s else After(Apply(s, steps[0]), steps[1..])
  }

  /** A run can be continued by one more enabled step. */
  lemma {:induction false} RunsOn(s: State, steps: seq<Step>, step: Step)
    requires Runs(s, steps) && Enabled(After(s, steps), step)
    ensures Runs(s, steps + [step]) && After(s, steps + [step]) == Apply(After(s, steps), step)
    decreases |steps|
  {
    if steps == [] {
      assert [step][1..] == [];
    } else {
      RunsOn(Apply(s, steps[0]), steps[1..], step);
      assert (steps + [step])[1..] == steps[1..] + [step];
    }
  }
}
