/** The broker's ledger as a state machine.  One step is one committed transaction, one change
    of what the process holds in memory, or a crash that loses all of that.  Client calls,
    the delivery guard and the coordinator interleave freely; the coordinator acts on a
    snapshot of the rows that may be out of date. */
module Broker {
  import opened Octets

  type Principal = string

  datatype Phase = Preflight | Business | Reconcile | Evidence

  /** `Single` is a delivery without substages. */
  datatype Stage = Single | Bootstrap | Helper | Reader

  datatype Key = Job(id: string) | Round(id: string)

  datatype Execution = Execution(key: Key, phase: Phase)

  datatype Delivery = Delivery(phase: Phase, stage: Stage)

  datatype Lifecycle = Accepted | Running | ReconcileRequired | Terminal

  datatype Outcome = Pending | Unknown | Succeeded | Failed | Cancelled

  datatype Durability = Staging | DurabilityUnknown | Sealed

  datatype Place =
    | Queued
    | In(phase: Phase)
    | PreflightComplete
    | AwaitingSeal
    | Exited
    | CancelledBeforeStart
    | CancelledBeforeBusiness

  /** What the helper reported: which execution and outcome it names, and whether it carries
      a snapshot to seal or a complete publication for this very operation. */
  datatype Report = Report(execution: Option<Execution>, outcome: Option<Outcome>, snapshot: bool, publication: bool)

  /** Independent observation of one execution. */
  datatype Proof = Proof(
    blocked: bool, exited: bool, collectors: bool, writers: bool, effects: bool,
    exitCode: Option<int>, stableInputs: bool, verified: bool, report: Report)

  datatype Frozen = Frozen(outcome: Outcome, proof: Proof, observed: nat)

  /** `handles` says for each issued phase whether it has the three substages. */
  datatype Record = Record(
    lifecycle: Lifecycle, outcome: Outcome, evidence: Durability, at: Place,
    cancelRequested: bool, recovered: bool, stableInputs: bool, proof: Option<Proof>,
    handles: map<Phase, bool>, delivered: seq<Delivery>, frozen: Option<Frozen>, generation: nat)

  datatype Row = Row(parent: string, principal: Principal, record: Record)

  /** The event kinds that later decisions read, and the deliveries themselves. */
  datatype Event =
    | Intent(phase: Phase, handles: map<Phase, bool>)
    | Enqueued(handles: map<Phase, bool>)
    | Delivered(delivered: seq<Delivery>)
    | Exit(phase: Phase)                                  // an accepted exit proof of that phase
    | Freeze(frozen: Frozen)
    | Barrier
    | Launched(phase: Phase, stage: Stage)                // the delivery itself; no code reads it

  datatype Entry = Entry(key: Key, event: Event)

  /** `log` is the append-only event table; the fields from `ready` on are the memory of the
      process, which is ready once it has recovered. */
  datatype State = State(
    ledger: map<Key, Row>, revoked: set<Principal>, generation: nat, log: seq<Entry>,
    ready: bool, active: set<Key>, recovering: set<Key>, owners: set<Execution>, snapshot: map<Key, Record>)

  /** Fixed by the deployment: how many may run, and whether results get sealed. */
  datatype Config = Config(maxRunning: nat, sealing: bool)

  datatype Step =
    | Submit(key: Key, principal: Principal)
    | OpenRound(key: Key, parent: string)
    | Cancel(key: Key)
    | Revoke(principal: Principal)
    | Look
    | Block(key: Key)
    | Intend(key: Key, phase: Phase, staged: bool)
    | Attach(key: Key)
    | Enqueue(key: Key)
    | Complete(key: Key, proof: Proof)
    | Uncertain(key: Key)
    | Exhaust(key: Key)
    | Reattach(key: Key)
    | Refuse(key: Key)
    | Guard(execution: Execution, stage: Stage, prior: Proof, launched: bool)
    | Crash
    | Recover(order: seq<Key>)

  // ---- pure pieces of the code ------------------------------------------------------------

  function Fresh(generation: nat): Record {
    Record(Accepted, Pending, Staging, Queued, false, false, false, None, map[], [], None, generation)
  }

  const Unstarted := Proof(true, true, false, false, true, None, false, false, Report(None, None, false, false))

  predicate Quiet(p: Option<Proof>) {
    p.Some? && p.value.blocked && p.value.exited
  }

  function FrozenOutcome(r: Record): Outcome {
    if r.frozen.Some? then r.frozen.value.outcome else Unknown
  }

  /** The business outcome, once frozen, survives every doubt about later helpers. */
  function DoubtfulOutcome(r: Record): Outcome {
    if (r.at == AwaitingSeal || r.at == In(Evidence) || r.at == Exited) && r.frozen.Some?
    then FrozenOutcome(r) else Unknown
  }

  function DoubtfulEvidence(r: Record): Durability {
    if r.at == In(Evidence) then DurabilityUnknown else r.evidence
  }

  /** `_unknown` on a record that is not terminal. */
  function Doubt(r: Record): Record {
    r.(lifecycle := ReconcileRequired, outcome := DoubtfulOutcome(r), evidence := DoubtfulEvidence(r))
  }

  predicate NeedsBarrier(r: Record) {
    r.lifecycle != Terminal && r.at != Queued
  }

  /** What recovery writes for one row. */
  function Barred(r: Record): Record {
    if !NeedsBarrier(r) then r
    else Doubt(r).(recovered := true, proof := if r.at.In? then None else r.proof)
  }

  /** `_execution_slots`: the current phase was issued and is not proved to have stopped. */
  predicate Occupied(r: Record) {
    r.at.In? && r.at.phase in r.handles && !Quiet(r.proof)
  }

  function Slots(s: State): set<Key> {
    s.active + (set k | k in s.ledger && Occupied(s.ledger[k].record))
  }

  /** `cancel` on a record that is not terminal and was not cancelled before. */
  function CancelledRecord(r: Record): Record {
    if r.at == Queued
    then r.(cancelRequested := true, lifecycle := Terminal, outcome := Cancelled, at := CancelledBeforeStart,
            proof := Some(Unstarted))
    else r.(cancelRequested := true)
  }

  /** The coordinator refuses to start a cancelled row: it writes what follows from the record
      it saw, without looking again. */
  function BlockedRecord(r: Record, seen: Record): Record {
    if seen.at == AwaitingSeal then
      r.(at := Exited, outcome := FrozenOutcome(seen), evidence := Staging,
         lifecycle := if seen.frozen.Some? && seen.frozen.value.proof.effects then Terminal else ReconcileRequired)
    else r.(lifecycle := Terminal, outcome := Cancelled, at := CancelledBeforeBusiness)
  }

  /** Which rows the coordinator may start, from what it saw. */
  predicate Startable(r: Record) {
    r.lifecycle == Accepted || r.at == PreflightComplete || r.at == AwaitingSeal
  }

  function NextPhase(k: Key, r: Record): Phase {
    if r.at == AwaitingSeal then Evidence
    else if k.Round? then Reconcile
    else if r.at == PreflightComplete then Business
    else Preflight
  }

  function IntendedRecord(r: Record, p: Phase, staged: bool): Record {
    r.(at := In(p), lifecycle := Running, handles := r.handles[p := staged], proof := None)
  }

  /** `_budget_blocked`: the proof and outcome an exhausted budget leaves, if it applies. */
  function ExhaustedFacts(r: Record): Option<(Option<Proof>, Outcome)> {
    if r.at == AwaitingSeal then
      Some((if r.frozen.Some? then Some(r.frozen.value.proof) else None, FrozenOutcome(r)))
    else if r.at == Queued && r.handles == map[] then Some((Some(Unstarted), Failed))
    else if r.at == PreflightComplete then
      Some((r.proof, if r.proof.Some? && r.proof.value.effects then Failed else Unknown))
    else None
  }

  function ExhaustedRecord(r: Record): Record
    requires ExhaustedFacts(r).Some?
  {
    var (proof, outcome) := ExhaustedFacts(r).value;
    var certain := outcome != Unknown && Quiet(proof) && proof.value.effects;
    r.(at := Exited, lifecycle := if certain then Terminal else ReconcileRequired, outcome := outcome, proof := proof)
  }

  // ---- completion ---------------------------------------------------------------------------

  /** The manager attests a result of this very execution. */
  predicate Vouched(k: Key, r: Record, p: Proof) {
    (r.at == In(Business) || r.at == In(Reconcile)) && p.verified
  }

  predicate Own(k: Key, r: Record, p: Proof) {
    && r.at.In? && p.report.execution == Some(Execution(k, r.at.phase))
    && p.report.outcome.Some? && p.report.outcome.value != Pending
  }

  predicate EffectsKnown(k: Key, r: Record, p: Proof) {
    p.effects && (Vouched(k, r, p) ==> Own(k, r, p) && p.report.outcome != Some(Unknown))
  }

  function ObservedOutcome(k: Key, r: Record, p: Proof): Outcome {
    if !EffectsKnown(k, r, p) then Unknown
    else if Vouched(k, r, p) then p.report.outcome.value
    else if r.cancelRequested then Cancelled
    else if p.exitCode == Some(0) then Succeeded
    else Failed
  }

  /** The attested outcome and the exit code of the reporting helper disagree. */
  predicate ReportDoubtful(k: Key, r: Record, p: Proof) {
    && EffectsKnown(k, r, p) && Vouched(k, r, p)
    && p.exitCode != Some(if p.report.outcome == Some(Succeeded) then 0 else 1)
  }

  predicate WillSeal(c: Config, k: Key, r: Record, p: Proof) {
    c.sealing && p.report.snapshot && (Vouched(k, r, p) ==> Own(k, r, p)) && !r.cancelRequested
  }

  predicate SealConfirmed(p: Proof) {
    p.exitCode == Some(0) && p.report.publication && p.collectors && p.writers
  }

  predicate PreflightPassed(r: Record, p: Proof) {
    r.at == In(Preflight) && !r.cancelRequested && p.exitCode == Some(0) && p.effects
  }

  /** An exit proof that `_complete` records rather than raises on. */
  predicate Completable(r: Record, p: Proof) {
    && p.blocked && p.exited
    && (r.at == In(Evidence) && SealConfirmed(p) ==> r.frozen.Some?)
    && (PreflightPassed(r, p) ==> p.stableInputs)
  }

  function FinishEvidence(r: Record, p: Proof): Record {
    var outcome := FrozenOutcome(r);
    r.(at := Exited, outcome := outcome, proof := Some(p),
       evidence := if SealConfirmed(p) then Sealed else DurabilityUnknown,
       lifecycle := if SealConfirmed(p) && outcome != Unknown then Terminal else ReconcileRequired)
  }

  function FinishPreflight(r: Record, p: Proof): Record {
    r.(at := if r.recovered then Exited else PreflightComplete,
       lifecycle := if r.recovered then ReconcileRequired else Running,
       outcome := if r.recovered then Unknown else Pending,
       stableInputs := true, proof := Some(p))
  }

  function FinishWork(c: Config, k: Key, r: Record, p: Proof, observed: nat): Record {
    var outcome := ObservedOutcome(k, r, p);
    var stored := p.(effects := EffectsKnown(k, r, p));
    var sealing := WillSeal(c, k, r, p);
    r.(at := if sealing then AwaitingSeal else Exited,
       lifecycle := if sealing then Running else if stored.effects then Terminal else ReconcileRequired,
       outcome := outcome, proof := Some(stored),
       evidence := if ReportDoubtful(k, r, p) then DurabilityUnknown else r.evidence,
       frozen := if sealing then Some(Frozen(outcome, stored, observed)) else r.frozen)
  }

  function Finished(c: Config, k: Key, r: Record, p: Proof, observed: nat): Record {
    if r.at == In(Evidence) then FinishEvidence(r, p)
    else if PreflightPassed(r, p) then FinishPreflight(r, p)
    else FinishWork(c, k, r, p, observed)
  }

  // ---- recovered evidence -------------------------------------------------------------------

  predicate LastBarrier(log: seq<Entry>, k: Key, i: nat) {
    && i < |log| && log[i] == Entry(k, Barrier)
    && forall j :: i < j < |log| ==> log[j] != Entry(k, Barrier)
  }

  predicate LastFreeze(log: seq<Entry>, k: Key, i: nat) {
    && i < |log| && log[i].key == k && log[i].event.Freeze?
    && forall j :: i < j < |log| ==> !(log[j].key == k && log[j].event.Freeze?)
  }

  /** The entry shows an issued or delivered evidence phase. */
  predicate MentionsEvidence(e: Event) {
    match e
    case Enqueued(handles) => Evidence in handles
    case Intent(_, handles) => Evidence in handles
    case Delivered(list) => exists d :: d in list && d.phase == Evidence
    case _ => false
  }

  /** `_first_recovered_evidence`: the only work that recovery may still start. */
  ghost predicate FirstEvidence(s: State, k: Key, committed: bool)
    requires k in s.ledger
  {
    var r := s.ledger[k].record;
    && r.recovered && r.at == (if committed then In(Evidence) else AwaitingSeal)
    && r.handles.Keys == (if k.Job? then {Preflight, Business} else {Reconcile}) + (if committed then {Evidence} else {})
    && r.frozen.Some? && r.frozen.value.outcome == r.outcome && r.outcome != Unknown && r.outcome != Pending
    && Settled(r.frozen.value.proof)
    && exists f: nat, b: nat ::
         LastFreeze(s.log, k, f) && LastBarrier(s.log, k, b) && FirstBetween(s.log, k, r.frozen.value, f, b, committed)
  }

  predicate Settled(p: Proof) {
    p.blocked && p.exited && p.collectors && p.writers && p.effects
  }

  /** The freeze at `f` is what the record holds and precedes the barrier at `b`; no evidence
      was issued or delivered before the barrier. */
  predicate FirstBetween(log: seq<Entry>, k: Key, frozen: Frozen, f: nat, b: nat, committed: bool)
    requires f < |log| && b < |log|
  {
    && 0 < frozen.observed < f + 1 && f < b && log[f].event == Freeze(frozen)
    && (forall i :: 0 <= i < b && log[i].key == k ==> !MentionsEvidence(log[i].event))
    && (forall i :: 0 <= i < |log| && log[i].key == k && IssuesEvidence(log[i].event) ==> committed && b < i)
  }

  predicate IssuesEvidence(e: Event) {
    e.Intent? && e.phase == Evidence
  }

  // ---- the delivery guard ---------------------------------------------------------------------

  /** The proof that the guard demands of the stage before. */
  predicate PriorStageProved(stage: Stage, prior: Proof) {
    match stage
    case Helper => prior.exitCode == Some(0) && prior.blocked && prior.exited && prior.collectors && prior.writers && prior.effects
    case Reader => prior.blocked && prior.exited && prior.collectors && prior.writers
    case _ => true
  }

  /** No delivery that excludes this one was ever recorded. */
  predicate Undelivered(list: seq<Delivery>, p: Phase, stage: Stage) {
    && Delivery(p, Single) !in list && Delivery(p, stage) !in list
    && match stage
       case Single => forall d :: d in list ==> d.phase != p
       case Bootstrap => Delivery(p, Helper) !in list && Delivery(p, Reader) !in list
       case Helper => Delivery(p, Reader) !in list && Delivery(p, Bootstrap) in list
       case Reader => Delivery(p, Bootstrap) in list && Delivery(p, Helper) in list
  }

  // ---- steps ------------------------------------------------------------------------------

  function RecordOf(s: State, k: Key): Record
    requires k in s.ledger
  {
    s.ledger[k].record
  }

  /** The principal is still admitted and nothing was revoked since admission. */
  predicate Authorized(s: State, k: Key)
    requires k in s.ledger
  {
    s.ledger[k].principal !in s.revoked && RecordOf(s, k).generation == s.generation
  }

  predicate ParentQuiet(s: State, k: Key)
    requires k in s.ledger
  {
    var parent := Job(s.ledger[k].parent);
    && parent in s.ledger
    && RecordOf(s, parent).lifecycle != Accepted && RecordOf(s, parent).lifecycle != Running
    && Quiet(RecordOf(s, parent).proof)
  }

  ghost predicate Enabled(c: Config, s: State, step: Step) {
    match step
    case Submit(k, p) => k.Job? && k !in s.ledger && p !in s.revoked
    case OpenRound(k, parent) =>
      && k.Round? && k !in s.ledger && Job(parent) in s.ledger && s.ledger[Job(parent)].principal !in s.revoked
      && RecordOf(s, Job(parent)).lifecycle != Accepted && RecordOf(s, Job(parent)).lifecycle != Running
      && (forall o :: o in s.ledger && o.Round? && s.ledger[o].parent == parent ==> RecordOf(s, o).lifecycle == Terminal)
    case Cancel(k) => k in s.ledger && RecordOf(s, k).lifecycle != Terminal && !RecordOf(s, k).cancelRequested
    case Revoke(_) => true
    case Look => s.ready
    case Block(k) =>
      && k in s.ledger && k in s.snapshot && k !in s.active && k !in s.recovering
      && Startable(s.snapshot[k]) && s.snapshot[k].cancelRequested
    case Intend(k, p, _) =>
      && k in s.ledger && k in s.snapshot && k !in s.active && k !in s.recovering
      && Startable(s.snapshot[k]) && !s.snapshot[k].cancelRequested
      && (s.snapshot[k].outcome == Unknown ==> s.snapshot[k].at == AwaitingSeal)
      && p == NextPhase(k, s.snapshot[k])
      && var r := RecordOf(s, k);
         && !r.cancelRequested && |Slots(s)| < c.maxRunning && Authorized(s, k)
         && (p == Reconcile ==> ParentQuiet(s, k))
         && (p == Business ==> r.stableInputs)
         && (r.recovered ==> p == Evidence && FirstEvidence(s, k, false))
         && p !in r.handles
    case Attach(k) => k in s.ledger && RecordOf(s, k).at.In? && Execution(k, RecordOf(s, k).at.phase) in s.owners
    case Enqueue(k) => k in s.ledger && k in s.active
    case Complete(k, p) => k in s.ledger && k in s.active && Completable(RecordOf(s, k), p)
    case Uncertain(k) => s.ready && k in s.ledger && RecordOf(s, k).lifecycle != Terminal
    case Exhaust(k) =>
      && s.ready && k in s.ledger && k !in s.active && RecordOf(s, k).lifecycle != Terminal
      && ExhaustedFacts(RecordOf(s, k)).Some?
    case Reattach(k) => k in s.recovering
    case Refuse(k) => k in s.recovering
    case Guard(e, stage, prior, _) =>
      && e in s.owners && e.key in s.ledger
      && var r := RecordOf(s, e.key);
         && r.at == In(e.phase) && e.phase in r.handles && !r.cancelRequested
         && (r.recovered ==> e.phase == Evidence && FirstEvidence(s, e.key, true))
         && Undelivered(r.delivered, e.phase, stage) && PriorStageProved(stage, prior)
         && (stage == Reader ==> r.handles[e.phase])
         && Authorized(s, e.key)
    case Crash => true
    case Recover(order) =>
      && !s.ready && s.active == {} && s.recovering == {} && s.owners == {} && s.snapshot == map[]
      && (forall k :: k in order <==> k in s.ledger && NeedsBarrier(RecordOf(s, k)))
  }

  /** One transaction: the new record, and what it appends to the event table. */
  function Write(s: State, k: Key, r: Record, events: seq<Event>): State
    requires k in s.ledger
  {
    s.(ledger := s.ledger[k := s.ledger[k].(record := r)], log := s.log + Entries(k, events))
  }

  function Entries(k: Key, events: seq<Event>): seq<Entry> {
    seq(|events|, i requires 0 <= i < |events| => Entry(k, events[i]))
  }

  /** The row has been dealt with in this pass. */
  function Handled(s: State, k: Key): State {
    s.(snapshot := s.snapshot - {k})
  }

  function RevokedLedger(s: State, p: Principal): map<Key, Row> {
    map k | k in s.ledger ::
      if s.ledger[k].principal == p && RecordOf(s, k).lifecycle != Terminal
      then s.ledger[k].(record := RecordOf(s, k).(cancelRequested := true)) else s.ledger[k]
  }

  function RecoveredLedger(ledger: map<Key, Row>): map<Key, Row> {
    map k | k in ledger :: ledger[k].(record := Barred(ledger[k].record))
  }

  function CompletionEvents(c: Config, k: Key, r: Record, p: Proof, observed: nat): seq<Event> {
    [Exit(if r.at.In? then r.at.phase else Preflight)]
      + (if r.at != In(Evidence) && !PreflightPassed(r, p) && WillSeal(c, k, r, p)
         then [Freeze(Finished(c, k, r, p, observed).frozen.value)] else [])
  }

  /** Every executable phase that recovery tries to observe again. */
  function Reconnected(ledger: map<Key, Row>): set<Key> {
    set k | k in ledger && NeedsBarrier(ledger[k].record) && ledger[k].record.at.In?
            && ledger[k].record.at.phase in ledger[k].record.handles
  }

  function Admit(s: State, k: Key, parent: string, p: Principal): State {
    s.(ledger := s.ledger[k := Row(parent, p, Fresh(s.generation))])
  }

  ghost function Apply(c: Config, s: State, step: Step): State
    requires Enabled(c, s, step)
  {
    match step
    case Submit(k, p) => Admit(s, k, k.id, p)
    case OpenRound(k, parent) => Admit(s, k, parent, s.ledger[Job(parent)].principal)
    case Cancel(k) => Write(s, k, CancelledRecord(RecordOf(s, k)), [])
    case Revoke(p) =>
      s.(ledger := RevokedLedger(s, p), revoked := s.revoked + {p}, generation := s.generation + 1)
    case Look => s.(snapshot := map k | k in s.ledger :: RecordOf(s, k))
    case Block(k) => Handled(Write(s, k, BlockedRecord(RecordOf(s, k), s.snapshot[k]), []), k)
    case Intend(k, p, staged) =>
      var r := IntendedRecord(RecordOf(s, k), p, staged);
      Handled(Write(s, k, r, [Intent(p, r.handles)]), k).(owners := s.owners + {Execution(k, p)})
    case Attach(k) => s.(active := s.active + {k})
    case Enqueue(k) => Write(s, k, RecordOf(s, k), [Enqueued(RecordOf(s, k).handles)])
    case Complete(k, p) =>
      var r := RecordOf(s, k);
      Handled(Write(s, k, Finished(c, k, r, p, |s.log| + 1), CompletionEvents(c, k, r, p, |s.log| + 1)), k)
        .(active := s.active - {k})
    case Uncertain(k) => Handled(Write(s, k, Doubt(RecordOf(s, k)), []), k)
    case Exhaust(k) => Handled(Write(s, k, ExhaustedRecord(RecordOf(s, k)), []), k)
    case Reattach(k) => s.(active := s.active + {k}, recovering := s.recovering - {k})
    case Refuse(k) => s.(recovering := s.recovering - {k})
    case Guard(e, stage, _, launched) =>
      var r := RecordOf(s, e.key);
      var list := r.delivered + [Delivery(e.phase, stage)];
      Write(s, e.key, r.(delivered := list), [Event.Delivered(list)] + (if launched then [Launched(e.phase, stage)] else []))
    case Crash => s.(ready := false, active := {}, recovering := {}, owners := {}, snapshot := map[])
    case Recover(order) =>
      s.(ready := true, ledger := RecoveredLedger(s.ledger), recovering := Reconnected(s.ledger),
         log := s.log + seq(|order|, i requires 0 <= i < |order| => Entry(order[i], Barrier)))
  }

  // ---- runs -------------------------------------------------------------------------------

  ghost predicate Runs(c: Config, s: State, steps: seq<Step>)
    decreases |steps|
  {
    steps == [] || (Enabled(c, s, steps[0]) && Runs(c, Apply(c, s, steps[0]), steps[1..]))
  }

  ghost function After(c: Config, s: State, steps: seq<Step>): State
    requires Runs(c, s, steps)
    decreases |steps|
  {
    if steps == [] then s else After(c, Apply(c, s, steps[0]), steps[1..])
  }

  lemma {:induction false} RunsOn(c: Config, s: State, steps: seq<Step>, step: Step)
    requires Runs(c, s, steps) && Enabled(c, After(c, s, steps), step)
    ensures Runs(c, s, steps + [step]) && After(c, s, steps + [step]) == Apply(c, After(c, s, steps), step)
    decreases |steps|
  {
    if steps == [] {
      assert [step][1..] == [];
    } else {
      RunsOn(c, Apply(c, s, steps[0]), steps[1..], step);
      assert (steps + [step])[1..] == steps[1..] + [step];
    }
  }
}
