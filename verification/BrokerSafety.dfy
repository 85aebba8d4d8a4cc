/** What every interleaving of the broker keeps: launches, outcomes and slots. */
module BrokerSafety {
  import opened Octets
  import opened Broker

  // ---- one record ---------------------------------------------------------------------------

  predicate Ended(p: Place) {
    p == Exited || p == CancelledBeforeStart || p == CancelledBeforeBusiness
  }

  /** The work is known to have succeeded, failed or been cancelled. */
  predicate Definite(o: Outcome) {
    o == Succeeded || o == Failed || o == Cancelled
  }

  predicate RecordOk(r: Record) {
    && (r.lifecycle == Terminal ==> Ended(r.at))
    && (r.lifecycle == Accepted ==> r.at == Queued)
    && (r.at == CancelledBeforeStart || r.at == CancelledBeforeBusiness ==> r.lifecycle == Terminal)
    && (r.frozen.Some? ==>
          (r.at == AwaitingSeal || r.at == In(Evidence) || r.at == Exited) && r.outcome == r.frozen.value.outcome)
    && (r.at == AwaitingSeal || r.at == In(Evidence) ==> r.frozen.Some?)
    && (r.lifecycle == Terminal ==> Definite(r.outcome))
    && (r.frozen.Some? ==> (r.frozen.value.outcome != Unknown <==> Definite(r.frozen.value.outcome)))
    && (r.frozen.Some? && r.frozen.value.proof.effects ==> Definite(r.frozen.value.outcome))
    && (r.at.In? ==> r.at.phase in r.handles && r.proof == None)
    && (r.at == Queued ==> r.handles == map[])
    && (Evidence in r.handles ==> (r.at == In(Evidence) || r.at == Exited) && r.frozen.Some?)
    && (forall d :: d in r.delivered ==> d.phase in r.handles)
    && (r.evidence == Sealed ==>
          r.at == Exited && Evidence in r.handles && r.proof.Some? && SealConfirmed(r.proof.value))
  }

  /** A job runs its business phase after a preflight that found its inputs stable; a round has
      only its observation and its evidence. */
  predicate PhasesOk(k: Key, r: Record) {
    && (k.Job? ==> Reconcile !in r.handles)
    && (k.Round? ==> Preflight !in r.handles && Business !in r.handles && r.at != PreflightComplete)
    && (r.at == PreflightComplete || Business in r.handles ==> Preflight in r.handles && r.stableInputs)
    && (r.at == In(Preflight) || r.at == Queued ==> Business !in r.handles)
  }

  /** `r2` may follow `r`: nothing that was settled is unsettled. */
  predicate Follows(r: Record, r2: Record) {
    && (r.lifecycle == Terminal ==> r2 == r)
    && (Ended(r.at) ==> r2.at == r.at)
    && (r.frozen.Some? ==> r2.frozen == r.frozen && r2.outcome == r.outcome)
    && (r.cancelRequested ==> r2.cancelRequested) && (r.recovered ==> r2.recovered)
    && (forall p :: p in r.handles ==> p in r2.handles && r2.handles[p] == r.handles[p])
    && r.delivered <= r2.delivered
    && r2.generation == r.generation
  }

  lemma FreshOk(generation: nat)
    ensures RecordOk(Fresh(generation)) && forall k :: PhasesOk(k, Fresh(generation))
  {
  }

  lemma CancelOk(r: Record)
    requires RecordOk(r) && r.lifecycle != Terminal
    ensures RecordOk(CancelledRecord(r)) && Follows(r, CancelledRecord(r))
  {
  }

  lemma DoubtOk(r: Record)
    requires RecordOk(r) && r.lifecycle != Terminal
    ensures RecordOk(Doubt(r)) && Follows(r, Doubt(r))
  {
  }

  lemma SameGeneration(r: Record, r2: Record)
    requires Follows(r, r2)
    ensures r2.generation == r.generation
  {
  }

  lemma BarredOk(r: Record)
    requires RecordOk(r)
    ensures RecordOk(Barred(r)) && Follows(r, Barred(r))
  {
  }

  lemma IntendOk(r: Record, p: Phase, staged: bool)
    requires RecordOk(r) && r.lifecycle != Terminal && !r.at.In? && p !in r.handles
    requires r.at == AwaitingSeal <==> p == Evidence
    requires r.at == Queued || r.at == PreflightComplete || r.at == AwaitingSeal
    ensures RecordOk(IntendedRecord(r, p, staged)) && Follows(r, IntendedRecord(r, p, staged))
  {
  }

  lemma ExhaustOk(r: Record)
    requires RecordOk(r) && r.lifecycle != Terminal && ExhaustedFacts(r).Some?
    ensures RecordOk(ExhaustedRecord(r)) && Follows(r, ExhaustedRecord(r))
  {
  }

  lemma FinishEvidenceOk(r: Record, p: Proof)
    requires RecordOk(r) && r.at == In(Evidence)
    ensures RecordOk(FinishEvidence(r, p)) && Follows(r, FinishEvidence(r, p))
  {
  }

  lemma FinishPreflightOk(r: Record, p: Proof)
    requires RecordOk(r) && r.at == In(Preflight)
    ensures RecordOk(FinishPreflight(r, p)) && Follows(r, FinishPreflight(r, p))
  {
  }

  lemma FinishWorkOk(c: Config, k: Key, r: Record, p: Proof, observed: nat)
    requires RecordOk(r) && r.at.In? && r.at != In(Evidence)
    ensures RecordOk(FinishWork(c, k, r, p, observed)) && Follows(r, FinishWork(c, k, r, p, observed))
  {
    OutcomeMeaning(k, r, p);
    hide ObservedOutcome;
    hide EffectsKnown;
    hide ReportDoubtful;
    hide WillSeal;
  }

  /** What an exit proof says about the outcome: it is definite exactly when the side effects are
      known.  Success takes a clean exit of work that nobody cancelled, or the manager's word
      for the report of this very execution. */
  lemma OutcomeMeaning(k: Key, r: Record, p: Proof)
    ensures Definite(ObservedOutcome(k, r, p)) <==> EffectsKnown(k, r, p)
    ensures ObservedOutcome(k, r, p) != Pending && (!p.effects ==> ObservedOutcome(k, r, p) == Unknown)
    ensures ObservedOutcome(k, r, p) == Succeeded ==>
              p.effects && ((p.exitCode == Some(0) && !r.cancelRequested)
                            || (p.verified && p.report.execution == Some(Execution(k, r.at.phase)) && p.report.outcome == Some(Succeeded)))
  {
  }

  lemma FinishOk(c: Config, k: Key, r: Record, p: Proof, observed: nat)
    requires RecordOk(r) && r.at.In? && Completable(r, p)
    ensures RecordOk(Finished(c, k, r, p, observed)) && Follows(r, Finished(c, k, r, p, observed))
    ensures !Finished(c, k, r, p, observed).at.In? && Quiet(Finished(c, k, r, p, observed).proof)
  {
    hide RecordOk;
    hide Follows;
    if r.at == In(Evidence) {
      FinishEvidenceOk(r, p);
    } else if PreflightPassed(r, p) {
      FinishPreflightOk(r, p);
    } else {
      FinishWorkOk(c, k, r, p, observed);
    }
  }

  lemma GuardOk(r: Record, p: Phase, stage: Stage)
    requires RecordOk(r) && r.at == In(p)
    ensures var r2 := r.(delivered := r.delivered + [Delivery(p, stage)]);
            RecordOk(r2) && Follows(r, r2)
  {
  }

  // ---- what the coordinator saw --------------------------------------------------------------

  /** The row has changed since it was seen only as clients and deliveries can change it. */
  predicate Stale(seen: Record, r: Record) {
    || (&& r == seen.(cancelRequested := r.cancelRequested, delivered := r.delivered)
        && (seen.cancelRequested ==> r.cancelRequested) && seen.delivered <= r.delivered)
    || (seen.at == Queued && !seen.cancelRequested && seen.lifecycle != Terminal && r == CancelledRecord(seen))
  }

  /** Writing from a stale record is safe: what it cancels has not been settled since. */
  lemma BlockOk(r: Record, seen: Record)
    requires RecordOk(r) && Stale(seen, r) && Startable(seen) && seen.cancelRequested && !r.at.In?
    ensures RecordOk(BlockedRecord(r, seen)) && Follows(r, BlockedRecord(r, seen))
  {
  }

  // ---- the whole state ------------------------------------------------------------------------

  ghost predicate Rows(s: State) {
    forall k :: k in s.ledger ==>
      RecordOk(RecordOf(s, k)) && PhasesOk(k, RecordOf(s, k)) && RecordOf(s, k).generation <= s.generation
  }

  /** What is in memory is about phases that were issued and have not been completed. */
  ghost predicate Memory(s: State) {
    && (!s.ready ==> s.active == {} && s.recovering == {} && s.owners == {} && s.snapshot == map[])
    && (forall k :: k in s.active || k in s.recovering ==> k in s.ledger && RecordOf(s, k).at.In?)
    && s.active !! s.recovering
    && (forall e :: e in s.owners ==>
          e.key in s.ledger && e.phase in RecordOf(s, e.key).handles && e.key !in s.recovering)
    && (forall k :: k in s.snapshot ==> k in s.ledger && Stale(s.snapshot[k], RecordOf(s, k)))
  }

  /** `s2` may follow `s`. */
  ghost predicate Onward(s: State, s2: State) {
    && s.log <= s2.log && s.revoked <= s2.revoked && s.generation <= s2.generation
    && (forall k :: k in s.ledger ==>
          && k in s2.ledger && s2.ledger[k].principal == s.ledger[k].principal
          && Follows(RecordOf(s, k), RecordOf(s2, k)))
  }

  lemma StartedFrom(s: State, k: Key, p: Phase)
    requires Rows(s) && Memory(s) && k in s.ledger && k in s.snapshot && !RecordOf(s, k).cancelRequested
    requires Startable(s.snapshot[k]) && k !in s.active && p == NextPhase(k, s.snapshot[k])
    ensures var r := RecordOf(s, k);
            && r.lifecycle != Terminal && (r.at == AwaitingSeal <==> p == Evidence)
            && (r.at == Queued || r.at == PreflightComplete || r.at == AwaitingSeal)
  {
  }

  /** Steps that write one record: the record they write. */
  ghost function NewRecord(c: Config, s: State, step: Step): Record
    requires Enabled(c, s, step) && WritesOne(step)
  {
    match step
    case Cancel(k) => CancelledRecord(RecordOf(s, k))
    case Block(k) => BlockedRecord(RecordOf(s, k), s.snapshot[k])
    case Intend(k, p, staged) => IntendedRecord(RecordOf(s, k), p, staged)
    case Enqueue(k) => RecordOf(s, k)
    case Complete(k, p) => Finished(c, k, RecordOf(s, k), p, |s.log| + 1)
    case Uncertain(k) => Doubt(RecordOf(s, k))
    case Exhaust(k) => ExhaustedRecord(RecordOf(s, k))
    case Guard(e, stage, _, _) =>
      RecordOf(s, e.key).(delivered := RecordOf(s, e.key).delivered + [Delivery(e.phase, stage)])
  }

  predicate WritesOne(step: Step) {
    step.Cancel? || step.Block? || step.Intend? || step.Enqueue? || step.Complete? || step.Uncertain?
    || step.Exhaust? || step.Guard?
  }

  function Target(step: Step): Key
    requires WritesOne(step)
  {
    if step.Guard? then step.execution.key else step.key
  }

  lemma NewRecordOk(c: Config, s: State, step: Step)
    requires Rows(s) && Memory(s) && Enabled(c, s, step) && WritesOne(step)
    ensures Target(step) in s.ledger
    ensures RecordOk(NewRecord(c, s, step)) && Follows(RecordOf(s, Target(step)), NewRecord(c, s, step))
  {
    hide RecordOk;
    hide Follows;
    var k := Target(step);
    var r := RecordOf(s, k);
    if step.Cancel? {
      CancelOk(r);
    } else if step.Block? {
      BlockedFrom(s, k);
    } else if step.Intend? {
      StartedFrom(s, k, step.phase);
      IntendOk(r, step.phase, step.staged);
    } else if step.Enqueue? {
      SameFollows(r);
    } else if step.Complete? {
      FinishOk(c, k, r, step.proof, |s.log| + 1);
    } else if step.Uncertain? {
      DoubtOk(r);
    } else if step.Exhaust? {
      ExhaustOk(r);
    } else {
      GuardOk(r, step.execution.phase, step.stage);
    }
  }

  lemma SamePhases(k: Key, r: Record, r2: Record)
    requires PhasesOk(k, r) && r2.handles == r.handles && r2.stableInputs == r.stableInputs
    requires r2.at == r.at || Ended(r2.at)
    ensures PhasesOk(k, r2)
  {
  }

  lemma OnlyEnds(c: Config, s: State, step: Step)
    requires Enabled(c, s, step) && WritesOne(step) && Target(step) in s.ledger && !step.Intend? && !step.Complete?
    ensures var r, r2 := RecordOf(s, Target(step)), NewRecord(c, s, step);
            r2.handles == r.handles && r2.stableInputs == r.stableInputs && (r2.at == r.at || Ended(r2.at))
  {
  }

  lemma IntendPhases(k: Key, r: Record, p: Phase, staged: bool)
    requires PhasesOk(k, r) && p == NextPhase(k, r) && (p == Business ==> r.stableInputs)
    requires r.at == Queued || r.at == PreflightComplete || r.at == AwaitingSeal
    requires r.at == Queued ==> r.handles == map[]
    ensures PhasesOk(k, IntendedRecord(r, p, staged))
  {
  }

  lemma NewPhasesOk(c: Config, s: State, step: Step)
    requires Rows(s) && Memory(s) && Enabled(c, s, step) && WritesOne(step) && Target(step) in s.ledger
    ensures PhasesOk(Target(step), NewRecord(c, s, step))
  {
    hide FirstEvidence;
    hide Slots;
    hide PhasesOk;
    var k := Target(step);
    var r := RecordOf(s, k);
    assert RecordOk(r) && PhasesOk(k, r);
    if step.Intend? {
      StartedFrom(s, k, step.phase);
      StartedPhase(s, k, step.phase);
      IntendPhases(k, r, step.phase, step.staged);
    } else if step.Complete? {
      FinishPhases(c, k, r, step.proof, |s.log| + 1);
    } else {
      OnlyEnds(c, s, step);
      hide NewRecord;
      hide Enabled;
      SamePhases(k, r, NewRecord(c, s, step));
    }
  }

  lemma FinishPhases(c: Config, k: Key, r: Record, p: Proof, observed: nat)
    requires RecordOk(r) && PhasesOk(k, r) && r.at.In?
    ensures PhasesOk(k, Finished(c, k, r, p, observed))
  {
  }

  lemma StartedPhase(s: State, k: Key, p: Phase)
    requires Rows(s) && Memory(s) && k in s.ledger && k in s.snapshot && !RecordOf(s, k).cancelRequested
    requires Startable(s.snapshot[k]) && p == NextPhase(k, s.snapshot[k])
    ensures p == NextPhase(k, RecordOf(s, k))
  {
  }

  lemma SameFollows(r: Record)
    ensures Follows(r, r)
  {
  }

  lemma BlockedFrom(s: State, k: Key)
    requires Rows(s) && Memory(s) && k in s.ledger && k in s.snapshot
    requires Startable(s.snapshot[k]) && s.snapshot[k].cancelRequested
    ensures RecordOk(BlockedRecord(RecordOf(s, k), s.snapshot[k]))
    ensures Follows(RecordOf(s, k), BlockedRecord(RecordOf(s, k), s.snapshot[k]))
  {
    BlockOk(RecordOf(s, k), s.snapshot[k]);
  }

  lemma OneWritten(c: Config, s: State, step: Step)
    requires Enabled(c, s, step) && WritesOne(step)
    ensures var s2 := Apply(c, s, step);
            && s2.ledger == s.ledger[Target(step) := s.ledger[Target(step)].(record := NewRecord(c, s, step))]
            && s.log <= s2.log && s2.revoked == s.revoked && s2.generation == s.generation && s2.ready == s.ready
  {
  }

  lemma OneRow(s: State, s2: State, k: Key, r: Record)
    requires Rows(s) && k in s.ledger && RecordOk(r) && PhasesOk(k, r) && Follows(RecordOf(s, k), r)
    requires s2.ledger == s.ledger[k := s.ledger[k].(record := r)] && s.log <= s2.log && s.revoked <= s2.revoked && s.generation <= s2.generation
    ensures Rows(s2) && Onward(s, s2)
  {
    hide RecordOk;
    hide PhasesOk;
    AllFollow(s);
  }

  lemma AllFollow(s: State)
    ensures forall k :: k in s.ledger ==> Follows(RecordOf(s, k), RecordOf(s, k))
  {
  }

  lemma AdmitRows(s: State, k: Key, parent: string, p: Principal)
    requires Rows(s) && k !in s.ledger
    ensures Rows(Admit(s, k, parent, p)) && Onward(s, Admit(s, k, parent, p))
  {
    hide RecordOk;
    hide PhasesOk;
    hide Follows;
    AllFollow(s);
    FreshOk(s.generation);
  }

  lemma RecoverRows(s: State, s2: State)
    requires Rows(s) && s2.ledger == RecoveredLedger(s.ledger) && s.log <= s2.log && s.revoked <= s2.revoked && s.generation <= s2.generation
    ensures Rows(s2) && Onward(s, s2)
  {
    hide RecordOk;
    hide PhasesOk;
    hide Follows;
    hide Barred;
    forall k | k in s.ledger
      ensures RecordOk(Barred(RecordOf(s, k))) && PhasesOk(k, Barred(RecordOf(s, k)))
      ensures Follows(RecordOf(s, k), Barred(RecordOf(s, k)))
      ensures Barred(RecordOf(s, k)).generation == RecordOf(s, k).generation
    {
      BarredPhases(k, RecordOf(s, k));
      BarredOk(RecordOf(s, k));
      SameGeneration(RecordOf(s, k), Barred(RecordOf(s, k)));
    }
  }

  lemma BarredPhases(k: Key, r: Record)
    requires PhasesOk(k, r)
    ensures PhasesOk(k, Barred(r))
  {
  }

  lemma FlagOk(r: Record)
    requires RecordOk(r) && r.lifecycle != Terminal
    ensures RecordOk(r.(cancelRequested := true)) && Follows(r, r.(cancelRequested := true))
  {
  }

  lemma RevokeRows(s: State, s2: State, p: Principal)
    requires Rows(s) && s2.ledger == RevokedLedger(s, p) && s.log <= s2.log && s.revoked <= s2.revoked && s.generation <= s2.generation
    ensures Rows(s2) && Onward(s, s2)
  {
    hide RecordOk;
    hide Follows;
    AllFollow(s);
    forall k | k in s.ledger && RecordOf(s, k).lifecycle != Terminal
      ensures RecordOk(RecordOf(s, k).(cancelRequested := true))
      ensures Follows(RecordOf(s, k), RecordOf(s, k).(cancelRequested := true))
    {
      FlagOk(RecordOf(s, k));
    }
  }

  predicate MovesMemory(step: Step) {
    step.Look? || step.Attach? || step.Reattach? || step.Refuse? || step.Crash?
  }

  lemma MemoryMoves(c: Config, s: State, step: Step)
    requires Enabled(c, s, step) && MovesMemory(step)
    ensures var s2 := Apply(c, s, step);
            s2.ledger == s.ledger && s2.log == s.log && s2.revoked == s.revoked && s2.generation == s.generation
  {
  }

  lemma SameRows(s: State, s2: State)
    requires Rows(s) && s2.ledger == s.ledger && s2.log == s.log && s2.revoked == s.revoked && s2.generation == s.generation
    ensures Rows(s2) && Onward(s, s2)
  {
    AllFollow(s);
  }

  lemma OneRowStep(c: Config, s: State, step: Step)
    requires Rows(s) && Memory(s) && Enabled(c, s, step) && WritesOne(step)
    ensures Rows(Apply(c, s, step)) && Onward(s, Apply(c, s, step))
  {
    hide Enabled;
    hide Apply;
    hide NewRecord;
    hide Rows;
    hide Memory;
    hide RecordOk;
    hide PhasesOk;
    hide Follows;
    hide Onward;
    NewRecordOk(c, s, step);
    NewPhasesOk(c, s, step);
    OneWritten(c, s, step);
    OneRow(s, Apply(c, s, step), Target(step), NewRecord(c, s, step));
  }

  lemma RowsStep(c: Config, s: State, step: Step)
    requires Rows(s) && Memory(s) && Enabled(c, s, step)
    ensures Rows(Apply(c, s, step)) && Onward(s, Apply(c, s, step))
  {
    hide Rows;
    hide Memory;
    hide Onward;
    if WritesOne(step) {
      hide Enabled;
      hide Apply;
      OneRowStep(c, s, step);
    } else if MovesMemory(step) {
      hide Enabled;
      hide Apply;
      MemoryMoves(c, s, step);
      SameRows(s, Apply(c, s, step));
    } else if step.Recover? {
      RecoverRows(s, Apply(c, s, step));
    } else if step.Revoke? {
      RevokeRows(s, Apply(c, s, step), step.principal);
    } else if step.Submit? {
      AdmitRows(s, step.key, step.key.id, step.principal);
    } else {
      AdmitRows(s, step.key, step.parent, s.ledger[Job(step.parent)].principal);
    }
  }

  // ---- memory -----------------------------------------------------------------------------------

  lemma StaleCancel(seen: Record, r: Record)
    requires RecordOk(r) && Stale(seen, r) && r.lifecycle != Terminal && !r.cancelRequested
    ensures Stale(seen, CancelledRecord(r))
  {
    assert |r.delivered| == 0 || r.delivered[0] in r.delivered;
  }

  lemma StaleGuard(seen: Record, r: Record, d: Delivery)
    requires Stale(seen, r) && r.at.In?
    ensures Stale(seen, r.(delivered := r.delivered + [d]))
  {
  }

  lemma StaleFlag(seen: Record, r: Record)
    requires Stale(seen, r) && r.lifecycle != Terminal
    ensures Stale(seen, r.(cancelRequested := true))
  {
  }

  lemma StaleSame(r: Record)
    ensures Stale(r, r)
  {
  }

  /** The record that a step leaves under `k` is one that the coordinator's view allows, unless
      the step removes `k` from that view. */
  lemma StaleStep(c: Config, s: State, step: Step, k: Key)
    requires Rows(s) && Memory(s) && Enabled(c, s, step) && k in Apply(c, s, step).snapshot && k in Apply(c, s, step).ledger
    ensures Stale(Apply(c, s, step).snapshot[k], RecordOf(Apply(c, s, step), k))
  {
    hide RecordOk;
    hide Stale;
    hide FirstEvidence;
    assert k in s.ledger ==> RecordOk(RecordOf(s, k));
    hide Rows;
    hide Slots;
    if step.Look? {
      StaleSame(RecordOf(s, k));
    } else if step.Cancel? && step.key == k {
      StaleCancel(s.snapshot[k], RecordOf(s, k));
    } else if step.Guard? && step.execution.key == k {
      StaleGuard(s.snapshot[k], RecordOf(s, k), Delivery(step.execution.phase, step.stage));
    } else if step.Revoke? && RecordOf(s, k).lifecycle != Terminal {
      StaleFlag(s.snapshot[k], RecordOf(s, k));
    } else if WritesOne(step) {
      OneWritten(c, s, step);
      hide NewRecord;
    }
  }

  /** A phase stays issued until it is completed. */
  lemma StillIn(c: Config, s: State, step: Step, k: Key)
    requires Enabled(c, s, step) && k in s.ledger && RecordOf(s, k).at.In?
    requires k in s.active || k in s.recovering
    requires !(step.Complete? && step.key == k)
    ensures k in Apply(c, s, step).ledger && RecordOf(Apply(c, s, step), k).at == RecordOf(s, k).at
  {
    hide FirstEvidence;
    if WritesOne(step) {
      OneWritten(c, s, step);
      hide Apply;
    }
  }

  lemma OwnersStep(s: State, s2: State, e: Execution)
    requires Onward(s, s2) && e.key in s.ledger && e.phase in RecordOf(s, e.key).handles
    ensures e.key in s2.ledger && e.phase in RecordOf(s2, e.key).handles
  {
  }

  lemma MemoryStep(c: Config, s: State, step: Step)
    requires Rows(s) && Memory(s) && Enabled(c, s, step)
    ensures Memory(Apply(c, s, step))
  {
    hide Enabled;
    hide Apply;
    hide RecordOk;
    hide Onward;
    hide Stale;
    var s2 := Apply(c, s, step);
    RowsStep(c, s, step);
    MemoryFrame(c, s, step);
    hide Rows;
    forall k | k in s2.active || k in s2.recovering ensures k in s2.ledger && RecordOf(s2, k).at.In? {
      if k in s.active || k in s.recovering {
        if !(step.Complete? && step.key == k) {
          StillIn(c, s, step, k);
        }
      }
    }
    forall e | e in s2.owners ensures e.key in s2.ledger && e.phase in RecordOf(s2, e.key).handles {
      if e in s.owners {
        OwnersStep(s, s2, e);
      }
    }
    forall k | k in s2.snapshot ensures k in s2.ledger && Stale(s2.snapshot[k], RecordOf(s2, k)) {
      StaleStep(c, s, step, k);
    }
  }

  lemma MemoryFrame(c: Config, s: State, step: Step)
    requires Memory(s) && Enabled(c, s, step)
    ensures var s2 := Apply(c, s, step);
            && (!s2.ready ==> s2.active == {} && s2.recovering == {} && s2.owners == {} && s2.snapshot == map[])
            && s2.active !! s2.recovering
            && (forall k :: k in s2.active || k in s2.recovering ==>
                  || ((k in s.active || k in s.recovering) && !(step.Complete? && step.key == k))
                  || (k in s2.ledger && RecordOf(s2, k).at.In?))
            && (forall e :: e in s2.owners ==>
                  && e.key !in s2.recovering
                  && (e in s.owners || (e.key in s2.ledger && e.phase in RecordOf(s2, e.key).handles)))
            && (forall k :: k in s2.snapshot ==> k in s2.ledger)
  {
    hide FirstEvidence;
  }
}
