/** Launches: at most once, in order, never after cancellation or revocation, and after a
    recovery only for the first sealing of frozen work.  Slots: never more than admitted. */
module BrokerLaunches {
  import opened Collections
  import opened Octets
  import opened Broker
  import opened BrokerSafety

  // ---- the event table agrees with the records ----------------------------------------------

  ghost predicate EntryOk(s: State, i: nat)
    requires i < |s.log|
  {
    var k, event := s.log[i].key, s.log[i].event;
    && k in s.ledger
    && match event
       case Launched(p, stage) =>
         && Delivery(p, stage) in RecordOf(s, k).delivered
         && i > 0 && s.log[i - 1].key == k && s.log[i - 1].event.Delivered?
         && Delivery(p, stage) in s.log[i - 1].event.delivered
         && (stage == Helper || stage == Reader ==> Delivery(p, Bootstrap) in s.log[i - 1].event.delivered)
         && (stage == Reader ==> Delivery(p, Helper) in s.log[i - 1].event.delivered)
       case Freeze(f) => RecordOf(s, k).frozen == Some(f)
       case Barrier => RecordOf(s, k).recovered
       case _ => true
  }

  /** Every issued phase is the current one or has an accepted exit proof. */
  ghost predicate Accounted(s: State, k: Key, p: Phase)
    requires k in s.ledger
  {
    RecordOf(s, k).at == In(p) || Entry(k, Exit(p)) in s.log
  }

  ghost predicate Logged(s: State) {
    && (forall i: nat :: i < |s.log| ==> EntryOk(s, i))
    && (forall k, p :: k in s.ledger && p in RecordOf(s, k).handles ==> Accounted(s, k, p))
  }

  lemma EntryKept(s: State, s2: State, i: nat)
    requires i < |s.log| && EntryOk(s, i) && Onward(s, s2)
    ensures EntryOk(s2, i)
  {
    assert s2.log[i] == s.log[i];
    assert i > 0 ==> s2.log[i - 1] == s.log[i - 1];
    assert Follows(RecordOf(s, s.log[i].key), RecordOf(s2, s.log[i].key));
  }

  /** What a step appends to the event table. */
  ghost function Appended(c: Config, s: State, step: Step): seq<Entry>
    requires Enabled(c, s, step)
  {
    match step
    case Intend(k, p, staged) => [Entry(k, Intent(p, RecordOf(s, k).handles[p := staged]))]
    case Enqueue(k) => [Entry(k, Enqueued(RecordOf(s, k).handles))]
    case Complete(k, p) => Entries(k, CompletionEvents(c, k, RecordOf(s, k), p, |s.log| + 1))
    case Guard(e, stage, _, launched) =>
      [Entry(e.key, Event.Delivered(RecordOf(s, e.key).delivered + [Delivery(e.phase, stage)]))]
        + (if launched then [Entry(e.key, Launched(e.phase, stage))] else [])
    case Recover(order) => seq(|order|, i requires 0 <= i < |order| => Entry(order[i], Barrier))
    case _ => []
  }

  lemma LogFrame(c: Config, s: State, step: Step)
    requires Enabled(c, s, step)
    ensures Apply(c, s, step).log == s.log + Appended(c, s, step)
  {
    hide FirstEvidence;
    hide Slots;
  }

  lemma DeliveryEntry(c: Config, s: State, e: Execution, stage: Stage, prior: Proof, launched: bool, i: nat)
    requires Enabled(c, s, Guard(e, stage, prior, launched))
    requires |s.log| <= i < |Apply(c, s, Guard(e, stage, prior, launched)).log|
    ensures EntryOk(Apply(c, s, Guard(e, stage, prior, launched)), i)
  {
    var step := Guard(e, stage, prior, launched);
    var more := Appended(c, s, step);
    LogFrame(c, s, step);
    hide FirstEvidence;
    assert |more| <= 2 && Apply(c, s, step).log[i] == more[i - |s.log|];
    assert Apply(c, s, step).log[|s.log|] == more[0];
  }

  lemma CompletionEntry(c: Config, s: State, k: Key, p: Proof, i: nat)
    requires Enabled(c, s, Complete(k, p)) && |s.log| <= i < |Apply(c, s, Complete(k, p)).log|
    ensures EntryOk(Apply(c, s, Complete(k, p)), i)
  {
    var step := Complete(k, p);
    LogFrame(c, s, step);
    assert Apply(c, s, step).log[i] == Appended(c, s, step)[i - |s.log|];
  }

  lemma BarrierEntry(c: Config, s: State, order: seq<Key>, i: nat)
    requires Enabled(c, s, Recover(order)) && |s.log| <= i < |Apply(c, s, Recover(order)).log|
    ensures EntryOk(Apply(c, s, Recover(order)), i)
  {
    assert Apply(c, s, Recover(order)).log[i] == Entry(order[i - |s.log|], Barrier);
    assert order[i - |s.log|] in order;
  }

  lemma NewEntryOk(c: Config, s: State, step: Step, i: nat)
    requires Enabled(c, s, step) && |s.log| <= i < |Apply(c, s, step).log|
    ensures EntryOk(Apply(c, s, step), i)
  {
    hide FirstEvidence;
    hide Slots;
    if step.Guard? {
      DeliveryEntry(c, s, step.execution, step.stage, step.prior, step.launched, i);
    } else if step.Complete? {
      CompletionEntry(c, s, step.key, step.proof, i);
    } else if step.Recover? {
      BarrierEntry(c, s, step.order, i);
    } else {
      LogFrame(c, s, step);
    }
  }

  /** The coordinator starts and blocks only rows that are not in an issued phase. */
  lemma NotStarted(c: Config, s: State, step: Step, k: Key)
    requires Rows(s) && Memory(s) && Enabled(c, s, step) && k in s.ledger && RecordOf(s, k).at.In?
    ensures !((step.Block? || step.Intend?) && step.key == k)
  {
  }

  lemma PhaseStays(c: Config, s: State, step: Step)
    requires Enabled(c, s, step) && WritesOne(step) && !step.Complete? && !step.Block? && !step.Intend?
    requires Target(step) in s.ledger && RecordOf(s, Target(step)).at.In?
    ensures NewRecord(c, s, step).at == RecordOf(s, Target(step)).at
  {
    hide FirstEvidence;
  }

  lemma ExitLogged(c: Config, s: State, k: Key, p: Proof)
    requires Enabled(c, s, Complete(k, p)) && RecordOf(s, k).at.In?
    ensures Entry(k, Exit(RecordOf(s, k).at.phase)) in Appended(c, s, Complete(k, p))
  {
    assert Appended(c, s, Complete(k, p))[0] == Entry(k, Exit(RecordOf(s, k).at.phase));
  }

  /** Only an accepted exit proof ends an issued phase. */
  lemma PhaseEnds(c: Config, s: State, step: Step, k: Key)
    requires Rows(s) && Memory(s) && Enabled(c, s, step) && k in s.ledger && RecordOf(s, k).at.In?
    ensures k in Apply(c, s, step).ledger
    ensures RecordOf(Apply(c, s, step), k).at == RecordOf(s, k).at
            || (step.Complete? && step.key == k && Entry(k, Exit(RecordOf(s, k).at.phase)) in Appended(c, s, step))
  {
    hide Enabled;
    hide Apply;
    hide Appended;
    hide NewRecord;
    NotStarted(c, s, step, k);
    hide Rows;
    hide Memory;
    if !WritesOne(step) {
      SamePlace(c, s, step, k);
    } else {
      OneWritten(c, s, step);
      if step.Complete? && step.key == k {
        ExitLogged(c, s, k, step.proof);
      } else if Target(step) == k {
        PhaseStays(c, s, step);
      }
    }
  }

  lemma SamePlace(c: Config, s: State, step: Step, k: Key)
    requires Enabled(c, s, step) && !WritesOne(step) && k in s.ledger
    ensures k in Apply(c, s, step).ledger && RecordOf(Apply(c, s, step), k).at == RecordOf(s, k).at
  {
  }

  /** A phase is issued by an intent, which makes it the current one. */
  lemma PhaseBegins(c: Config, s: State, step: Step, k: Key, p: Phase)
    requires Enabled(c, s, step) && k in Apply(c, s, step).ledger && p in RecordOf(Apply(c, s, step), k).handles
    requires k in s.ledger ==> p !in RecordOf(s, k).handles
    ensures RecordOf(Apply(c, s, step), k).at == In(p)
  {
    hide FirstEvidence;
    hide Slots;
    if WritesOne(step) {
      OneWritten(c, s, step);
      hide Apply;
    }
  }

  lemma AccountedStep(c: Config, s: State, step: Step, k: Key, p: Phase)
    requires Rows(s) && Memory(s) && Logged(s) && Enabled(c, s, step)
    requires k in Apply(c, s, step).ledger && p in RecordOf(Apply(c, s, step), k).handles
    ensures Accounted(Apply(c, s, step), k, p)
  {
    hide Enabled;
    hide Apply;
    hide Appended;
    LogFrame(c, s, step);
    if k in s.ledger && p in RecordOf(s, k).handles {
      assert Accounted(s, k, p);
      if RecordOf(s, k).at == In(p) {
        PhaseEnds(c, s, step, k);
      }
    } else {
      PhaseBegins(c, s, step, k, p);
    }
  }

  lemma LoggedStep(c: Config, s: State, step: Step)
    requires Rows(s) && Memory(s) && Logged(s) && Enabled(c, s, step)
    ensures Logged(Apply(c, s, step))
  {
    hide Enabled;
    hide Apply;
    hide EntryOk;
    hide Accounted;
    var s2 := Apply(c, s, step);
    RowsStep(c, s, step);
    forall i: nat | i < |s2.log| ensures EntryOk(s2, i) {
      if i < |s.log| {
        EntryKept(s, s2, i);
      } else {
        NewEntryOk(c, s, step, i);
      }
    }
    forall k, p | k in s2.ledger && p in RecordOf(s2, k).handles ensures Accounted(s2, k, p) {
      AccountedStep(c, s, step, k, p);
    }
  }

  // ---- order of launches ------------------------------------------------------------------------

  predicate Before(a: Stage, b: Stage) {
    (a == Bootstrap && (b == Helper || b == Reader)) || (a == Helper && b == Reader)
  }

  predicate LaunchAt(log: seq<Entry>, i: nat, k: Key) {
    i < |log| && log[i].key == k && log[i].event.Launched?
  }

  /** Launches of one execution come in the order of its stages, so none is repeated and a
      delivery without stages stands alone. */
  ghost predicate InOrder(log: seq<Entry>) {
    forall i: nat, j: nat, k ::
      i < j && LaunchAt(log, i, k) && LaunchAt(log, j, k) && log[i].event.phase == log[j].event.phase ==>
        Before(log[i].event.stage, log[j].event.stage)
  }

  /** A launch is the last entry that its step appends. */
  lemma LaunchStep(c: Config, s: State, step: Step, j: nat, k: Key)
    requires Enabled(c, s, step) && |s.log| <= j && LaunchAt(s.log + Appended(c, s, step), j, k)
    ensures step.Guard? && step.execution.key == k && j == |s.log| + 1
    ensures (s.log + Appended(c, s, step))[j].event == Launched(step.execution.phase, step.stage)
  {
    assert (s.log + Appended(c, s, step))[j] == Appended(c, s, step)[j - |s.log|];
  }

  lemma InOrderStep(c: Config, s: State, step: Step)
    requires Logged(s) && InOrder(s.log) && Enabled(c, s, step)
    ensures InOrder(Apply(c, s, step).log)
  {
    LogFrame(c, s, step);
    var log := s.log + Appended(c, s, step);
    hide Apply;
    hide Appended;
    hide FirstEvidence;
    hide Slots;
    forall i: nat, j: nat, k | i < j && LaunchAt(log, i, k) && LaunchAt(log, j, k)
                               && log[i].event.phase == log[j].event.phase
      ensures Before(log[i].event.stage, log[j].event.stage)
    {
      if j < |s.log| {
        assert LaunchAt(s.log, i, k) && LaunchAt(s.log, j, k);
      } else {
        LaunchStep(c, s, step, j, k);
        if i >= |s.log| {
          LaunchStep(c, s, step, i, k);
        }
        assert EntryOk(s, i);
      }
    }
  }

  // ---- launches after a recovery ------------------------------------------------------------------

  predicate SealsAt(log: seq<Entry>, i: nat, k: Key) {
    LaunchAt(log, i, k) && log[i].event.phase == Evidence
  }

  /** Before `j` the work of `k` was frozen, then recovered for the last time, and its evidence
      had not been launched before that recovery. */
  ghost predicate FirstSealing(log: seq<Entry>, k: Key, j: nat)
    requires j <= |log|
  {
    exists f: nat, b: nat ::
      && f < b && LastBarrier(log[..j], k, b) && log[f].key == k && log[f].event.Freeze?
      && forall i: nat :: i < b ==> !SealsAt(log, i, k)
  }

  ghost predicate RecoveryRespected(log: seq<Entry>) {
    forall i: nat, j: nat, k :: i < j && LaunchAt(log, j, k) && log[i] == Entry(k, Barrier) ==>
      log[j].event.phase == Evidence && FirstSealing(log, k, j)
  }

  lemma FirstSealingKept(log: seq<Entry>, more: seq<Entry>, k: Key, j: nat)
    requires j <= |log| && FirstSealing(log, k, j)
    ensures FirstSealing(log + more, k, j)
  {
    var whole := log + more;
    assert whole[..j] == log[..j];
    var f: nat, b: nat :|
      && f < b && LastBarrier(log[..j], k, b) && log[f].key == k && log[f].event.Freeze?
      && forall i: nat :: i < b ==> !SealsAt(log, i, k);
    forall i: nat | i < b ensures !SealsAt(whole, i, k) {
      assert whole[i] == log[i] && !SealsAt(log, i, k);
    }
    assert whole[f] == log[f];
  }

  /** The check of `_first_recovered_evidence` against the event table is enough. */
  lemma FirstEvidenceSeals(s: State, k: Key, more: seq<Entry>)
    requires Logged(s) && k in s.ledger && FirstEvidence(s, k, true)
    requires |more| == 2 && more[0].event.Delivered?
    ensures FirstSealing(s.log + more, k, |s.log| + 1)
  {
    var r := RecordOf(s, k);
    var f: nat, b: nat :|
      LastFreeze(s.log, k, f) && LastBarrier(s.log, k, b) && FirstBetween(s.log, k, r.frozen.value, f, b, true);
    var log := s.log + more;
    assert log[..|s.log| + 1] == s.log + [more[0]];
    assert LastBarrier(log[..|s.log| + 1], k, b);
    forall i: nat | i < b ensures !SealsAt(log, i, k) {
      if SealsAt(log, i, k) {
        assert log[i] == s.log[i];
        assert EntryOk(s, i);
        assert MentionsEvidence(s.log[i - 1].event);
      }
    }
    assert log[f] == s.log[f];
  }

  lemma RecoveryStep(c: Config, s: State, step: Step)
    requires Logged(s) && RecoveryRespected(s.log) && Enabled(c, s, step)
    ensures RecoveryRespected(Apply(c, s, step).log)
  {
    LogFrame(c, s, step);
    var more := Appended(c, s, step);
    var log := s.log + more;
    hide Apply;
    hide FirstEvidence;
    hide FirstSealing;
    hide Slots;
    forall i: nat, j: nat, k | i < j && LaunchAt(log, j, k) && log[i] == Entry(k, Barrier)
      ensures log[j].event.phase == Evidence && FirstSealing(log, k, j)
    {
      if j < |s.log| {
        assert LaunchAt(s.log, j, k) && s.log[i] == Entry(k, Barrier);
        FirstSealingKept(s.log, more, k, j);
      } else {
        LaunchStep(c, s, step, j, k);
        assert EntryOk(s, i);
        FirstEvidenceSeals(s, k, more);
      }
    }
  }

  // ---- slots --------------------------------------------------------------------------------------

  ghost function Busy(s: State): set<Key> {
    set k | k in s.ledger && RecordOf(s, k).at.In?
  }

  lemma SlotsAreBusy(s: State)
    requires Rows(s) && Memory(s)
    ensures Slots(s) == Busy(s)
  {
  }

  lemma BecomesBusy(c: Config, s: State, step: Step, k: Key)
    requires Enabled(c, s, step) && k in Apply(c, s, step).ledger && RecordOf(Apply(c, s, step), k).at.In?
    ensures k in Busy(s) || (step.Intend? && step.key == k)
  {
    hide FirstEvidence;
    hide Slots;
    if WritesOne(step) {
      OneWritten(c, s, step);
      hide Apply;
    }
  }

  lemma SlotsStep(c: Config, s: State, step: Step)
    requires Rows(s) && Memory(s) && Enabled(c, s, step) && |Busy(s)| <= c.maxRunning
    ensures |Busy(Apply(c, s, step))| <= c.maxRunning
  {
    SlotsAreBusy(s);
    hide Rows;
    hide Memory;
    hide Apply;
    hide FirstEvidence;
    var s2 := Apply(c, s, step);
    forall k | k in Busy(s2) ensures k in Busy(s) || (step.Intend? && step.key == k) {
      BecomesBusy(c, s, step, k);
    }
    if step.Intend? {
      SubsetSize(Busy(s2), Busy(s) + {step.key});
    } else {
      SubsetSize(Busy(s2), Busy(s));
    }
  }

  // ---- every run -----------------------------------------------------------------------------------

  ghost predicate Inv(c: Config, s: State) {
    && Rows(s) && Memory(s) && Logged(s) && InOrder(s.log) && RecoveryRespected(s.log)
    && |Busy(s)| <= c.maxRunning
  }

  /** A ledger that was just created, and a process that has not started. */
  predicate Empty(s: State) {
    && s.ledger == map[] && s.log == [] && !s.ready
    && s.active == {} && s.recovering == {} && s.owners == {} && s.snapshot == map[]
  }

  lemma EmptyInv(c: Config, s: State)
    requires Empty(s)
    ensures Inv(c, s)
  {
    assert Busy(s) == {};
  }

  lemma InvStep(c: Config, s: State, step: Step)
    requires Inv(c, s) && Enabled(c, s, step)
    ensures Inv(c, Apply(c, s, step)) && Onward(s, Apply(c, s, step))
  {
    hide Enabled;
    hide Apply;
    hide Rows;
    hide Memory;
    hide Logged;
    hide InOrder;
    hide RecoveryRespected;
    hide Busy;
    hide Onward;
    RowsStep(c, s, step);
    MemoryStep(c, s, step);
    LoggedStep(c, s, step);
    InOrderStep(c, s, step);
    RecoveryStep(c, s, step);
    SlotsStep(c, s, step);
  }

  lemma OnwardTransitive(s: State, s2: State, s3: State)
    requires Onward(s, s2) && Onward(s2, s3)
    ensures Onward(s, s3)
  {
    forall k | k in s.ledger ensures Follows(RecordOf(s, k), RecordOf(s3, k)) {
      FollowsTransitive(RecordOf(s, k), RecordOf(s2, k), RecordOf(s3, k));
    }
  }

  lemma FollowsTransitive(r: Record, r2: Record, r3: Record)
    requires Follows(r, r2) && Follows(r2, r3)
    ensures Follows(r, r3)
  {
  }

  lemma {:induction false} InvRun(c: Config, s: State, steps: seq<Step>)
    requires Inv(c, s) && Runs(c, s, steps)
    ensures Inv(c, After(c, s, steps)) && Onward(s, After(c, s, steps))
    decreases |steps|
  {
    hide Inv;
    hide Onward;
    hide Enabled;
    hide Apply;
    if steps == [] {
      OnwardReflexive(s);
    } else {
      InvStep(c, s, steps[0]);
      InvRun(c, Apply(c, s, steps[0]), steps[1..]);
      OnwardTransitive(s, Apply(c, s, steps[0]), After(c, s, steps));
    }
  }

  lemma OnwardReflexive(s: State)
    ensures Onward(s, s)
  {
    AllFollow(s);
  }

  /** In every run each stage of each execution is launched at most once, preparation before
      helper before result reader; a helper only after its preparation was delivered. */
  lemma LaunchedOnceInOrder(c: Config, s: State, steps: seq<Step>)
    requires Empty(s) && Runs(c, s, steps)
    ensures InOrder(After(c, s, steps).log)
    ensures forall j: nat, k, p, stage ::
              j < |After(c, s, steps).log| && After(c, s, steps).log[j] == Entry(k, Launched(p, stage))
              && (stage == Helper || stage == Reader) ==>
                j > 0 && After(c, s, steps).log[j - 1].event.Delivered?
                && Delivery(p, Bootstrap) in After(c, s, steps).log[j - 1].event.delivered
  {
    EmptyInv(c, s);
    InvRun(c, s, steps);
    var log := After(c, s, steps).log;
    forall j: nat, k, p, stage | j < |log| && log[j] == Entry(k, Launched(p, stage)) && (stage == Helper || stage == Reader)
      ensures j > 0 && log[j - 1].event.Delivered? && Delivery(p, Bootstrap) in log[j - 1].event.delivered
    {
      assert EntryOk(After(c, s, steps), j);
    }
  }

  /** A cancellation of the operation, a revocation of its principal, or any revocation since
      its admission has been committed. */
  ghost predicate Closed(s: State, k: Key) {
    && k in s.ledger
    && (|| RecordOf(s, k).cancelRequested || s.ledger[k].principal in s.revoked
        || RecordOf(s, k).generation < s.generation)
  }

  /** Revoking anyone closes every operation admitted so far. */
  lemma RevocationClosesAll(c: Config, s: State, p: Principal, k: Key)
    requires Inv(c, s) && k in s.ledger
    ensures Enabled(c, s, Revoke(p)) && Closed(Apply(c, s, Revoke(p)), k)
  {
  }

  lemma CancellationCloses(c: Config, s: State, k: Key)
    requires Enabled(c, s, Cancel(k))
    ensures Closed(Apply(c, s, Cancel(k)), k)
  {
  }

  lemma NoLaunchStep(c: Config, s: State, step: Step, k: Key, j: nat)
    requires Enabled(c, s, step) && Closed(s, k) && |s.log| <= j
    ensures !LaunchAt(Apply(c, s, step).log, j, k)
  {
    LogFrame(c, s, step);
    hide Apply;
    hide FirstEvidence;
    hide Slots;
    if LaunchAt(Apply(c, s, step).log, j, k) {
      LaunchStep(c, s, step, j, k);
    }
  }

  /** Nothing of the operation is launched from then on. */
  lemma {:induction false} NoLaunchOnceClosed(c: Config, s: State, steps: seq<Step>, k: Key, j: nat)
    requires Inv(c, s) && Runs(c, s, steps) && Closed(s, k) && |s.log| <= j
    ensures !LaunchAt(After(c, s, steps).log, j, k)
    decreases |steps|
  {
    hide Inv;
    hide Enabled;
    hide Apply;
    hide Follows;
    if steps != [] {
      var s2 := Apply(c, s, steps[0]);
      InvStep(c, s, steps[0]);
      StaysClosed(s, s2, k);
      if j < |s2.log| {
        NoLaunchStep(c, s, steps[0], k, j);
        InvRun(c, s2, steps[1..]);
        assert After(c, s, steps).log[j] == s2.log[j];
      } else {
        NoLaunchOnceClosed(c, s2, steps[1..], k, j);
      }
    }
  }

  lemma StaysClosed(s: State, s2: State, k: Key)
    requires Onward(s, s2) && Closed(s, k)
    ensures Closed(s2, k)
  {
    assert Follows(RecordOf(s, k), RecordOf(s2, k));
  }

  lemma ClosingAppendsNothing(c: Config, s: State, step: Step)
    requires Enabled(c, s, step) && (step.Cancel? || step.Revoke?)
    ensures Apply(c, s, step).log == s.log
  {
    LogFrame(c, s, step);
  }

  /** A committed cancellation: whatever happens from then on, nothing of the operation is
      launched. */
  lemma NoLaunchAfterCancel(c: Config, s: State, k: Key, steps: seq<Step>, j: nat)
    requires Inv(c, s) && Enabled(c, s, Cancel(k)) && Runs(c, Apply(c, s, Cancel(k)), steps) && |s.log| <= j
    ensures !LaunchAt(After(c, Apply(c, s, Cancel(k)), steps).log, j, k)
  {
    hide Inv;
    CancellationCloses(c, s, k);
    ClosingAppendsNothing(c, s, Cancel(k));
    InvStep(c, s, Cancel(k));
    NoLaunchOnceClosed(c, Apply(c, s, Cancel(k)), steps, k, j);
  }

  /** A committed revocation of anyone: nothing of any operation admitted before is launched. */
  lemma NoLaunchAfterRevoke(c: Config, s: State, p: Principal, k: Key, steps: seq<Step>, j: nat)
    requires Inv(c, s) && Enabled(c, s, Revoke(p)) && Runs(c, Apply(c, s, Revoke(p)), steps) && |s.log| <= j
    requires k in s.ledger
    ensures !LaunchAt(After(c, Apply(c, s, Revoke(p)), steps).log, j, k)
  {
    hide Inv;
    RevocationClosesAll(c, s, p, k);
    ClosingAppendsNothing(c, s, Revoke(p));
    InvStep(c, s, Revoke(p));
    NoLaunchOnceClosed(c, Apply(c, s, Revoke(p)), steps, k, j);
  }

  /** Whatever is launched for an operation after a recovery is its evidence helper, for work
      frozen before the last recovery and never launched before it. */
  lemma OnlyFirstEvidenceAfterRecovery(c: Config, s: State, steps: seq<Step>)
    requires Empty(s) && Runs(c, s, steps)
    ensures RecoveryRespected(After(c, s, steps).log)
  {
    EmptyInv(c, s);
    InvRun(c, s, steps);
  }

  /** Nothing is appended before the process has recovered, and recovery appends the barriers. */
  lemma BeforeRecovery(c: Config, s: State, step: Step, k: Key)
    requires Memory(s) && !s.ready && Enabled(c, s, step) && k in s.ledger && NeedsBarrier(RecordOf(s, k))
    ensures var s2 := Apply(c, s, step);
            if step.Recover?
            then Entry(k, Barrier) in Appended(c, s, step) && forall e :: e in Appended(c, s, step) ==> e.event == Barrier
            else Appended(c, s, step) == [] && !s2.ready && k in s2.ledger && NeedsBarrier(RecordOf(s2, k))
  {
    if step.Recover? {
      var i :| 0 <= i < |step.order| && step.order[i] == k;
      assert Appended(c, s, step)[i] == Entry(k, Barrier);
    }
  }

  lemma InvMemory(c: Config, s: State)
    requires Inv(c, s)
    ensures Memory(s)
  {
  }

  lemma LaunchComesAfter(s: State, s2: State, s3: State, more: seq<Entry>, k: Key, j: nat)
    requires s2.log == s.log + more && Onward(s2, s3) && |s.log| <= j && LaunchAt(s3.log, j, k)
    requires Entry(k, Barrier) in more && forall e :: e in more ==> e.event == Barrier
    ensures exists i: nat :: |s.log| <= i < j && s3.log[i] == Entry(k, Barrier)
  {
    var x :| 0 <= x < |more| && more[x] == Entry(k, Barrier);
    assert s3.log[|s.log| + x] == s2.log[|s.log| + x] == more[x];
    forall i | |s.log| <= i < |s2.log| ensures s3.log[i].event == Barrier {
      assert s3.log[i] == s2.log[i] == more[i - |s.log|];
    }
  }

  /** A process that finds an operation under way launches nothing for it before it has put
      up the barrier, so every restart is a recovery in the sense above. */
  lemma {:induction false} RestartPutsUpBarrier(c: Config, s: State, steps: seq<Step>, k: Key, j: nat)
    requires Inv(c, s) && !s.ready && k in s.ledger && NeedsBarrier(RecordOf(s, k)) && Runs(c, s, steps)
    requires |s.log| <= j && LaunchAt(After(c, s, steps).log, j, k)
    ensures exists i: nat :: |s.log| <= i < j && After(c, s, steps).log[i] == Entry(k, Barrier)
    decreases |steps|
  {
    hide Enabled;
    hide Apply;
    hide Appended;
    hide Inv;
    hide Onward;
    if steps != [] {
      InvMemory(c, s);
      var s2, more := Apply(c, s, steps[0]), Appended(c, s, steps[0]);
      BeforeRecovery(c, s, steps[0], k);
      LogFrame(c, s, steps[0]);
      InvStep(c, s, steps[0]);
      InvRun(c, s2, steps[1..]);
      if steps[0].Recover? {
        LaunchComesAfter(s, s2, After(c, s2, steps[1..]), more, k, j);
      } else {
        RestartPutsUpBarrier(c, s2, steps[1..], k, j);
      }
    }
  }

  /** A frozen business outcome is the outcome ever after; a terminal record never changes. */
  lemma OutcomesAreFinal(c: Config, s: State, steps: seq<Step>, k: Key)
    requires Inv(c, s) && Runs(c, s, steps) && k in s.ledger
    ensures k in After(c, s, steps).ledger
    ensures var r, r2 := RecordOf(s, k), RecordOf(After(c, s, steps), k);
            && (r.frozen.Some? ==> r2.frozen == r.frozen && r2.outcome == r.frozen.value.outcome)
            && (r.lifecycle == Terminal ==> r2 == r)
  {
    InvRun(c, s, steps);
    hide Follows;
    assert RecordOk(RecordOf(s, k));
    FollowsMeans(RecordOf(s, k), RecordOf(After(c, s, steps), k));
  }

  lemma FollowsMeans(r: Record, r2: Record)
    requires Follows(r, r2)
    ensures r.frozen.Some? ==> r2.frozen == r.frozen && r2.outcome == r.outcome
    ensures r.lifecycle == Terminal ==> r2 == r
  {
  }

  /** In every reachable state a terminal operation has a definite outcome; a job's business
      phase was issued after a preflight that found stable inputs and has exited; evidence is
      issued only for frozen work; and evidence counts as sealed only on the proof of a complete
      publication. */
  lemma PhasesInOrder(c: Config, s: State, steps: seq<Step>, k: Key)
    requires Empty(s) && Runs(c, s, steps) && k in After(c, s, steps).ledger
    ensures var s2 := After(c, s, steps);
            var r := RecordOf(s2, k);
            && (r.lifecycle == Terminal ==> Definite(r.outcome))
            && (Business in r.handles ==> r.stableInputs && Preflight in r.handles && Entry(k, Exit(Preflight)) in s2.log)
            && (Evidence in r.handles ==> r.frozen.Some? && r.outcome == r.frozen.value.outcome)
            && (r.evidence == Sealed ==> Evidence in r.handles && r.proof.Some? && SealConfirmed(r.proof.value))
  {
    EmptyInv(c, s);
    InvRun(c, s, steps);
    var s2 := After(c, s, steps);
    ReachedPhases(c, s2, k);
  }

  lemma ReachedPhases(c: Config, s: State, k: Key)
    requires Inv(c, s) && k in s.ledger
    ensures var r := RecordOf(s, k);
            && (r.lifecycle == Terminal ==> Definite(r.outcome))
            && (Business in r.handles ==> r.stableInputs && Preflight in r.handles && Entry(k, Exit(Preflight)) in s.log)
            && (Evidence in r.handles ==> r.frozen.Some? && r.outcome == r.frozen.value.outcome)
            && (r.evidence == Sealed ==> Evidence in r.handles && r.proof.Some? && SealConfirmed(r.proof.value))
  {
    var r := RecordOf(s, k);
    assert RecordOk(r) && PhasesOk(k, r);
    if Business in r.handles {
      assert Accounted(s, k, Preflight);
    }
  }

  /** Operations with a launched phase whose exit nobody has proved. */
  ghost function Unproven(s: State): set<Key> {
    set k | k in s.ledger
            && exists i: nat :: LaunchAt(s.log, i, k) && Entry(k, Exit(s.log[i].event.phase)) !in s.log
  }

  lemma UnprovenAreBusy(s: State)
    requires Rows(s) && Logged(s)
    ensures Unproven(s) <= Busy(s)
  {
    forall k | k in Unproven(s) ensures k in Busy(s) {
      var i: nat :| LaunchAt(s.log, i, k) && Entry(k, Exit(s.log[i].event.phase)) !in s.log;
      assert EntryOk(s, i);
      assert Accounted(s, k, s.log[i].event.phase);
    }
  }

  /** In every reachable state, restarts included, at most `maxRunning` operations have an
      issued phase without proof that it cannot start and has exited; every launched phase
      without accepted exit is among them. */
  lemma SlotsAreBounded(c: Config, s: State, steps: seq<Step>)
    requires Empty(s) && Runs(c, s, steps)
    ensures |Slots(After(c, s, steps))| <= c.maxRunning
    ensures |Unproven(After(c, s, steps))| <= c.maxRunning
  {
    EmptyInv(c, s);
    InvRun(c, s, steps);
    var s2 := After(c, s, steps);
    SlotsAreBusy(s2);
    UnprovenAreBusy(s2);
    SubsetSize(Unproven(s2), Busy(s2));
  }
}
