/** The broker as the code runs it: client calls, delivery guard, start-up recovery and the
    coordinator's pass, each proved to be steps of the machine. */
module BrokerService {
  import opened Octets
  import opened Collections
  import opened Broker
  import opened BrokerSafety
  import opened BrokerLaunches

  lemma OneLast(log: seq<Entry>, k: Key, f: nat, b: nat)
    requires LastFreeze(log, k, f) && LastBarrier(log, k, b)
    ensures forall f2: nat :: LastFreeze(log, k, f2) ==> f2 == f
    ensures forall b2: nat :: LastBarrier(log, k, b2) ==> b2 == b
  {
  }

  /** The two queries for the latest events of an operation. */
  method LatestEvents(log: seq<Entry>, k: Key) returns (freeze: Option<nat>, barrier: Option<nat>)
    ensures freeze.Some? ==> LastFreeze(log, k, freeze.value)
    ensures freeze == None ==> forall i: nat :: !LastFreeze(log, k, i)
    ensures barrier.Some? ==> LastBarrier(log, k, barrier.value)
    ensures barrier == None ==> forall i: nat :: !LastBarrier(log, k, i)
  {
    freeze, barrier := None, None;
    for i := 0 to |log|
      invariant match freeze
                case Some(f) => LastFreeze(log[..i], k, f)
                case None => forall j :: 0 <= j < i ==> !(log[j].key == k && log[j].event.Freeze?)
      invariant match barrier
                case Some(b) => LastBarrier(log[..i], k, b)
                case None => forall j :: 0 <= j < i ==> log[j] != Entry(k, Barrier)
    {
      if log[i].key == k && log[i].event.Freeze? {
        freeze := Some(i);
      }
      if log[i] == Entry(k, Barrier) {
        barrier := Some(i);
      }
    }
    assert log[..|log|] == log;
  }

  /** Reads the history of an operation for any earlier or misplaced evidence. */
  method HistoryAllows(log: seq<Entry>, k: Key, barrier: nat, committed: bool) returns (ok: bool)
    requires barrier <= |log|
    ensures ok <==>
              && (forall i :: 0 <= i < barrier && log[i].key == k ==> !MentionsEvidence(log[i].event))
              && (forall i :: 0 <= i < |log| && log[i].key == k && IssuesEvidence(log[i].event) ==> committed && barrier < i)
  {
    for i := 0 to |log|
      invariant forall j :: 0 <= j < i && j < barrier && log[j].key == k ==> !MentionsEvidence(log[j].event)
      invariant forall j :: 0 <= j < i && log[j].key == k && IssuesEvidence(log[j].event) ==> committed && barrier < j
    {
      if log[i].key == k {
        if IssuesEvidence(log[i].event) && !(committed && barrier < i) {
          return false;
        }
        if i < barrier && MentionsEvidence(log[i].event) {
          return false;
        }
      }
    }
    ok := true;
  }

  lemma RevokeStep(c: Config, s: State, p: Principal)
    requires Inv(c, s)
    ensures Enabled(c, s, Step.Revoke(p))
    ensures Apply(c, s, Step.Revoke(p)) ==
              s.(ledger := RevokedLedger(s, p), revoked := s.revoked + {p}, generation := s.generation + 1)
    ensures forall k :: k in s.ledger ==> Closed(Apply(c, s, Step.Revoke(p)), k)
  {
    hide Inv;
    hide Closed;
    forall k | k in s.ledger ensures Closed(Apply(c, s, Step.Revoke(p)), k) {
      RevocationClosesAll(c, s, p, k);
    }
  }

  function Barriers(order: seq<Key>): seq<Entry> {
    seq(|order|, i requires 0 <= i < |order| => Entry(order[i], Barrier))
  }

  lemma RecoverStep(c: Config, s: State, order: seq<Key>)
    requires Inv(c, s) && !s.ready
    requires forall k :: k in order <==> k in s.ledger && NeedsBarrier(RecordOf(s, k))
    ensures Enabled(c, s, Step.Recover(order))
    ensures Apply(c, s, Step.Recover(order)) ==
              s.(ready := true, ledger := RecoveredLedger(s.ledger), recovering := Reconnected(s.ledger),
                 log := s.log + Barriers(order))
    ensures s.active == {} && s.owners == {} && s.snapshot == map[]
  {
    InvMemory(c, s);
  }

  lemma BarriersCover(order: seq<Key>)
    ensures forall k :: k in order ==> Entry(k, Barrier) in Barriers(order)
  {
    forall k | k in order ensures Entry(k, Barrier) in Barriers(order) {
      var i :| 0 <= i < |order| && order[i] == k;
      assert Barriers(order)[i] == Entry(k, Barrier);
    }
  }

  lemma InvRows(c: Config, s: State, k: Key)
    requires Inv(c, s) && k in s.ledger
    ensures RecordOk(RecordOf(s, k))
  {
  }

  /** `s` with one record rewritten, `entries` appended and the row dealt with. */
  function Rewritten(s: State, k: Key, r: Record, entries: seq<Entry>): State
    requires k in s.ledger
  {
    s.(ledger := s.ledger[k := s.ledger[k].(record := r)], log := s.log + entries, snapshot := s.snapshot - {k})
  }

  lemma DoubtApplied(c: Config, s: State, k: Key)
    requires s.ready && k in s.ledger && RecordOf(s, k).lifecycle != Terminal
    ensures Enabled(c, s, Uncertain(k)) && Apply(c, s, Uncertain(k)) == Rewritten(s, k, Doubt(RecordOf(s, k)), [])
  {
    assert Entries(k, []) == [];
  }

  lemma ExhaustApplied(c: Config, s: State, k: Key)
    requires s.ready && k in s.ledger && k !in s.active && RecordOf(s, k).lifecycle != Terminal
    requires ExhaustedFacts(RecordOf(s, k)).Some?
    ensures Enabled(c, s, Exhaust(k)) && Apply(c, s, Exhaust(k)) == Rewritten(s, k, ExhaustedRecord(RecordOf(s, k)), [])
    ensures Ended(ExhaustedRecord(RecordOf(s, k)).at)
  {
    assert Entries(k, []) == [];
  }

  lemma BlockApplied(c: Config, s: State, k: Key)
    requires k in s.ledger && k in s.snapshot && k !in s.active && k !in s.recovering
    requires Startable(s.snapshot[k]) && s.snapshot[k].cancelRequested
    ensures Enabled(c, s, Block(k))
    ensures Apply(c, s, Block(k)) == Rewritten(s, k, BlockedRecord(RecordOf(s, k), s.snapshot[k]), [])
  {
    assert Entries(k, []) == [];
  }

  lemma IntendApplied(c: Config, s: State, k: Key, p: Phase, staged: bool)
    requires Enabled(c, s, Intend(k, p, staged))
    ensures var r := IntendedRecord(RecordOf(s, k), p, staged);
            Apply(c, s, Intend(k, p, staged)) ==
              Rewritten(s, k, r, [Entry(k, Intent(p, r.handles))]).(owners := s.owners + {Execution(k, p)})
  {
    var r := IntendedRecord(RecordOf(s, k), p, staged);
    assert Entries(k, [Intent(p, r.handles)]) == [Entry(k, Intent(p, r.handles))];
  }

  lemma IntendEnabled(c: Config, s: State, k: Key, p: Phase, staged: bool)
    requires k in s.ledger && k in s.snapshot && k !in s.active && k !in s.recovering
    requires Startable(s.snapshot[k]) && !s.snapshot[k].cancelRequested && p == NextPhase(k, s.snapshot[k])
    requires s.snapshot[k].outcome == Unknown ==> s.snapshot[k].at == AwaitingSeal
    requires !RecordOf(s, k).cancelRequested && |Slots(s)| < c.maxRunning && Authorized(s, k)
    requires (p == Reconcile ==> ParentQuiet(s, k)) && (p == Business ==> RecordOf(s, k).stableInputs)
    requires RecordOf(s, k).recovered ==> p == Evidence && FirstEvidence(s, k, false)
    requires p !in RecordOf(s, k).handles
    ensures Enabled(c, s, Intend(k, p, staged))
  {
  }

  lemma TerminalIsEnded(c: Config, s: State, k: Key)
    requires Inv(c, s) && k in s.ledger
    ensures RecordOf(s, k).lifecycle == Terminal ==> Ended(RecordOf(s, k).at)
  {
    assert RecordOk(RecordOf(s, k));
  }

  lemma OnwardKeepsKey(s: State, s2: State, k: Key)
    requires Onward(s, s2)
    ensures k in s.ledger ==> k in s2.ledger
  {
  }

  lemma EndedStay(s: State, s2: State)
    requires Onward(s, s2)
    ensures forall k :: k in s.ledger && Ended(RecordOf(s, k).at) ==> k in s2.ledger && Ended(RecordOf(s2, k).at)
  {
    forall k | k in s.ledger ensures k in s2.ledger && (Ended(RecordOf(s, k).at) ==> Ended(RecordOf(s2, k).at)) {
      assert Follows(RecordOf(s, k), RecordOf(s2, k));
    }
  }

  /** Cancelled, and waiting to be started. */
  predicate Doomed(r: Record) {
    Startable(r) && r.cancelRequested
  }

  /** If the coordinator saw `k` doomed and nothing of it was under way in `s`, it has ended. */
  ghost predicate EndsBy(s: State, s2: State, k: Key) {
    k in s.snapshot && k !in s.active && k !in s.recovering && Doomed(s.snapshot[k]) ==>
      k in s2.ledger && Ended(RecordOf(s2, k).at)
  }

  /** The coordinator has not come to `k` yet. */
  ghost predicate Untouched(s: State, s2: State, k: Key) {
    && k in s.snapshot && k in s2.snapshot && s2.snapshot[k] == s.snapshot[k]
    && (k in s.active <==> k in s2.active) && (k in s.recovering <==> k in s2.recovering)
  }

  lemma EndsMeans(s: State, s2: State, k: Key)
    requires EndsBy(s, s2, k) && k in s.snapshot && k !in s.active && k !in s.recovering && Doomed(s.snapshot[k])
    ensures k in s2.ledger && Ended(RecordOf(s2, k).at)
  {
  }

  lemma UntouchedTransitive(s: State, s2: State, s3: State, k: Key)
    requires Untouched(s, s2, k) && Untouched(s2, s3, k)
    ensures Untouched(s, s3, k)
  {
  }

  lemma EndsThen(s: State, s2: State, s3: State, k: Key)
    requires (Untouched(s, s2, k) && EndsBy(s2, s3, k)) || (EndsBy(s, s2, k) && Onward(s2, s3))
    ensures EndsBy(s, s3, k)
  {
    if EndsBy(s, s2, k) && Onward(s2, s3) {
      EndedStay(s2, s3);
    }
  }

  lemma EnqueueApplied(c: Config, s: State, k: Key)
    requires k in s.ledger && k in s.active
    ensures Enabled(c, s, Enqueue(k))
    ensures Apply(c, s, Enqueue(k)) == s.(log := s.log + [Entry(k, Event.Enqueued(RecordOf(s, k).handles))])
  {
    assert Entries(k, [Event.Enqueued(RecordOf(s, k).handles)]) == [Entry(k, Event.Enqueued(RecordOf(s, k).handles))];
    assert s.ledger[k := s.ledger[k].(record := RecordOf(s, k))] == s.ledger;
  }

  lemma CompleteApplied(c: Config, s: State, k: Key, p: Proof)
    requires Inv(c, s) && k in s.ledger && k in s.active && Completable(RecordOf(s, k), p)
    ensures Enabled(c, s, Step.Complete(k, p))
    ensures var r := RecordOf(s, k);
            && Apply(c, s, Step.Complete(k, p)) ==
                 Rewritten(s, k, Finished(c, k, r, p, |s.log| + 1), Entries(k, CompletionEvents(c, k, r, p, |s.log| + 1)))
                   .(active := s.active - {k})
            && !Finished(c, k, r, p, |s.log| + 1).at.In?
  {
    InvRows(c, s, k);
    InvMemory(c, s);
    hide Inv;
    FinishOk(c, k, RecordOf(s, k), p, |s.log| + 1);
    hide RecordOk;
    hide Follows;
    hide Finished;
    hide CompletionEvents;
    hide Entries;
  }

  /** The state after a delivery intent for `e` is committed. */
  function Issued(s: State, e: Execution, stage: Stage, launched: bool): State
    requires e.key in s.ledger
  {
    var r := RecordOf(s, e.key);
    var list := r.delivered + [Delivery(e.phase, stage)];
    s.(ledger := s.ledger[e.key := s.ledger[e.key].(record := r.(delivered := list))],
       log := s.log + [Entry(e.key, Event.Delivered(list))]
              + (if launched then [Entry(e.key, Launched(e.phase, stage))] else []))
  }

  lemma GuardApplied(c: Config, s: State, e: Execution, stage: Stage, prior: Proof, launched: bool)
    requires Enabled(c, s, Step.Guard(e, stage, prior, launched))
    ensures Apply(c, s, Step.Guard(e, stage, prior, launched)) == Issued(s, e, stage, launched)
  {
    LogFrame(c, s, Step.Guard(e, stage, prior, launched));
  }

  /** The loop of recovery over the rows: what to write, and where to log a barrier. */
  method BarRows(ledger: map<Key, Row>) returns (written: map<Key, Row>, order: seq<Key>)
    ensures written == RecoveredLedger(ledger)
    ensures forall k :: k in order <==> k in ledger && NeedsBarrier(ledger[k].record)
  {
    var rows := Listing(ledger.Keys);
    written, order := map[], [];
    for i := 0 to |rows|
      invariant forall k :: k in written <==> k in rows[..i]
      invariant forall k :: k in written ==> k in ledger && written[k] == ledger[k].(record := Barred(ledger[k].record))
      invariant forall k :: k in order <==> k in rows[..i] && NeedsBarrier(ledger[k].record)
    {
      var k := rows[i];
      if NeedsBarrier(ledger[k].record) {
        order := order + [k];
      }
      written := written[k := ledger[k].(record := Barred(ledger[k].record))];
    }
  }

  /** What became of an attempt to start: the runner took it, the row stays as it is, or
      something was raised. */
  datatype Attempt = Begun | Waits | Raised

  /** The row may not be started now, and there is nothing wrong with that. */
  ghost predicate Held(c: Config, s: State, k: Key, p: Phase)
    requires k in s.ledger
  {
    || RecordOf(s, k).cancelRequested || |Slots(s)| >= c.maxRunning
    || (p == Reconcile && Job(s.ledger[k].parent) in s.ledger
        && (RecordOf(s, Job(s.ledger[k].parent)).lifecycle == Accepted
            || RecordOf(s, Job(s.ledger[k].parent)).lifecycle == Running))
  }

  class Service {
    const config: Config
    var ledger: map<Key, Row>
    var revoked: set<Principal>
    var generation: nat
    var log: seq<Entry>
    var ready: bool
    var active: set<Key>
    var recovering: set<Key>
    var owners: set<Execution>
    var snapshot: map<Key, Record>
    ghost const origin: State
    ghost var trace: seq<Step>

    ghost function Now(): State
      reads this
    {
      State(ledger, revoked, generation, log, ready, active, recovering, owners, snapshot)
    }

    ghost predicate Valid()
      reads this
    {
      && Empty(origin) && Runs(config, origin, trace) && Now() == After(config, origin, trace)
      && Inv(config, Now())
    }

    constructor (c: Config)
      ensures Valid() && config == c && ledger == map[] && trace == [] && !ready
    {
      config := c;
      ledger, revoked, generation, log := map[], {}, 0, [];
      ready, active, recovering, owners, snapshot := false, {}, {}, {}, map[];
      origin := State(map[], {}, 0, [], false, {}, {}, {}, map[]);
      trace := [];
      new;
      EmptyInv(config, origin);
    }

    /** Books the step that the fields have just taken. */
    ghost method Advance(before: State, step: Step)
      requires Empty(origin) && Runs(config, origin, trace) && before == After(config, origin, trace)
      requires Inv(config, before) && Enabled(config, before, step) && Now() == Apply(config, before, step)
      modifies this`trace
      ensures Valid() && trace == old(trace) + [step] && Onward(before, Now())
    {
      hide Inv;
      hide Enabled;
      hide Apply;
      hide Onward;
      InvStep(config, before, step);
      RunsOn(config, origin, trace, step);
      trace := trace + [step];
    }

    // ---- client calls ---------------------------------------------------------------------------

    /** A cancellation that finds the operation unfinished closes it for good; a finished one is
        left alone. */
    method Cancel(k: Key)
      requires Valid()
      modifies this`ledger, this`trace
      ensures Valid() && Onward(old(Now()), Now())
      ensures trace == old(trace) || trace == old(trace) + [Step.Cancel(k)]
      ensures k in old(ledger) && RecordOf(old(Now()), k).lifecycle != Terminal ==> Closed(Now(), k)
      ensures k in old(ledger) && RecordOf(old(Now()), k).lifecycle == Terminal ==> Now() == old(Now())
    {
      hide Inv;
      hide Onward;
      OnwardReflexive(Now());
      if k in ledger && ledger[k].record.lifecycle != Terminal && !ledger[k].record.cancelRequested {
        ghost var before := Now();
        ledger := ledger[k := ledger[k].(record := CancelledRecord(ledger[k].record))];
        assert log == before.log + Entries(k, []);
        Advance(before, Step.Cancel(k));
      }
    }

    method Revoke(p: Principal)
      requires Valid()
      modifies this`ledger, this`revoked, this`generation, this`trace
      ensures Valid() && Onward(old(Now()), Now()) && trace == old(trace) + [Step.Revoke(p)]
      ensures forall k :: k in old(ledger) ==> Closed(Now(), k)
    {
      hide Inv;
      hide Onward;
      hide Closed;
      hide Enabled;
      hide Apply;
      ghost var before := Now();
      RevokeStep(config, before, p);
      ledger := map k | k in ledger ::
        if ledger[k].principal == p && ledger[k].record.lifecycle != Terminal
        then ledger[k].(record := ledger[k].record.(cancelRequested := true)) else ledger[k];
      revoked := revoked + {p};
      generation := generation + 1;
      assert ledger == RevokedLedger(before, p);
      Advance(before, Step.Revoke(p));
    }

    /** Admission: an id that is already bound changes nothing. */
    method Submit(id: string, p: Principal)
      requires Valid()
      modifies this`ledger, this`trace
      ensures Valid() && Onward(old(Now()), Now())
      ensures Job(id) in old(ledger) || p in old(revoked) ==> Now() == old(Now())
      ensures Job(id) !in old(ledger) && p !in old(revoked) ==> trace == old(trace) + [Step.Submit(Job(id), p)]
    {
      hide Inv;
      hide Onward;
      OnwardReflexive(Now());
      if Job(id) !in ledger && p !in revoked {
        ghost var before := Now();
        ledger := ledger[Job(id) := Row(id, p, Fresh(generation))];
        Advance(before, Step.Submit(Job(id), p));
      }
    }

    /** A new observation round, once the business work is quiet and no round is open. */
    method OpenRound(id: string, parent: string)
      requires Valid()
      modifies this`ledger, this`trace
      ensures Valid() && Onward(old(Now()), Now())
      ensures Round(id) in old(ledger) ==> Now() == old(Now())
      ensures trace == old(trace) || trace == old(trace) + [Step.OpenRound(Round(id), parent)]
    {
      hide Inv;
      hide Onward;
      OnwardReflexive(Now());
      ghost var before := Now();
      if Round(id) in ledger || Job(parent) !in ledger || ledger[Job(parent)].principal in revoked
         || ledger[Job(parent)].record.lifecycle == Accepted || ledger[Job(parent)].record.lifecycle == Running {
        return;
      }
      var rows := Listing(ledger.Keys);
      for i := 0 to |rows|
        invariant Now() == before && trace == old(trace)
        invariant forall j :: 0 <= j < i && rows[j].Round? && ledger[rows[j]].parent == parent ==>
                    ledger[rows[j]].record.lifecycle == Terminal
      {
        if rows[i].Round? && ledger[rows[i]].parent == parent && ledger[rows[i]].record.lifecycle != Terminal {
          return;
        }
      }
      assert forall o :: o in ledger ==> o in rows;
      ledger := ledger[Round(id) := Row(parent, ledger[Job(parent)].principal, Fresh(generation))];
      Advance(before, Step.OpenRound(Round(id), parent));
    }

    // ---- recovery ---------------------------------------------------------------------------------

    /** `_first_recovered_evidence`, decided by reading the event table. */
    method FirstRecovered(k: Key, committed: bool) returns (ok: bool)
      requires k in ledger
      ensures ok <==> FirstEvidence(Now(), k, committed)
    {
      var r := ledger[k].record;
      if !(r.recovered && r.at == (if committed then In(Evidence) else AwaitingSeal)) {
        return false;
      }
      if r.handles.Keys != (if k.Job? then {Preflight, Business} else {Reconcile}) + (if committed then {Evidence} else {}) {
        return false;
      }
      if !(r.frozen.Some? && r.frozen.value.outcome == r.outcome && r.outcome != Unknown && r.outcome != Pending
           && Settled(r.frozen.value.proof)) {
        return false;
      }
      var freeze, barrier := LatestEvents(log, k);
      if freeze == None || barrier == None {
        return false;
      }
      var f, b := freeze.value, barrier.value;
      OneLast(log, k, f, b);
      if !(0 < r.frozen.value.observed < f + 1 && f < b && log[f].event == Freeze(r.frozen.value)) {
        return false;
      }
      ok := HistoryAllows(log, k, b, committed);
    }

    /** Start-up: a barrier on every operation that is under way, in one transaction; nothing is
        started, and only issued phases are observed again. */
    method Recover()
      requires Valid() && !ready
      modifies this
      ensures Valid() && Onward(old(Now()), Now()) && ready
      ensures ledger == RecoveredLedger(old(ledger)) && recovering == Reconnected(old(ledger))
      ensures active == {} && owners == {} && snapshot == map[]
      ensures forall k :: k in old(ledger) && NeedsBarrier(old(ledger)[k].record) ==> Entry(k, Barrier) in log[|old(log)|..]
    {
      hide Inv;
      hide Onward;
      hide Enabled;
      hide Apply;
      hide Barriers;
      ghost var before := Now();
      var written, order := BarRows(ledger);
      RecoverStep(config, before, order);
      BarriersCover(order);
      recovering := Reconnected(ledger);
      ledger := written;
      log := log + Barriers(order);
      ready := true;
      Advance(before, Step.Recover(order));
      assert log[|old(log)|..] == Barriers(order);
    }

    /** A crash loses what the process holds in memory and nothing else. */
    method Crash()
      requires Valid()
      modifies this
      ensures Valid() && Onward(old(Now()), Now()) && !ready
      ensures ledger == old(ledger) && log == old(log) && trace == old(trace) + [Step.Crash]
    {
      hide Inv;
      hide Onward;
      ghost var before := Now();
      ready, active, recovering, owners, snapshot := false, {}, {}, {}, map[];
      Advance(before, Step.Crash);
    }

    // ---- delivery -----------------------------------------------------------------------------------

    /** The checks of the delivery guard. */
    method MayDeliver(e: Execution, stage: Stage, prior: Proof) returns (ok: bool)
      ensures ok ==> e in owners && e.key in ledger && !Closed(Now(), e.key)
      ensures forall b: bool :: ok <==> Enabled(config, Now(), Step.Guard(e, stage, prior, b))
    {
      hide FirstEvidence;
      if e !in owners || e.key !in ledger {
        return false;
      }
      var r := ledger[e.key].record;
      if !(r.at == In(e.phase) && e.phase in r.handles) || r.cancelRequested {
        return false;
      }
      if r.recovered {
        var first := FirstRecovered(e.key, true);
        if !(e.phase == Evidence && first) {
          return false;
        }
      }
      ok := && Undelivered(r.delivered, e.phase, stage) && PriorStageProved(stage, prior)
            && (stage == Reader ==> r.handles[e.phase])
            && ledger[e.key].principal !in revoked && r.generation == generation;
    }

    /** The delivery guard: the intent is committed, then the launch is issued; a refusal leaves
        everything as it was.  Nothing closed is ever launched. */
    method Guard(e: Execution, stage: Stage, prior: Proof) returns (launched: bool)
      requires Valid()
      modifies this`ledger, this`log, this`trace
      ensures Valid() && Onward(old(Now()), Now())
      ensures launched ==> trace == old(trace) + [Step.Guard(e, stage, prior, true)]
      ensures launched ==> e in owners && !Closed(old(Now()), e.key)
      ensures !launched ==> Now() == old(Now()) || trace == old(trace) + [Step.Guard(e, stage, prior, false)]
    {
      hide Inv;
      hide Onward;
      hide Enabled;
      hide Apply;
      hide Issued;
      hide Closed;
      OnwardReflexive(Now());
      launched := false;
      var ok := MayDeliver(e, stage, prior);
      if ok {
        launched := *;
        ghost var before := Now();
        GuardApplied(config, before, e, stage, prior, launched);
        Deliver(e, stage, launched);
        Advance(before, Step.Guard(e, stage, prior, launched));
      }
    }

    method Deliver(e: Execution, stage: Stage, launched: bool)
      requires e.key in ledger
      modifies this`ledger, this`log
      ensures Now() == Issued(old(Now()), e, stage, launched)
    {
      var r := ledger[e.key].record;
      var list := r.delivered + [Delivery(e.phase, stage)];
      ledger := ledger[e.key := ledger[e.key].(record := r.(delivered := list))];
      log := log + [Entry(e.key, Event.Delivered(list))]
        + (if launched then [Entry(e.key, Launched(e.phase, stage))] else []);
    }

    // ---- the coordinator ------------------------------------------------------------------------------

    /** `_unknown`: doubt about an operation that is not finished. */
    method Doubtful(k: Key)
      requires Valid() && ready && k in ledger
      modifies this`ledger, this`log, this`snapshot, this`trace
      ensures Valid() && Onward(old(Now()), Now()) && snapshot - {k} == old(snapshot) - {k}
    {
      hide Inv;
      hide Onward;
      hide Enabled;
      hide Apply;
      OnwardReflexive(Now());
      ghost var before := Now();
      if ledger[k].record.lifecycle != Terminal {
        DoubtApplied(config, before, k);
        ledger := ledger[k := ledger[k].(record := Doubt(ledger[k].record))];
        snapshot := snapshot - {k};
        Advance(before, Uncertain(k));
      }
    }

    /** `_budget_blocked`: an exhausted budget keeps what was observed; false if it does not
        apply. */
    method BudgetBlocked(k: Key) returns (settled: bool)
      requires Valid() && ready && k in ledger && k !in active
      modifies this`ledger, this`log, this`snapshot, this`trace
      ensures Valid() && Onward(old(Now()), Now()) && snapshot - {k} == old(snapshot) - {k}
      ensures settled ==> Ended(ledger[k].record.at)
    {
      hide Inv;
      hide Onward;
      OnwardReflexive(Now());
      ghost var before := Now();
      var r := ledger[k].record;
      TerminalIsEnded(config, before, k);
      hide Ended;
      hide ExhaustedFacts;
      hide ExhaustedRecord;
      hide Enabled;
      hide Apply;
      if r.lifecycle == Terminal {
        return true;
      }
      settled := ExhaustedFacts(r).Some?;
      if settled {
        ExhaustApplied(config, before, k);
        ledger := ledger[k := ledger[k].(record := ExhaustedRecord(r))];
        snapshot := snapshot - {k};
        Advance(before, Exhaust(k));
      }
    }

    /** The coordinator ends a cancelled row that has nothing running. */
    method EndCancelled(k: Key)
      requires Valid() && k in ledger && k in snapshot && k !in active && k !in recovering
      requires Startable(snapshot[k]) && snapshot[k].cancelRequested
      modifies this`ledger, this`log, this`snapshot, this`trace
      ensures Valid() && Onward(old(Now()), Now()) && snapshot - {k} == old(snapshot) - {k}
      ensures Ended(ledger[k].record.at)
    {
      hide Inv;
      hide Onward;
      hide Enabled;
      hide Apply;
      ghost var before := Now();
      BlockApplied(config, before, k);
      ledger := ledger[k := ledger[k].(record := BlockedRecord(ledger[k].record, snapshot[k]))];
      snapshot := snapshot - {k};
      Advance(before, Block(k));
    }

    /** The checks of `_start` under the fence. */
    method MayStart(k: Key, p: Phase) returns (ok: bool)
      requires k in ledger
      ensures ok <==>
                && !ledger[k].record.cancelRequested && |Slots(Now())| < config.maxRunning && Authorized(Now(), k)
                && (p == Reconcile ==> ParentQuiet(Now(), k)) && (p == Business ==> ledger[k].record.stableInputs)
                && (ledger[k].record.recovered ==> p == Evidence && FirstEvidence(Now(), k, false))
                && p !in ledger[k].record.handles
    {
      hide FirstEvidence;
      var r := ledger[k].record;
      var slots := active + (set o | o in ledger && Occupied(ledger[o].record));
      assert slots == Slots(Now());
      if r.cancelRequested || |slots| >= config.maxRunning || ledger[k].principal in revoked || r.generation != generation {
        return false;
      }
      if p == Reconcile {
        var parent := Job(ledger[k].parent);
        if parent !in ledger || ledger[parent].record.lifecycle == Accepted || ledger[parent].record.lifecycle == Running
           || !Quiet(ledger[parent].record.proof) {
          return false;
        }
      }
      var first := FirstRecovered(k, false);
      ok := (p == Business ==> r.stableInputs) && (r.recovered ==> p == Evidence && first) && p !in r.handles;
    }

    /** The quiet returns of `_start`: the row was cancelled, no slot is free, or the business work
        that a round would observe is still going on. */
    method MustWait(k: Key, p: Phase) returns (held: bool)
      requires k in ledger
      ensures held <==> Held(config, Now(), k, p)
    {
      var slots := active + (set o | o in ledger && Occupied(ledger[o].record));
      assert slots == Slots(Now());
      var parent := Job(ledger[k].parent);
      held := || ledger[k].record.cancelRequested || |slots| >= config.maxRunning
              || (p == Reconcile && parent in ledger
                  && (ledger[parent].record.lifecycle == Accepted || ledger[parent].record.lifecycle == Running));
    }

    /** `_start`: a row that must wait is left alone; otherwise every check must pass; the intent
        is durable before the runner is asked, and a lost answer leaves it so. */
    method Start(k: Key, p: Phase) returns (r: Attempt)
      requires Valid() && k in ledger && k in snapshot && k !in active && k !in recovering
      requires Startable(snapshot[k]) && !snapshot[k].cancelRequested && p == NextPhase(k, snapshot[k])
      requires snapshot[k].outcome == Unknown ==> snapshot[k].at == AwaitingSeal
      modifies this`ledger, this`log, this`snapshot, this`active, this`owners, this`trace
      ensures Valid() && Onward(old(Now()), Now()) && snapshot - {k} == old(snapshot) - {k}
      ensures active == old(active) || active == old(active) + {k}
      ensures r == Waits <==> Held(config, old(Now()), k, p)
      ensures r == Waits ==> Now() == old(Now())
      ensures r == Begun ==> k in ledger && ledger[k].record.at == In(p) && Execution(k, p) in owners && k in active
      ensures r == Raised && Now() != old(Now()) ==>
                k in ledger && ledger[k].record.at == In(p) && Execution(k, p) in owners
                && |log| > |old(log)| && log[|old(log)|].key == k && log[|old(log)|].event.Intent?
                && log[|old(log)|].event.phase == p
      ensures k in active ==> |log| > |old(log)| && log[|old(log)|].key == k && log[|old(log)|].event.Intent?
                              && log[|old(log)|].event.phase == p
    {
      hide Inv;
      hide Onward;
      hide FirstEvidence;
      hide Slots;
      OnwardReflexive(Now());
      hide Enabled;
      hide Apply;
      hide Authorized;
      hide ParentQuiet;
      hide Held;
      var held := MustWait(k, p);
      if held {
        return Waits;
      }
      var ok := MayStart(k, p);
      if !ok {
        return Raised;
      }
      ghost var before := Now();
      var staged: bool := *;
      IntendEnabled(config, before, k, p, staged);
      CommitIntent(k, p, staged);
      ghost var intended := Now();
      ok := *;
      if !ok {
        return Raised;
      }
      ok := Enqueued(k);
      OnwardTransitive(before, intended, Now());
      r := if ok then Begun else Raised;
    }

    method CommitIntent(k: Key, p: Phase, staged: bool)
      requires Valid() && Enabled(config, Now(), Intend(k, p, staged)) && k in ledger
      modifies this`ledger, this`log, this`snapshot, this`owners, this`trace
      ensures Valid() && Onward(old(Now()), Now()) && snapshot == old(snapshot) - {k}
      ensures k in ledger && ledger[k].record.at == In(p) && Execution(k, p) in owners
      ensures log == old(log) + [Entry(k, Intent(p, ledger[k].record.handles))]
    {
      hide Inv;
      hide Onward;
      hide Enabled;
      hide Apply;
      ghost var before := Now();
      IntendApplied(config, before, k, p, staged);
      var r := IntendedRecord(ledger[k].record, p, staged);
      ledger := ledger[k := ledger[k].(record := r)];
      log := log + [Entry(k, Intent(p, r.handles))];
      snapshot := snapshot - {k};
      owners := owners + {Execution(k, p)};
      Advance(before, Intend(k, p, staged));
    }

    /** The runner took the execution; its acknowledgement may still fail to be recorded. */
    method Enqueued(k: Key) returns (ok: bool)
      requires Valid() && k in ledger && ledger[k].record.at.In? && Execution(k, ledger[k].record.at.phase) in owners
      modifies this`log, this`active, this`trace
      ensures Valid() && Onward(old(Now()), Now()) && active == old(active) + {k} && old(log) <= log
    {
      hide Inv;
      hide Onward;
      ghost var before := Now();
      active := active + {k};
      Advance(before, Attach(k));
      ghost var attached := Now();
      ok := *;
      if ok {
        hide Enabled;
        hide Apply;
        EnqueueApplied(config, attached, k);
        log := log + [Entry(k, Event.Enqueued(ledger[k].record.handles))];
        Advance(attached, Enqueue(k));
        OnwardTransitive(before, attached, Now());
      }
    }

    /** `_complete` on an exit proof: false if it raises, and then nothing changes. */
    method Complete(k: Key, p: Proof) returns (ok: bool)
      requires Valid() && k in ledger && k in active
      modifies this`ledger, this`log, this`snapshot, this`active, this`trace
      ensures Valid() && Onward(old(Now()), Now()) && snapshot - {k} == old(snapshot) - {k} && active - {k} == old(active) - {k}
      ensures ok ==> p.blocked && p.exited && k !in active && !ledger[k].record.at.In?
      ensures !ok ==> Now() == old(Now())
    {
      hide Inv;
      hide Onward;
      OnwardReflexive(Now());
      ghost var before := Now();
      var r := ledger[k].record;
      ok := Completable(r, p);
      if ok {
        hide Enabled;
        hide Apply;
        hide Finished;
        hide CompletionEvents;
        CompleteApplied(config, before, k, p);
        var events := CompletionEvents(config, k, r, p, |log| + 1);
        ledger := ledger[k := ledger[k].(record := Finished(config, k, r, p, |log| + 1))];
        log := log + Entries(k, events);
        snapshot := snapshot - {k};
        active := active - {k};
        Advance(before, Step.Complete(k, p));
      }
    }

    /** One row of the coordinator's pass.  A cancelled row with nothing under way is ended. */
    method TickRow(k: Key)
      requires Valid() && ready && k in ledger && k in snapshot
      modifies this
      ensures Valid() && ready && Onward(old(Now()), Now())
      ensures active - {k} == old(active) - {k} && recovering - {k} == old(recovering) - {k}
      ensures snapshot - {k} == old(snapshot) - {k}
      ensures EndsBy(old(Now()), Now(), k)
    {
      hide Inv;
      hide Onward;
      hide Startable;
      hide NextPhase;
      hide Ended;
      ghost var before := Now();
      OnwardReflexive(before);
      if k in recovering && k !in active {
        var attached := RetryRecovery(k);
        ghost var retried := Now();
        if !attached {
          Doubtful(k);
          OnwardTransitive(before, retried, Now());
          return;
        }
        Observe(k);
        OnwardTransitive(before, retried, Now());
        return;
      }
      if k in active {
        Observe(k);
        return;
      }
      var seen := snapshot[k];
      if !Startable(seen) {
        return;
      }
      if seen.cancelRequested {
        EndCancelled(k);
        OnwardKeepsKey(before, Now(), k);
        return;
      }
      if seen.outcome == Unknown && seen.at != AwaitingSeal {
        return;
      }
      StartOrDoubt(k, NextPhase(k, seen));
    }

    method StartOrDoubt(k: Key, p: Phase)
      requires Valid() && ready && k in ledger && k in snapshot && k !in active && k !in recovering
      requires Startable(snapshot[k]) && !snapshot[k].cancelRequested && p == NextPhase(k, snapshot[k])
      requires snapshot[k].outcome == Unknown ==> snapshot[k].at == AwaitingSeal
      modifies this
      ensures Valid() && ready && Onward(old(Now()), Now())
      ensures active - {k} == old(active) - {k} && recovering == old(recovering)
      ensures snapshot - {k} == old(snapshot) - {k}
    {
      hide Inv;
      hide Onward;
      hide Startable;
      hide NextPhase;
      ghost var before := Now();
      OnwardReflexive(before);
      var exhausted: bool := *;
      if exhausted {
        var settled := BudgetBlocked(k);
        if settled {
          return;
        }
      } else {
        var r := Start(k, p);
        if r != Raised {
          return;
        }
      }
      ghost var failed := Now();
      OnwardKeepsKey(before, failed, k);
      Doubtful(k);
      OnwardTransitive(before, failed, Now());
    }

    /** Observation of an issued phase: an exit with both proofs completes it, everything else
        leaves it under observation. */
    method Observe(k: Key)
      requires Valid() && ready && k in ledger && k in active
      modifies this
      ensures Valid() && ready && Onward(old(Now()), Now())
      ensures active - {k} == old(active) - {k} && recovering == old(recovering)
      ensures snapshot - {k} == old(snapshot) - {k}
    {
      hide Inv;
      hide Onward;
      OnwardReflexive(Now());
      var running: bool := *;
      if running {
        return;
      }
      var proof: Proof := *;
      var ok := Complete(k, proof);
      if !ok {
        Doubtful(k);
      }
    }

    method RetryRecovery(k: Key) returns (attached: bool)
      requires Valid() && ready && k in recovering && k in ledger && k !in active
      modifies this
      ensures Valid() && ready && Onward(old(Now()), Now()) && ledger == old(ledger) && snapshot == old(snapshot)
      ensures active == (if attached then old(active) + {k} else old(active))
      ensures recovering - {k} == old(recovering) - {k}
    {
      hide Inv;
      hide Onward;
      OnwardReflexive(Now());
      ghost var before := Now();
      attached := *;
      var refused: bool := *;
      if attached {
        active, recovering := active + {k}, recovering - {k};
        Advance(before, Reattach(k));
      } else if refused {
        recovering := recovering - {k};
        Advance(before, Refuse(k));
      }
    }

    /** Client calls and deliveries that come in between. */
    method Clients()
      requires Valid()
      modifies this
      ensures Valid() && Onward(old(Now()), Now())
      ensures active == old(active) && recovering == old(recovering) && snapshot == old(snapshot) && ready == old(ready)
    {
      hide Inv;
      hide Onward;
      OnwardReflexive(Now());
      var calls: nat := *;
      while calls > 0
        invariant Valid() && Onward(old(Now()), Now())
        invariant active == old(active) && recovering == old(recovering) && snapshot == old(snapshot) && ready == old(ready)
      {
        ghost var before := Now();
        var k: Key, who: Principal, e: Execution, stage: Stage, prior: Proof := *, *, *, *, *;
        if * {
          Cancel(k);
        } else if * {
          Revoke(who);
        } else if * {
          Submit(k.id, who);
        } else if * {
          OpenRound(k.id, who);
        } else {
          var launched := Guard(e, stage, prior);
        }
        OnwardTransitive(old(Now()), before, Now());
        calls := calls - 1;
      }
    }

    /** Clients act, then the coordinator takes the row. */
    method Turn(k: Key)
      requires Valid() && ready && k in ledger && k in snapshot
      modifies this
      ensures Valid() && ready && Onward(old(Now()), Now())
      ensures forall o :: o in old(snapshot) && o != k ==> Untouched(old(Now()), Now(), o)
      ensures EndsBy(old(Now()), Now(), k)
    {
      hide Inv;
      hide Onward;
      hide Startable;
      hide Ended;
      ghost var before := Now();
      Clients();
      ghost var between := Now();
      OnwardKeepsKey(before, between, k);
      TickRow(k);
      OnwardTransitive(before, between, Now());
      forall o | o in before.snapshot && o != k ensures Untouched(before, Now(), o) {
        assert o in before.snapshot - {k} && o in snapshot - {k};
        assert (o in active - {k} <==> o in before.active - {k}) && (o in recovering - {k} <==> o in before.recovering - {k});
      }
    }

    /** One pass over the rows as they were when it began, with clients acting in between.
        Afterwards no cancelled operation waits to be started. */
    method Tick()
      requires Valid() && ready
      modifies this
      ensures Valid() && ready && Onward(old(Now()), Now())
      ensures forall k :: k in old(ledger) && k !in old(active) && k !in old(recovering) && Doomed(old(ledger)[k].record) ==>
                k in ledger && Ended(ledger[k].record.at)
    {
      hide Inv;
      hide Onward;
      hide EndsBy;
      ghost var start := Now();
      TakeSnapshot();
      var rows := Listing(snapshot.Keys);
      ghost var looked := Now();
      OnwardReflexive(looked);
      for i := 0 to |rows|
        invariant Valid() && ready && Onward(looked, Now())
        invariant forall j :: i <= j < |rows| ==> Untouched(looked, Now(), rows[j])
        invariant forall j :: 0 <= j < i ==> EndsBy(looked, Now(), rows[j])
      {
        ghost var before := Now();
        OnwardKeepsKey(looked, before, rows[i]);
        Turn(rows[i]);
        OnwardTransitive(looked, before, Now());
        forall j | i < j < |rows| ensures Untouched(looked, Now(), rows[j]) {
          UntouchedTransitive(looked, before, Now(), rows[j]);
        }
        forall j | 0 <= j <= i ensures EndsBy(looked, Now(), rows[j]) {
          EndsThen(looked, before, Now(), rows[j]);
        }
      }
      OnwardTransitive(start, looked, Now());
      forall k | k in old(ledger) && k !in old(active) && k !in old(recovering) && Doomed(old(ledger)[k].record)
        ensures k in ledger && Ended(ledger[k].record.at)
      {
        var j :| 0 <= j < |rows| && rows[j] == k;
        EndsMeans(looked, Now(), k);
      }
    }

    method TakeSnapshot()
      requires Valid() && ready
      modifies this`snapshot, this`trace
      ensures Valid() && Onward(old(Now()), Now())
      ensures snapshot.Keys == ledger.Keys && forall k :: k in ledger ==> snapshot[k] == ledger[k].record
    {
      hide Inv;
      hide Onward;
      ghost var before := Now();
      snapshot := map k | k in ledger :: ledger[k].record;
      Advance(before, Look);
    }
  }
}
