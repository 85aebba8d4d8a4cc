/** The archive calls as the code runs them, each durable step of which may be the last before
    a crash, and the verification of a recovery point. */
module ArchiveService {
  import opened Octets
  import opened Collections
  import opened Archive
  import opened ArchiveSafety

  datatype Archived = Archived(artifact: string, version: string, files: Files)

  /** What a successful call told its caller. */
  datatype Told = Told(task: Task, artifact: string, version: string)

  /** The run went on from `a` to `b` by working steps only. */
  predicate Worked(a: seq<Step>, b: seq<Step>) {
    a <= b && OnlyWork(b[|a|..])
  }

  lemma WorkedOn(a: seq<Step>, b: seq<Step>, c: seq<Step>)
    requires Worked(a, b) && Worked(b, c)
    ensures Worked(a, c)
  {
    forall i | 0 <= i < |c[|a|..]| ensures Works(c[|a|..][i]) {
      if i < |b| - |a| {
        assert c[|a|..][i] == b[|a|..][i];
      } else {
        assert c[|a|..][i] == c[|b|..][i - (|b| - |a|)];
      }
    }
  }

  lemma WorkedOnce(a: seq<Step>, step: Step)
    requires Works(step)
    ensures Worked(a, a) && Worked(a, a + [step])
  {
  }

  class Store {
    var tasks: map<Task, Directory>
    var reservations: map<Task, Reservation>
    var ledger: map<OpKey, Committed>
    var clock: nat
    ghost var tokens: set<string>
    ghost var executed: seq<Execution>
    ghost const origin: State
    ghost var trace: seq<Step>
    /** Every answer that any call has given. */
    ghost var answers: set<Told>

    ghost function Now(): State
      reads this
    {
      State(tasks, reservations, ledger, clock, tokens, executed)
    }

    /** All that happened is a run of the machine, no task with a past is exposed, and all answers
        for one task agree. */
    ghost predicate Valid()
      reads this
    {
      && Runs(origin, trace) && Now() == After(origin, trace) && Grounded(Now()) && Sheltered(Now())
      && (forall x :: x in answers ==> Returned(Now(), x.task, x.artifact, x.version))
      && (forall x, y :: x in answers && y in answers && x.task == y.task ==> x == y)
    }

    /** Opens a store as it is found, of either format. */
    constructor (s: State)
      requires Grounded(s) && Sheltered(s)
      ensures Valid() && Now() == s && origin == s && trace == [] && answers == {}
    {
      tasks, reservations, ledger, clock := s.tasks, s.reservations, s.ledger, s.clock;
      tokens, executed := s.tokens, s.executed;
      origin := s;
      trace := [];
      answers := {};
    }

    /** Books the step that the fields have just taken. */
    ghost method Advance(before: State, step: Step)
      requires Runs(origin, trace) && before == After(origin, trace) && Enabled(before, step)
      requires Now() == Apply(before, step) && Grounded(before) && Sheltered(before) && Sheltered(Now())
      requires forall x :: x in answers ==> Returned(before, x.task, x.artifact, x.version)
      requires forall x, y :: x in answers && y in answers && x.task == y.task ==> x == y
      modifies this`trace
      ensures Valid() && trace == old(trace) + [step]
    {
      hide Enabled;
      hide Apply;
      hide Grounded;
      hide Returned;
      WorkShelters(before, step);
      GroundedStep(before, step);
      RunsOn(origin, trace, step);
      forall x | x in answers ensures Returned(Now(), x.task, x.artifact, x.version) {
        ReturnedStays(before, step, x.task, x.artifact, x.version);
      }
      trace := trace + [step];
    }

    /** Something is lost between two calls: a directory, a receipt, a reservation or entries of
        the database, as long as this exposes no task with a past. */
    method Lose(step: Step)
      requires Valid() && !Works(step) && Enabled(Now(), step) && Sheltered(Apply(Now(), step))
      modifies this
      ensures Valid() && answers == old(answers) && trace == old(trace) + [step] && Now() == Apply(old(Now()), step)
    {
      hide Grounded;
      hide Returned;
      hide Sheltered;
      ghost var before := Now();
      match step {
        case LoseTask(t) => tasks := tasks - {t};
        case LoseReceipt(t, kind) =>
          reservations := reservations[t := reservations[t].(receipts := reservations[t].receipts - {kind})];
        case LoseReservation(t) => reservations := reservations - {t};
        case Rollback(keys) => ledger := ledger - keys;
      }
      Advance(before, step);
    }

    method StageTask(t: Task, files: Files, token: string)
      requires Valid() && Enabled(Now(), Stage(t, files, token))
      modifies this
      ensures Valid() && answers == old(answers) && trace == old(trace) + [Stage(t, files, token)]
      ensures Now() == Apply(old(Now()), Stage(t, files, token))
    {
      hide Grounded;
      hide Returned;
      hide Sheltered;
      ghost var before := Now();
      tasks := tasks[t := Staged(Binding(V2, t, files.status, token), files)];
      tokens := tokens + {token};
      WorkShelters(before, Stage(t, files, token));
      Advance(before, Stage(t, files, token));
    }

    method ReserveTask(t: Task)
      requires Valid() && Enabled(Now(), Reserve(t))
      modifies this
      ensures Valid() && answers == old(answers) && trace == old(trace) + [Reserve(t)]
      ensures Now() == Apply(old(Now()), Reserve(t))
    {
      hide Grounded;
      hide Returned;
      hide Sheltered;
      ghost var before := Now();
      reservations := reservations[t := Reservation(tasks[t].binding, map[])];
      WorkShelters(before, Reserve(t));
      Advance(before, Reserve(t));
    }

    method ExecuteRequest(t: Task, kind: Kind)
      requires Valid() && Enabled(Now(), Execute(t, kind))
      modifies this
      ensures Valid() && answers == old(answers) && trace == old(trace) + [Execute(t, kind)]
      ensures Now() == Apply(old(Now()), Execute(t, kind))
    {
      hide Grounded;
      hide Returned;
      hide Sheltered;
      ghost var before := Now();
      var r := RequestOf(tasks[t].binding, kind, tasks[t].files);
      ledger := ledger[r.key := Committed(r, clock)];
      clock := clock + 1;
      executed := executed + [Execution(t, kind, r)];
      WorkShelters(before, Execute(t, kind));
      Advance(before, Execute(t, kind));
    }

    method PublishReceipt(t: Task, kind: Kind)
      requires Valid() && Enabled(Now(), Confirm(t, kind))
      modifies this
      ensures Valid() && answers == old(answers) && trace == old(trace) + [Confirm(t, kind)]
      ensures Now() == Apply(old(Now()), Confirm(t, kind))
    {
      hide Grounded;
      hide Returned;
      hide Sheltered;
      ghost var before := Now();
      var r := RequestOf(tasks[t].binding, kind, tasks[t].files);
      reservations := reservations[t := reservations[t].(receipts := reservations[t].receipts[kind := ledger[r.key]])];
      WorkShelters(before, Confirm(t, kind));
      Advance(before, Confirm(t, kind));
    }

    /** The operation is in the ledger as requested and its receipt is retained, or the call
        failed; the answer of the ledger and the receipt may be lost on the way.  Nothing is
        executed that is confirmed or already in the ledger. */
    method EnsureOperation(t: Task, kind: Kind) returns (r: Option<Committed>)
      requires Valid() && Backed(Now(), t)
      requires kind == Append ==> Holds(ledger, RequestIn(Now(), t, Create))
      modifies this
      ensures Valid() && answers == old(answers) && Worked(old(trace), trace)
      ensures tasks == old(tasks) && tokens == old(tokens) && Backed(Now(), t)
      ensures forall other :: other in old(ledger) ==> other in ledger && ledger[other] == old(ledger)[other]
      ensures executed == old(executed) || executed == old(executed) + [Execution(t, kind, RequestIn(Now(), t, kind))]
      ensures Confirmed(old(reservations)[t].receipts, kind) || RequestIn(Now(), t, kind).key in old(ledger) ==>
                executed == old(executed)
      ensures r.Some? ==> Holds(ledger, RequestIn(Now(), t, kind)) && kind in reservations[t].receipts
                          && ledger[RequestIn(Now(), t, kind).key] == r.value == reservations[t].receipts[kind]
    {
      hide Grounded;
      hide Sheltered;
      var request := RequestOf(tasks[t].binding, kind, tasks[t].files);
      var receipts := reservations[t].receipts;
      if kind in receipts && receipts[kind].request != request {
        return None;
      }
      if request.key !in ledger {
        if Confirmed(receipts, kind) {
          return None;
        }
        ExecuteRequest(t, kind);
        var answered: bool := *;
        if !answered {
          return None;
        }
      } else if ledger[request.key].request != request {
        return None;
      }
      if kind in receipts {
        if receipts[kind] != ledger[request.key] {
          return None;
        }
      } else {
        var published: bool := *;
        if !published {
          return None;
        }
        PublishReceipt(t, kind);
      }
      r := Some(ledger[request.key]);
    }

    /** A call returns: its answer agrees with every earlier one for the task. */
    ghost method Answer(t: Task, artifact: string, version: string)
      requires Valid() && Returned(Now(), t, artifact, version)
      modifies this`answers
      ensures Valid() && answers == old(answers) + {Told(t, artifact, version)}
    {
      assert OnePerTask(executed);
      hide Grounded;
      hide Returned;
      forall x | x in answers && x.task == t ensures x == Told(t, artifact, version) {
        SameAtOnce(Now(), t, x.artifact, x.version, artifact, version);
      }
      answers := answers + {Told(t, artifact, version)};
    }

    /** Create, then append, then read-back. */
    method Fulfil(t: Task) returns (r: Option<Archived>)
      requires Valid() && Backed(Now(), t)
      modifies this
      ensures Valid() && tasks == old(tasks) && Worked(old(trace), trace) && old(executed) <= executed
      ensures r.Some? ==> r.value.files == tasks[t].files && Returned(Now(), t, r.value.artifact, r.value.version)
      ensures r.Some? ==> answers == old(answers) + {Told(t, r.value.artifact, r.value.version)}
      ensures r == None ==> answers == old(answers)
      ensures r.Some? ==> Holds(ledger, RequestIn(Now(), t, Create)) && Holds(ledger, RequestIn(Now(), t, Append))
    {
      hide Grounded;
      hide Sheltered;
      hide Returned;
      hide Worked;
      var created := EnsureOperation(t, Create);
      if created == None {
        return None;
      }
      ghost var between := trace;
      var appended := EnsureOperation(t, Append);
      WorkedOn(old(trace), between, trace);
      if appended == None || appended.value.request.files != tasks[t].files {
        return None;
      }
      r := Some(Archived(ResultRef(created.value.request), ResultRef(appended.value.request), tasks[t].files));
      ReturnedNow(Now(), t);
      Answer(t, r.value.artifact, r.value.version);
    }

    /** Completes a staged task from whatever an earlier call left. */
    method Resume(t: Task) returns (r: Option<Archived>)
      requires Valid()
      modifies this
      ensures Valid() && tasks == old(tasks) && Worked(old(trace), trace) && old(executed) <= executed
      ensures r.Some? ==> t in tasks && r.value.files == tasks[t].files && Returned(Now(), t, r.value.artifact, r.value.version)
      ensures r.Some? ==> answers == old(answers) + {Told(t, r.value.artifact, r.value.version)}
      ensures r == None ==> answers == old(answers)
      ensures r.Some? ==> Holds(ledger, RequestIn(Now(), t, Create)) && Holds(ledger, RequestIn(Now(), t, Append))
    {
      hide Grounded;
      hide Sheltered;
      hide Returned;
      hide Worked;
      WorkedOnce(trace, Reserve(t));
      if t !in tasks || tasks[t].binding.task != t || tasks[t] != Staged(tasks[t].binding, tasks[t].files) {
        return None;
      }
      if t in reservations {
        if reservations[t].binding != tasks[t].binding {
          return None;
        }
      } else {
        ReserveTask(t);
      }
      ghost var reserved := trace;
      r := Fulfil(t);
      WorkedOn(old(trace), reserved, trace);
    }

    /** Archives a task, or finds it archived: the first snapshot is kept, and later calls must
        name the same evidence.  `token` is fresh. */
    method ArchiveResult(t: Task, files: Files, token: string) returns (r: Option<Archived>)
      requires Valid() && token !in tokens
      modifies this
      ensures Valid() && Worked(old(trace), trace)
      ensures t in old(tasks) ==> t in tasks && tasks[t] == old(tasks)[t]
      ensures old(executed) <= executed
      ensures r.Some? ==> r.value.files.source == files.source && Returned(Now(), t, r.value.artifact, r.value.version)
      ensures r.Some? ==> answers == old(answers) + {Told(t, r.value.artifact, r.value.version)}
      ensures r == None ==> answers == old(answers)
    {
      hide Grounded;
      hide Sheltered;
      hide Returned;
      hide Worked;
      WorkedOnce(trace, Stage(t, files, token));
      if t in tasks {
        if tasks[t].files.source != files.source {
          return None;
        }
      } else {
        if t in reservations || OpKey(TaskScope(t), Create) in ledger || OpKey(TaskScope(t), Append) in ledger {
          return None;
        }
        StageTask(t, files, token);
        var alive: bool := *;
        if !alive {
          return None;
        }
      }
      ghost var staged := trace;
      r := Resume(t);
      WorkedOn(old(trace), staged, trace);
    }
  }

  /** Ledger operations of a task are ones that were executed for it. */
  lemma ReturnedNow(s: State, t: Task)
    requires Grounded(s) && Backed(s, t)
    requires Holds(s.ledger, RequestIn(s, t, Create)) && Holds(s.ledger, RequestIn(s, t, Append))
    ensures Returned(s, t, ResultRef(RequestIn(s, t, Create)), ResultRef(RequestIn(s, t, Append)))
  {
  }
}
