/** Every task yields at most one artifact and one version, whatever is lost on the way. */
module ArchiveSafety {
  import opened Archive

  // ---- the invariant ------------------------------------------------------------------------

  /** All that was ever committed for a task and kind is one and the same request. */
  predicate OnePerTask(executed: seq<Execution>) {
    forall e, f :: e in executed && f in executed && e.task == f.task && e.kind == f.kind ==> e == f
  }

  /** Each ledger operation is one that was executed, under its own key. */
  predicate Recorded(s: State) {
    forall key :: key in s.ledger ==>
      && s.ledger[key].request.key == key
      && exists e :: e in s.executed && e.request == s.ledger[key].request
  }

  predicate DirectoriesOk(s: State) {
    && (forall t :: t in s.tasks ==> s.tasks[t] == Staged(s.tasks[t].binding, s.tasks[t].files) && s.tasks[t].binding.task == t)
    && (forall t :: t in s.tasks && t in s.reservations ==> s.reservations[t].binding == s.tasks[t].binding)
  }

  /** What was executed came from the directory, if that is still there. */
  predicate FromDirectory(s: State) {
    forall e :: e in s.executed && e.task in s.tasks ==> e.request == RequestIn(s, e.task, e.kind)
  }

  /** Identities in use come from tokens that were drawn. */
  predicate Drawn(s: State) {
    && (forall t :: t in s.tasks ==> s.tasks[t].binding.token in s.tokens)
    && (forall e :: e in s.executed ==> exists token :: token in s.tokens && ResultRef(e.request) == Named(e.kind, token))
  }

  function Named(kind: Kind, token: string): string {
    (if kind == Create then "artifact:" else "version:") + token
  }

  /** A request that was executed belongs to the one task that it was executed for. */
  predicate Attributed(s: State) {
    && (forall t, u :: t in s.tasks && u in s.tasks && t != u ==> s.tasks[t].binding.token != s.tasks[u].binding.token)
    && (forall e, t, kind :: e in s.executed && t in s.tasks && e.request == RequestIn(s, t, kind) ==>
          e.task == t && e.kind == kind)
  }

  predicate Grounded(s: State) {
    DirectoriesOk(s) && FromDirectory(s) && Recorded(s) && OnePerTask(s.executed) && Drawn(s) && Attributed(s)
  }

  /** The step stages a task that already has operations in its past. */
  predicate StagesKnown(s: State, step: Step) {
    step.Stage? && exists e :: e in s.executed && e.task == step.task
  }

  lemma DrawnStep(s: State, step: Step)
    requires Drawn(s) && Enabled(s, step)
    ensures Drawn(Apply(s, step))
  {
    var s2 := Apply(s, step);
    forall e | e in s2.executed ensures exists token :: token in s2.tokens && ResultRef(e.request) == Named(e.kind, token) {
      if e in s.executed {
        var token :| token in s.tokens && ResultRef(e.request) == Named(e.kind, token);
        assert token in s2.tokens;
      } else {
        var token := s.tasks[step.task].binding.token;
        assert token in s2.tokens && ResultRef(e.request) == Named(e.kind, token);
      }
    }
  }

  lemma DirectoriesStep(s: State, step: Step)
    requires DirectoriesOk(s) && Enabled(s, step)
    ensures DirectoriesOk(Apply(s, step))
  {
  }

  lemma RecordedStep(s: State, step: Step)
    requires Recorded(s) && Enabled(s, step)
    ensures Recorded(Apply(s, step))
  {
    var s2 := Apply(s, step);
    forall key | key in s2.ledger
      ensures s2.ledger[key].request.key == key && exists x :: x in s2.executed && x.request == s2.ledger[key].request
    {
      if key in s.ledger && s2.ledger[key] == s.ledger[key] {
        var x :| x in s.executed && x.request == s.ledger[key].request;
        assert x in s2.executed;
      } else {
        var e := Execution(step.task, step.kind, RequestIn(s, step.task, step.kind));
        assert s2.executed[|s.executed|] == e;
      }
    }
  }

  /** A directory that is staged has no history. */
  lemma FromDirectoryStep(s: State, step: Step)
    requires FromDirectory(s) && OnePerTask(s.executed) && Enabled(s, step)
    requires !StagesKnown(s, step)
    ensures FromDirectory(Apply(s, step)) && OnePerTask(Apply(s, step).executed)
  {
    if step.Execute? {
      var e := Execution(step.task, step.kind, RequestIn(s, step.task, step.kind));
      assert Apply(s, step).executed == s.executed + [e];
      assert forall f :: f in s.executed && f.task == e.task && f.kind == e.kind ==> f == e;
    }
  }

  lemma NamedInjective(kind: Kind, a: string, kind2: Kind, b: string)
    requires Named(kind, a) == Named(kind2, b)
    ensures kind == kind2 && a == b
  {
    assert Named(kind, a)[0] == (if kind == Create then 'a' else 'v');
    assert kind == kind2;
    var n := if kind == Create then |"artifact:"| else |"version:"|;
    assert a == Named(kind, a)[n..] && b == Named(kind, b)[n..];
  }

  /** A fresh token gives requests that were never executed. */
  lemma FreshIsDifferent(s: State, e: Execution, kind: Kind, b: Binding, files: Files)
    requires Drawn(s) && e in s.executed && b.token !in s.tokens
    ensures RequestOf(b, kind, files) != e.request
  {
    var token :| token in s.tokens && ResultRef(e.request) == Named(e.kind, token);
    if RequestOf(b, kind, files) == e.request {
      NamedInjective(e.kind, token, kind, b.token);
    }
  }

  lemma RequestsDiffer(s: State, t: Task, u: Task, kind: Kind, kind2: Kind)
    requires Attributed(s) && t in s.tasks && u in s.tasks && RequestIn(s, t, kind) == RequestIn(s, u, kind2)
    ensures t == u && kind == kind2
  {
    NamedInjective(kind, s.tasks[t].binding.token, kind2, s.tasks[u].binding.token);
  }

  lemma AttributedStep(s: State, step: Step)
    requires Drawn(s) && Attributed(s) && Enabled(s, step)
    ensures Attributed(Apply(s, step))
  {
    var s2 := Apply(s, step);
    forall e, t, kind | e in s2.executed && t in s2.tasks && e.request == RequestIn(s2, t, kind)
      ensures e.task == t && e.kind == kind
    {
      if step.Execute? && e !in s.executed {
        assert e == Execution(step.task, step.kind, RequestIn(s, step.task, step.kind));
        RequestsDiffer(s, t, step.task, kind, step.kind);
      } else if step.Stage? && step.task == t {
        assert s2.tasks[t].binding.token !in s.tokens;
        FreshIsDifferent(s, e, kind, s2.tasks[t].binding, step.files);
      } else {
        assert e.request == RequestIn(s, t, kind);
      }
    }
  }

  lemma GroundedStep(s: State, step: Step)
    requires Grounded(s) && Enabled(s, step)
    requires !StagesKnown(s, step)
    ensures Grounded(Apply(s, step))
  {
    DirectoriesStep(s, step);
    RecordedStep(s, step);
    FromDirectoryStep(s, step);
    DrawnStep(s, step);
    AttributedStep(s, step);
  }

  // ---- when a task can be staged anew -----------------------------------------------------------

  /** All three things that the check of a new task looks at are gone: the directory, the
      reservation and the operations under the task's own scope. */
  predicate Exposed(s: State, t: Task) {
    && t !in s.tasks && t !in s.reservations
    && OpKey(TaskScope(t), Create) !in s.ledger && OpKey(TaskScope(t), Append) !in s.ledger
  }

  /** No task that has committed anything is exposed. */
  predicate Sheltered(s: State) {
    forall e :: e in s.executed ==> !Exposed(s, e.task)
  }

  /** The steps that calls take, as opposed to losses. */
  predicate Works(step: Step) {
    step.Stage? || step.Reserve? || step.Execute? || step.Confirm?
  }

  predicate OnlyWork(steps: seq<Step>) {
    forall i :: 0 <= i < |steps| ==> Works(steps[i])
  }

  /** Calls expose nothing, and stage nothing that has a past. */
  lemma WorkShelters(s: State, step: Step)
    requires Sheltered(s) && Enabled(s, step)
    ensures !StagesKnown(s, step) && (Works(step) ==> Sheltered(Apply(s, step)))
  {
  }

  lemma {:induction false} WorkKeepsLaw(s: State, steps: seq<Step>)
    requires Grounded(s) && Sheltered(s) && Runs(s, steps) && OnlyWork(steps)
    ensures Grounded(After(s, steps)) && Sheltered(After(s, steps))
    decreases |steps|
  {
    hide Apply;
    if steps != [] {
      WorkShelters(s, steps[0]);
      GroundedStep(s, steps[0]);
      WorkKeepsLaw(Apply(s, steps[0]), steps[1..]);
    }
  }

  /** No token is ever the last one. */
  lemma FreshToken(tokens: set<string>) returns (token: string)
    ensures forall x :: x in tokens ==> |x| < |token|
    decreases |tokens|
  {
    if tokens == {} {
      token := "0";
    } else {
      var x :| x in tokens;
      token := FreshToken(tokens - {x});
      token := if |x| < |token| then token else x + "0";
    }
  }

  /** An exposed task with a past can be archived again: four steps of one call commit a second
      artifact and a second version.  Old bindings never had operations under the task's own
      scope; newer ones lose them with the database. */
  lemma ExposedTaskSplits(s: State, e: Execution, files: Files, token: string)
    requires Grounded(s) && e in s.executed && Exposed(s, e.task) && token !in s.tokens
    ensures var steps := [Stage(e.task, files, token), Reserve(e.task), Execute(e.task, Create), Execute(e.task, Append)];
            Runs(s, steps) && !OnePerTask(After(s, steps).executed)
  {
    var t := e.task;
    var a, b, c, d := Stage(t, files, token), Reserve(t), Execute(t, Create), Execute(t, Append);
    var s1 := Apply(s, a);
    var s2 := Apply(s1, b);
    var s3 := Apply(s2, c);
    assert Holds(s3.ledger, RequestIn(s3, t, Create));
    var s4 := Apply(s3, d);
    FourSteps(s, a, b, c, d);
    FreshIsDifferent(s, e, e.kind, Binding(V2, t, files.status, token), files);
    var f, g := Execution(t, Create, RequestIn(s2, t, Create)), Execution(t, Append, RequestIn(s2, t, Append));
    assert s4.executed == s.executed + [f, g];
    assert e in s4.executed && f in s4.executed && g in s4.executed && e != f && e != g;
    assert e.kind == Create || e.kind == Append;
  }

  lemma FourSteps(s: State, a: Step, b: Step, c: Step, d: Step)
    requires Enabled(s, a) && Enabled(Apply(s, a), b) && Enabled(Apply(Apply(s, a), b), c)
    requires Enabled(Apply(Apply(Apply(s, a), b), c), d)
    ensures Runs(s, [a, b, c, d]) && After(s, [a, b, c, d]) == Apply(Apply(Apply(Apply(s, a), b), c), d)
  {
    hide Enabled;
    hide Apply;
    assert Runs(s, []) && After(s, []) == s;
    RunsOn(s, [], a);
    assert [] + [a] == [a] && [a] + [b] == [a, b] && [a, b] + [c] == [a, b, c] && [a, b, c] + [d] == [a, b, c, d];
    RunsOn(s, [a], b);
    RunsOn(s, [a, b], c);
    RunsOn(s, [a, b, c], d);
  }

  /** Whatever calls are made from here on, every task keeps one artifact and one version. */
  ghost predicate LawHolds(s: State) {
    forall steps :: Runs(s, steps) && OnlyWork(steps) ==> OnePerTask(After(s, steps).executed)
  }

  /** The law of one artifact per task holds from a state on if and only if no task with a past
      is exposed in it. */
  lemma LawHoldsExactly(s: State)
    requires Grounded(s)
    ensures LawHolds(s) <==> Sheltered(s)
  {
    if Sheltered(s) {
      forall steps | Runs(s, steps) && OnlyWork(steps) ensures OnePerTask(After(s, steps).executed) {
        WorkKeepsLaw(s, steps);
      }
    } else {
      var e :| e in s.executed && Exposed(s, e.task);
      var token := FreshToken(s.tokens);
      var files := Files("", "");
      var steps := [Stage(e.task, files, token), Reserve(e.task), Execute(e.task, Create), Execute(e.task, Append)];
      ExposedTaskSplits(s, e, files, token);
      assert Runs(s, steps) && OnlyWork(steps) && !OnePerTask(After(s, steps).executed);
    }
  }

  // ---- losses --------------------------------------------------------------------------------------

  /** No state of the run exposes a task with a past. */
  predicate ShelteredAlong(s: State, steps: seq<Step>)
    requires Runs(s, steps)
    decreases |steps|
  {
    Sheltered(s) && (steps == [] || ShelteredAlong(Apply(s, steps[0]), steps[1..]))
  }

  /** However often calls crash or lose the answer of the ledger, and whatever is lost in between
      of directories, reservations, receipts and database entries: as long as no task with a past
      loses everything at once, every task has one artifact and one version. */
  lemma {:induction false} OneArtifactWhileSheltered(s: State, steps: seq<Step>)
    requires Grounded(s) && Runs(s, steps) && ShelteredAlong(s, steps)
    ensures Grounded(After(s, steps)) && Sheltered(After(s, steps))
    decreases |steps|
  {
    hide Apply;
    hide Sheltered;
    if steps != [] {
      WorkShelters(s, steps[0]);
      GroundedStep(s, steps[0]);
      OneArtifactWhileSheltered(Apply(s, steps[0]), steps[1..]);
    }
  }

  /** Every task with a past has its reservation. */
  predicate Reserved(s: State) {
    forall e :: e in s.executed ==> e.task in s.reservations
  }

  predicate KeepsReservations(steps: seq<Step>) {
    forall i :: 0 <= i < |steps| ==> !steps[i].LoseReservation?
  }

  lemma ReservedStep(s: State, step: Step)
    requires Reserved(s) && Enabled(s, step) && !step.LoseReservation?
    ensures Reserved(Apply(s, step))
  {
  }

  lemma {:induction false} ReservedIsSheltered(s: State, steps: seq<Step>)
    requires Reserved(s) && Runs(s, steps) && KeepsReservations(steps)
    ensures ShelteredAlong(s, steps)
    decreases |steps|
  {
    hide Apply;
    if steps != [] {
      ReservedStep(s, steps[0]);
      ReservedIsSheltered(Apply(s, steps[0]), steps[1..]);
    }
  }

  /** Reservations are enough: directories and receipts of either format may be lost, and even
      older copies of the database may come back. */
  lemma OneArtifactWhileReserved(s: State, steps: seq<Step>)
    requires Grounded(s) && Reserved(s) && Runs(s, steps) && KeepsReservations(steps)
    ensures Grounded(After(s, steps)) && OnePerTask(After(s, steps).executed)
  {
    ReservedIsSheltered(s, steps);
    OneArtifactWhileSheltered(s, steps);
  }

  /** Every binding is of the second format, and the ledger still holds all it committed. */
  predicate Remembered(s: State) {
    && (forall t :: t in s.tasks ==> s.tasks[t].binding.schema == V2)
    && (forall e :: e in s.executed ==> e.request.key == OpKey(TaskScope(e.task), e.kind) && Holds(s.ledger, e.request))
  }

  predicate KeepsLedger(steps: seq<Step>) {
    forall i :: 0 <= i < |steps| ==> !steps[i].Rollback?
  }

  lemma RememberedStep(s: State, step: Step)
    requires DirectoriesOk(s) && Remembered(s) && Enabled(s, step) && !step.Rollback?
    ensures Remembered(Apply(s, step))
  {
  }

  lemma RememberedShelters(s: State)
    requires Remembered(s)
    ensures Sheltered(s)
  {
    forall e | e in s.executed ensures !Exposed(s, e.task) {
      assert e.kind == Create || e.kind == Append;
    }
  }

  lemma {:induction false} RememberedIsSheltered(s: State, steps: seq<Step>)
    requires DirectoriesOk(s) && Remembered(s) && Runs(s, steps) && KeepsLedger(steps)
    ensures ShelteredAlong(s, steps)
    decreases |steps|
  {
    hide Apply;
    RememberedShelters(s);
    if steps != [] {
      RememberedStep(s, steps[0]);
      DirectoriesStep(s, steps[0]);
      RememberedIsSheltered(Apply(s, steps[0]), steps[1..]);
    }
  }

  /** With bindings of the second format the ledger is enough: even if both the directory and the
      reservation of a task are lost, the task keeps its one artifact and one version. */
  lemma OneArtifactWhileRemembered(s: State, steps: seq<Step>)
    requires Grounded(s) && Remembered(s) && Runs(s, steps) && KeepsLedger(steps)
    ensures Grounded(After(s, steps)) && OnePerTask(After(s, steps).executed)
  {
    RememberedIsSheltered(s, steps);
    OneArtifactWhileSheltered(s, steps);
  }

  // ---- what calls return -------------------------------------------------------------------------

  /** A successful call returned these identities at some point. */
  predicate Returned(s: State, t: Task, artifact: string, version: string) {
    && (exists e :: e in s.executed && e.task == t && e.kind == Create && ResultRef(e.request) == artifact)
    && (exists e :: e in s.executed && e.task == t && e.kind == Append && ResultRef(e.request) == version)
  }

  lemma ExecutedStays(s: State, step: Step)
    requires Enabled(s, step)
    ensures s.executed <= Apply(s, step).executed
  {
  }

  lemma ReturnedStays(s: State, step: Step, t: Task, artifact: string, version: string)
    requires Enabled(s, step) && Returned(s, t, artifact, version)
    ensures Returned(Apply(s, step), t, artifact, version)
  {
    ExecutedStays(s, step);
    assert forall e :: e in s.executed ==> e in Apply(s, step).executed;
  }

  lemma {:induction false} ExecutedForEver(s: State, steps: seq<Step>)
    requires Runs(s, steps)
    ensures s.executed <= After(s, steps).executed
    decreases |steps|
  {
    hide Apply;
    hide Enabled;
    if steps != [] {
      ExecutedStays(s, steps[0]);
      ExecutedForEver(Apply(s, steps[0]), steps[1..]);
    }
  }

  lemma ReturnedForEver(s: State, steps: seq<Step>, t: Task, artifact: string, version: string)
    requires Runs(s, steps) && Returned(s, t, artifact, version)
    ensures Returned(After(s, steps), t, artifact, version)
  {
    ExecutedForEver(s, steps);
    assert forall e :: e in s.executed ==> e in After(s, steps).executed;
  }

  /** One call succeeds; then come crashes, lost answers, and losses of directories, reservations,
      receipts or database entries, none of which exposes a task with a past; then another call
      for the same task succeeds.  Both returned the same identities. */
  lemma SameIdentities(s: State, steps: seq<Step>, t: Task, artifact: string, version: string, artifact2: string, version2: string)
    requires Grounded(s) && Runs(s, steps) && ShelteredAlong(s, steps)
    requires Returned(s, t, artifact, version) && Returned(After(s, steps), t, artifact2, version2)
    ensures artifact == artifact2 && version == version2
  {
    OneArtifactWhileSheltered(s, steps);
    ReturnedForEver(s, steps, t, artifact, version);
    SameAtOnce(After(s, steps), t, artifact, version, artifact2, version2);
  }

  lemma SameAtOnce(s: State, t: Task, artifact: string, version: string, artifact2: string, version2: string)
    requires OnePerTask(s.executed) && Returned(s, t, artifact, version) && Returned(s, t, artifact2, version2)
    ensures artifact == artifact2 && version == version2
  {
  }

  lemma SameIdentitiesWhileReserved(s: State, steps: seq<Step>, t: Task, a: string, v: string, a2: string, v2: string)
    requires Grounded(s) && Reserved(s) && Runs(s, steps) && KeepsReservations(steps)
    requires Returned(s, t, a, v) && Returned(After(s, steps), t, a2, v2)
    ensures a == a2 && v == v2
  {
    ReservedIsSheltered(s, steps);
    SameIdentities(s, steps, t, a, v, a2, v2);
  }

  lemma SameIdentitiesWhileRemembered(s: State, steps: seq<Step>, t: Task, a: string, v: string, a2: string, v2: string)
    requires Grounded(s) && Remembered(s) && Runs(s, steps) && KeepsLedger(steps)
    requires Returned(s, t, a, v) && Returned(After(s, steps), t, a2, v2)
    ensures a == a2 && v == v2
  {
    RememberedIsSheltered(s, steps);
    SameIdentities(s, steps, t, a, v, a2, v2);
  }

  // ---- what they never repeat ----------------------------------------------------------------------

  predicate ConfirmedIn(s: State, t: Task, kind: Kind) {
    t in s.reservations && Confirmed(s.reservations[t].receipts, kind)
  }

  /** The operation is confirmed in every state of the run, by its own receipt or by that of the
      append that follows it. */
  predicate ConfirmedAlong(s: State, steps: seq<Step>, t: Task, kind: Kind)
    requires Runs(s, steps)
    decreases |steps|
  {
    ConfirmedIn(s, t, kind) && (steps == [] || ConfirmedAlong(Apply(s, steps[0]), steps[1..], t, kind))
  }

  lemma ConfirmedStep(s: State, step: Step, t: Task, kind: Kind)
    requires Enabled(s, step) && ConfirmedIn(s, t, kind)
    ensures forall i :: |s.executed| <= i < |Apply(s, step).executed| ==>
              Apply(s, step).executed[i].task != t || Apply(s, step).executed[i].kind != kind
  {
  }

  /** While its confirmation is retained an operation is never executed again, even if the
      database has lost it; a create whose own receipt is lost stays confirmed by the receipt of
      the append. */
  lemma {:induction false} ConfirmedIsNeverRepeated(s: State, steps: seq<Step>, t: Task, kind: Kind)
    requires Runs(s, steps) && ConfirmedAlong(s, steps, t, kind)
    ensures s.executed <= After(s, steps).executed
    ensures forall i :: |s.executed| <= i < |After(s, steps).executed| ==>
              After(s, steps).executed[i].task != t || After(s, steps).executed[i].kind != kind
    decreases |steps|
  {
    hide Apply;
    hide Enabled;
    if steps != [] {
      var s2 := Apply(s, steps[0]);
      ConfirmedStep(s, steps[0], t, kind);
      ExecutedStays(s, steps[0]);
      ConfirmedIsNeverRepeated(s2, steps[1..], t, kind);
      assert forall i :: |s.executed| <= i < |s2.executed| ==> After(s, steps).executed[i] == s2.executed[i];
    }
  }
}
