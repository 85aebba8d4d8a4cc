/** What every run of the mailbox keeps, whatever crashes, lost acknowledgements and
    concurrent writers it contains. */
module MailboxSafety {
  import opened Mailbox

  // ---- at most one execution --------------------------------------------------------------

  /** The handler was entered on node `n` for a task with this id. */
  predicate Ran(entered: seq<Entry>, n: NodeId, id: TaskId) {
    exists i :: 0 <= i < |entered| && entered[i].node == n && entered[i].task.id == id
  }

  predicate AtMostOnce(entered: seq<Entry>) {
    forall i, j :: 0 <= i < j < |entered| ==> entered[i].node != entered[j].node || entered[i].task.id != entered[j].task.id
  }

  /** What the worker holds in memory agrees with what it has on disk. */
  predicate InStep(d: Disk, g: Doing) {
    match g
    case Idle => true
    case Intended(t) =>
      t.id in d.receipts && d.receipts[t.id] == Intent(Sha256(t)) && Canonical(t.id) !in d.outbox
    case Entered(t) =>
      t.id in d.receipts && d.receipts[t.id] == Intent(Sha256(t)) && Canonical(t.id) !in d.outbox
    case Produced(t, _) =>
      t.id in d.receipts && d.receipts[t.id] == Intent(Sha256(t)) && Canonical(t.id) !in d.outbox
    case Stored(t, _) => t.id in d.receipts ==> d.receipts[t.id] == Intent(Sha256(t))
    case Marked(t, r) =>
      Sha256(t) in d.markers && d.markers[Sha256(t)] == Json(r, 0) && r.digest == Sha256(t) && r.status != Succeeded
  }

  ghost predicate Tracked(w: World) {
    && (forall n :: n in w.nodes ==> InStep(w.nodes[n].disk, w.nodes[n].doing))
    && (forall n :: n in w.nodes && w.nodes[n].doing.Intended? ==> !Ran(w.entered, n, w.nodes[n].doing.task.id))
    && (forall i :: 0 <= i < |w.entered| ==>
          w.entered[i].node in w.nodes && w.entered[i].task.id in w.nodes[w.entered[i].node].disk.receipts)
    && AtMostOnce(w.entered)
  }

  /** A worker that was just started has nothing in memory; its disk may hold anything. */
  predicate Started(w: World) {
    w.entered == [] && w.log == [] && forall n :: n in w.nodes ==> w.nodes[n].doing == Idle
  }

  /** The step belongs to the worker `s.node`. */
  predicate ByWorker(s: Step) {
    !s.Sync? && !s.SubmitPush? && !s.ForeignAdd? && !s.ForeignRewrite?
  }

  /** A step touches the disk and memory of its own worker only. */
  lemma NodeFrame(w: World, s: Step)
    requires Enabled(w, s)
    ensures ByWorker(s) ==> s.node in w.nodes
    ensures Apply(w, s).nodes.Keys == w.nodes.Keys
    ensures forall n :: n in w.nodes && !(ByWorker(s) && s.node == n) ==> Apply(w, s).nodes[n] == w.nodes[n]
  {
  }

  /** Only entries into handlers and returns from them are logged. */
  lemma LogFrame(w: World, s: Step)
    requires Enabled(w, s) && (ByWorker(s) ==> s.node in w.nodes)
    ensures s.Enter? ==> w.nodes[s.node].doing.Intended?
    ensures s.Finish? ==> w.nodes[s.node].doing.Entered?
    ensures Apply(w, s).entered ==
              if s.Enter? then w.entered + [Entry(s.node, w.nodes[s.node].doing.task)] else w.entered
    ensures Apply(w, s).log ==
              if s.Finish? then w.log + [Execution(s.node, w.nodes[s.node].doing.task, s.result)] else w.log
  {
  }

  lemma StepFrame(w: World, s: Step)
    requires Enabled(w, s)
    ensures ByWorker(s) ==> s.node in w.nodes
    ensures Apply(w, s).nodes.Keys == w.nodes.Keys
    ensures forall n :: n in w.nodes && !(ByWorker(s) && s.node == n) ==> Apply(w, s).nodes[n] == w.nodes[n]
    ensures s.Enter? ==> w.nodes[s.node].doing.Intended?
    ensures s.Finish? ==> w.nodes[s.node].doing.Entered?
    ensures Apply(w, s).entered ==
              if s.Enter? then w.entered + [Entry(s.node, w.nodes[s.node].doing.task)] else w.entered
    ensures Apply(w, s).log ==
              if s.Finish? then w.log + [Execution(s.node, w.nodes[s.node].doing.task, s.result)] else w.log
  {
    hide Enabled;
    hide Apply;
    NodeFrame(w, s);
    LogFrame(w, s);
  }

  lemma AuditFrame(w: World, s: Step)
    requires Enabled(w, s)
    ensures w.placed <= Apply(w, s).placed
    ensures !s.StoreProduced? && !s.StoreUnknown? && !s.StoreRejection? && !s.Resend? ==> Apply(w, s).placed == w.placed
    ensures ByWorker(s) && s.node in w.nodes && s.node in Apply(w, s).nodes ==>
              Apply(w, s).nodes[s.node].provenance == w.nodes[s.node].provenance
  {
  }

  /** A worker intends a task by writing its intent, and enters the handler of the task it intends. */
  lemma OwnDoing(w: World, s: Step)
    requires Enabled(w, s) && ByWorker(s) && s.node in w.nodes && s.node in Apply(w, s).nodes
    ensures var a, b := w.nodes[s.node], Apply(w, s).nodes[s.node];
            && (b.doing.Intended? ==> s.WriteIntent? && b.doing.task == s.task && s.task.id !in a.disk.receipts)
            && (b.doing.Entered? ==> s.Enter? && a.doing == Intended(b.doing.task))
  {
  }

  /** The steps of publication and of setting aside; the other steps of a worker are those on
      receipts and results. */
  predicate Publishes(s: Step) {
    s.ResultPush? || s.Unlink? || s.QueueCollision? || s.MoveToQuarantine?
    || s.Mark? || s.QueueMark? || s.RequeueMark? || s.AdoptMark?
  }

  /** `b` follows `a` on one node: memory stays in step with the disk, and records climb. */
  predicate KeepsStep(a: Node, b: Node) {
    InStep(b.disk, b.doing) && Climbs(a.disk, b.disk)
  }

  lemma PublishingStep(w: World, s: Step)
    requires Enabled(w, s) && ByWorker(s) && s.node in w.nodes && InStep(w.nodes[s.node].disk, w.nodes[s.node].doing)
    requires s.node in Apply(w, s).nodes && Publishes(s)
    ensures KeepsStep(w.nodes[s.node], Apply(w, s).nodes[s.node])
  {
  }

  lemma ReceivingStep(w: World, s: Step)
    requires Enabled(w, s) && ByWorker(s) && s.node in w.nodes && InStep(w.nodes[s.node].disk, w.nodes[s.node].doing)
    requires s.node in Apply(w, s).nodes && !Publishes(s)
    ensures KeepsStep(w.nodes[s.node], Apply(w, s).nodes[s.node])
  {
  }

  lemma OwnStep(w: World, s: Step)
    requires Enabled(w, s) && ByWorker(s) && s.node in w.nodes && InStep(w.nodes[s.node].disk, w.nodes[s.node].doing)
    requires s.node in Apply(w, s).nodes
    ensures KeepsStep(w.nodes[s.node], Apply(w, s).nodes[s.node])
  {
    hide Enabled;
    hide Apply;
    hide KeepsStep;
    if Publishes(s) {
      PublishingStep(w, s);
    } else {
      ReceivingStep(w, s);
    }
  }

  /** Every conflict record that a worker queues is one its own validation accepts: it names the
      task it is filed under and never reports success; and a record made for a marker is that
      marker. */
  lemma QueuedConflictIsValid(w: World, s: Step, d: Digest)
    requires Enabled(w, s) && (s.QueueCollision? || s.QueueMark? || s.RequeueMark?)
    requires InStep(w.nodes[s.node].disk, w.nodes[s.node].doing) && s.node in Apply(w, s).nodes
    requires Conflict(d) in Apply(w, s).nodes[s.node].disk.outbox
    requires Conflict(d) in w.nodes[s.node].disk.outbox ==>
               Apply(w, s).nodes[s.node].disk.outbox[Conflict(d)] != w.nodes[s.node].disk.outbox[Conflict(d)]
    ensures var b := Apply(w, s).nodes[s.node].disk.outbox[Conflict(d)];
            && OutboxValid(Conflict(d), b)
            && (!s.QueueCollision? ==> d in w.nodes[s.node].disk.markers
                                       && w.nodes[s.node].disk.markers[d].Json? && w.nodes[s.node].disk.markers[d].result == b.result)
  {
  }

  lemma IntentIsKept(d: Disk, g: Doing)
    requires InStep(d, g) && g.Intended?
    ensures g.task.id in d.receipts
  {
  }

  lemma TrackedStep(w: World, s: Step)
    requires Tracked(w) && Enabled(w, s)
    ensures Tracked(Apply(w, s))
  {
    hide Enabled;
    hide Apply;
    hide InStep;
    hide ReceiptClimbs;
    StepFrame(w, s);
    if ByWorker(s) {
      OwnStep(w, s);
      OwnDoing(w, s);
    }
    var w' := Apply(w, s);
    forall n | n in w'.nodes && w'.nodes[n].doing.Intended? ensures !Ran(w'.entered, n, w'.nodes[n].doing.task.id) {
      var id := w'.nodes[n].doing.task.id;
      if ByWorker(s) && s.node == n {
        assert id !in w.nodes[n].disk.receipts;
        assert !Ran(w.entered, n, id);
      }
    }
    if s.Enter? {
      assert !Ran(w.entered, s.node, w.nodes[s.node].doing.task.id);
      IntentIsKept(w.nodes[s.node].disk, w.nodes[s.node].doing);
    }
  }

  lemma {:induction false} TrackedRun(w: World, steps: seq<Step>)
    requires Tracked(w) && Runs(w, steps)
    ensures Tracked(After(w, steps))
    decreases |steps|
  {
    if steps != [] {
      TrackedStep(w, steps[0]);
      TrackedRun(Apply(w, steps[0]), steps[1..]);
    }
  }

  /** Over every run, crashes and any change of the branch included, the handler is entered
      at most once per task id and state root, even when the id comes back with another
      digest; and never without a receipt that bars the next attempt. */
  lemma ExecutedAtMostOnce(w: World, steps: seq<Step>)
    requires Started(w) && Runs(w, steps)
    ensures AtMostOnce(After(w, steps).entered)
    ensures forall e :: e in After(w, steps).entered ==>
              e.node in After(w, steps).nodes && e.task.id in After(w, steps).nodes[e.node].disk.receipts
  {
    TrackedRun(w, steps);
  }

  // ---- what handlers return -----------------------------------------------------------------

  predicate Answered(log: seq<Execution>, n: NodeId, id: TaskId) {
    exists i :: 0 <= i < |log| && log[i].node == n && log[i].task.id == id
  }

  /** Every return belongs to one entry, and no entry returns twice. */
  ghost predicate Matched(w: World) {
    && (forall i :: 0 <= i < |w.log| ==> Entry(w.log[i].node, w.log[i].task) in w.entered)
    && (forall i, j :: 0 <= i < j < |w.log| ==> w.log[i].node != w.log[j].node || w.log[i].task.id != w.log[j].task.id)
    && (forall n :: n in w.nodes && w.nodes[n].doing.Entered? ==>
          Entry(n, w.nodes[n].doing.task) in w.entered && !Answered(w.log, n, w.nodes[n].doing.task.id))
  }

  lemma MatchedStep(w: World, s: Step)
    requires Tracked(w) && Matched(w) && Enabled(w, s)
    ensures Matched(Apply(w, s))
  {
    hide Enabled;
    hide Apply;
    StepFrame(w, s);
    if ByWorker(s) {
      OwnDoing(w, s);
    }
    var w' := Apply(w, s);
    forall n | n in w'.nodes && w'.nodes[n].doing.Entered?
      ensures Entry(n, w'.nodes[n].doing.task) in w'.entered && !Answered(w'.log, n, w'.nodes[n].doing.task.id)
    {
      if ByWorker(s) && s.node == n {
        var t := w'.nodes[n].doing.task;
        assert !Ran(w.entered, n, t.id);
        assert w'.entered[|w.entered|] == Entry(n, t);
      }
    }
  }

  // ---- local records only climb -------------------------------------------------------------

  predicate ReceiptClimbs(a: Receipt, b: Receipt) {
    a == b || (a.Intent? && b.Done? && a.digest == b.digest)
  }

  predicate Climbs(d: Disk, d': Disk) {
    && (forall id :: id in d.receipts ==> id in d'.receipts && ReceiptClimbs(d.receipts[id], d'.receipts[id]))
    && (forall k :: k in d.markers ==> k in d'.markers && d'.markers[k] == d.markers[k])
    && (forall q :: q in d.quarantine ==> q in d'.quarantine && d'.quarantine[q] == d.quarantine[q])
  }

  lemma ClimbsStep(w: World, s: Step, n: NodeId)
    requires Tracked(w) && Enabled(w, s) && n in w.nodes
    ensures n in Apply(w, s).nodes && Climbs(w.nodes[n].disk, Apply(w, s).nodes[n].disk)
  {
    hide Enabled;
    hide Apply;
    StepFrame(w, s);
    if ByWorker(s) {
      OwnStep(w, s);
    }
  }

  /** Over every run a receipt goes absent, intent, result; a stored result, a broken receipt,
      a conflict marker and a quarantined file are never rewritten or removed. */
  lemma {:induction false} RecordsOnlyClimb(w: World, steps: seq<Step>, n: NodeId)
    requires Tracked(w) && Runs(w, steps) && n in w.nodes
    ensures n in After(w, steps).nodes && Climbs(w.nodes[n].disk, After(w, steps).nodes[n].disk)
    decreases |steps|
  {
    if steps != [] {
      TrackedStep(w, steps[0]);
      ClimbsStep(w, steps[0], n);
      RecordsOnlyClimb(Apply(w, steps[0]), steps[1..], n);
    }
  }

  // ---- the branch only grows ------------------------------------------------------------------

  /** Each checkout is the branch at some earlier commit, and commits are never reused. */
  ghost predicate Behind(w: World) {
    forall p :: p in w.clones ==>
      && w.clones[p].head <= w.remote.head
      && (w.clones[p].head == w.remote.head ==> w.clones[p] == w.remote)
      && Extends(w.clones[p], w.remote)
  }

  predicate FastForwardOnly(steps: seq<Step>) {
    forall i :: 0 <= i < |steps| ==> !steps[i].ForeignRewrite?
  }

  predicate Moved(w: World, w': World) {
    && (w'.remote == w.remote || (w'.remote.head == w.remote.head + 1 && Extends(w.remote, w'.remote)))
    && w'.clones.Keys == w.clones.Keys
    && forall p :: p in w.clones ==> w'.clones[p] == w.clones[p] || w'.clones[p] == w'.remote
  }

  lemma LocalStep(w: World, s: Step)
    requires Enabled(w, s) && !s.Sync? && !s.SubmitPush? && !s.ResultPush? && !s.ForeignAdd? && !s.ForeignRewrite?
    ensures Apply(w, s).remote == w.remote && Apply(w, s).clones == w.clones
  {
  }

  lemma AcceptedPush(w: World, s: Step)
    requires Behind(w) && Enabled(w, s) && (s.SubmitPush? || s.ResultPush?)
    ensures Moved(w, Apply(w, s))
  {
    var p := if s.SubmitPush? then Controller(s.number) else Worker(s.node);
    assert w.clones[p] == w.remote;
  }

  /** A step either leaves the branch alone or adds one commit to it; a checkout stays or
      moves to the new branch. */
  lemma BranchFrame(w: World, s: Step)
    requires Behind(w) && Enabled(w, s) && !s.ForeignRewrite?
    ensures Moved(w, Apply(w, s))
  {
    if s.SubmitPush? || s.ResultPush? {
      AcceptedPush(w, s);
    } else if !s.Sync? && !s.ForeignAdd? {
      hide Apply;
      LocalStep(w, s);
    }
  }

  lemma GrowsStep(w: World, s: Step)
    requires Behind(w) && Enabled(w, s) && !s.ForeignRewrite?
    ensures Behind(Apply(w, s)) && Extends(w.remote, Apply(w, s).remote)
  {
    hide Enabled;
    hide Apply;
    BranchFrame(w, s);
    var w' := Apply(w, s);
    forall p | p in w'.clones
      ensures w'.clones[p].head <= w'.remote.head && Extends(w'.clones[p], w'.remote)
      ensures w'.clones[p].head == w'.remote.head ==> w'.clones[p] == w'.remote
    {
      if w'.clones[p] != w'.remote {
        assert w'.clones[p] == w.clones[p];
      }
    }
  }

  /** With any number of workers and controllers pushing concurrently, retrying and losing
      acknowledgements, no accepted push alters or removes a record. */
  lemma {:induction false} BranchOnlyGrows(w: World, steps: seq<Step>)
    requires Behind(w) && Runs(w, steps) && FastForwardOnly(steps)
    ensures Behind(After(w, steps)) && Extends(w.remote, After(w, steps).remote)
    decreases |steps|
  {
    if steps != [] {
      GrowsStep(w, steps[0]);
      BranchOnlyGrows(Apply(w, steps[0]), steps[1..]);
    }
  }

  /** So a task id is bound to one digest forever. */
  lemma TaskIdBoundForever(w: World, steps: seq<Step>, id: TaskId)
    requires Behind(w) && Runs(w, steps) && FastForwardOnly(steps) && id in w.remote.tasks
    ensures id in After(w, steps).remote.tasks && After(w, steps).remote.tasks[id] == w.remote.tasks[id]
  {
    BranchOnlyGrows(w, steps);
  }

  // ---- no published evidence is lost ----------------------------------------------------------

  /** Where a canonical result that once was in an outbox is now. */
  ghost predicate Preserved(w: World, p: Placement) {
    && p.node in w.nodes
    && var d := w.nodes[p.node].disk;
       || (Canonical(p.id) in d.outbox && d.outbox[Canonical(p.id)] == Json(p.result, 0))
       || (p.id in w.remote.results && w.remote.results[p.id].Json? && w.remote.results[p.id].result == p.result)
       || (exists q :: q in d.quarantine && q.name == Canonical(p.id) && d.quarantine[q] == Json(p.result, 0))
  }

  ghost predicate AllPreserved(w: World) {
    forall p :: p in w.placed ==> Preserved(w, p)
  }

  /** A canonical outbox file stays, is on the branch, or moves to quarantine. */
  lemma OutboxStep(w: World, s: Step, n: NodeId, id: TaskId)
    requires Tracked(w) && Behind(w) && Enabled(w, s) && n in w.nodes && Canonical(id) in w.nodes[n].disk.outbox
    requires n in Apply(w, s).nodes
    ensures var b := w.nodes[n].disk.outbox[Canonical(id)];
            var d' := Apply(w, s).nodes[n].disk;
            || (Canonical(id) in d'.outbox && d'.outbox[Canonical(id)] == b)
            || (b.Json? && id in w.remote.results && w.remote.results[id].Json? && w.remote.results[id].result == b.result)
            || (s.MoveToQuarantine? && QuarantineName(Canonical(id), s.reason, s.index) in d'.quarantine
                && d'.quarantine[QuarantineName(Canonical(id), s.reason, s.index)] == b)
  {
    assert InStep(w.nodes[n].disk, w.nodes[n].doing);
    assert Worker(n) in w.clones ==> Extends(w.clones[Worker(n)], w.remote);
    hide Tracked;
    hide Behind;
    if !(ByWorker(s) && s.node == n) {
      hide Enabled;
      hide Apply;
      StepFrame(w, s);
    } else if !Publishes(s) {
      hide Enabled;
      hide Apply;
      CanonicalStays(w, s, id);
    }
  }

  /** Outside publication a canonical outbox file is left as it is. */
  lemma CanonicalStays(w: World, s: Step, id: TaskId)
    requires Enabled(w, s) && ByWorker(s) && !Publishes(s) && s.node in w.nodes && s.node in Apply(w, s).nodes
    requires InStep(w.nodes[s.node].disk, w.nodes[s.node].doing) && Canonical(id) in w.nodes[s.node].disk.outbox
    ensures Canonical(id) in Apply(w, s).nodes[s.node].disk.outbox
    ensures Apply(w, s).nodes[s.node].disk.outbox[Canonical(id)] == w.nodes[s.node].disk.outbox[Canonical(id)]
  {
  }

  lemma PreservedStep(w: World, s: Step, p: Placement)
    requires Tracked(w) && Behind(w) && Enabled(w, s) && !s.ForeignRewrite? && Preserved(w, p)
    ensures Preserved(Apply(w, s), p)
  {
    hide Enabled;
    hide Apply;
    GrowsStep(w, s);
    ClimbsStep(w, s, p.node);
    var d, d' := w.nodes[p.node].disk, Apply(w, s).nodes[p.node].disk;
    if exists q :: q in d.quarantine && q.name == Canonical(p.id) && d.quarantine[q] == Json(p.result, 0) {
      var q :| q in d.quarantine && q.name == Canonical(p.id) && d.quarantine[q] == Json(p.result, 0);
      assert q in d'.quarantine && d'.quarantine[q] == Json(p.result, 0);
    } else if Canonical(p.id) in d.outbox && d.outbox[Canonical(p.id)] == Json(p.result, 0) {
      OutboxStep(w, s, p.node, p.id);
    }
  }

  lemma PlacedStep(w: World, s: Step, p: Placement)
    requires Enabled(w, s) && p in Apply(w, s).placed && p !in w.placed
    ensures Preserved(Apply(w, s), p)
  {
  }

  /** Conservation of evidence: over every run without history rewriting, each canonical
      result ever put in an outbox is still in that outbox, or on the branch with the same
      canonical JSON, or in quarantine. */
  lemma {:induction false} EvidenceIsConserved(w: World, steps: seq<Step>)
    requires Tracked(w) && Behind(w) && AllPreserved(w) && Runs(w, steps) && FastForwardOnly(steps)
    ensures AllPreserved(After(w, steps))
    decreases |steps|
  {
    if steps != [] {
      var s := steps[0];
      TrackedStep(w, s);
      GrowsStep(w, s);
      forall p | p in Apply(w, s).placed ensures Preserved(Apply(w, s), p) {
        if p in w.placed {
          PreservedStep(w, s, p);
        } else {
          PlacedStep(w, s, p);
        }
      }
      EvidenceIsConserved(Apply(w, s), steps[1..]);
    }
  }
}
