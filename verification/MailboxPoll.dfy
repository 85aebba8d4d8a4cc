/** What one poll of a worker achieves: the relation between the world before and after it
    that every step keeps, and what it amounts to for tasks without foreign writers. */
module MailboxPoll {
  import opened Mailbox
  import opened MailboxSafety
  import opened MailboxClosed
  import opened MailboxRecovery

  /** A conflict about `d` is on record: marked, published, queued or quarantined. */
  ghost predicate Aside(w: World, n: NodeId, d: Digest) {
    && HasNode(w, n)
    && (|| d in w.nodes[n].disk.markers
        || d in w.clones[Worker(n)].conflicts
        || Conflict(d) in w.nodes[n].disk.outbox
        || exists q :: q in w.nodes[n].disk.quarantine && q.name == Conflict(d))
  }

  /** The worker's checkout shows `r` as the canonical result, or a conflict is on record. */
  ghost predicate Landed(w: World, n: NodeId, id: TaskId, r: Result) {
    && HasNode(w, n)
    && (|| Aside(w, n, r.digest)
        || (var c := w.clones[Worker(n)];
            id in c.results && c.results[id].Json? && c.results[id].result == r))
  }

  /** Nothing is left to do for `t`: receipt and published result agree, or a conflict is on
      record. */
  ghost predicate Handled(w: World, n: NodeId, t: Task) {
    && HasNode(w, n)
    && (|| Aside(w, n, Sha256(t))
        || (var d := w.nodes[n].disk;
            && t.id in d.receipts && d.receipts[t.id].Done? && d.receipts[t.id].digest == Sha256(t)
            && d.receipts[t.id].result.digest == Sha256(t)
            && Landed(w, n, t.id, d.receipts[t.id].result)))
  }

  /** No canonical result waits to be sent. */
  ghost predicate Sent(w: World, n: NodeId) {
    HasNode(w, n) && forall id :: Canonical(id) !in w.nodes[n].disk.outbox
  }

  /** `b` is later than `a` as node `n` sees it. */
  ghost predicate Onward(a: World, b: World, n: NodeId) {
    && HasNode(a, n) && HasNode(b, n)
    && Extends(a.remote, b.remote) && Extends(a.clones[Worker(n)], b.clones[Worker(n)])
    && Climbs(a.nodes[n].disk, b.nodes[n].disk) && a.placed <= b.placed
    && forall d :: Aside(a, n, d) ==> Aside(b, n, d)
  }

  lemma OnwardReflexive(w: World, n: NodeId)
    requires HasNode(w, n)
    ensures Onward(w, w, n)
  {
  }

  lemma OnwardTransitive(a: World, b: World, c: World, n: NodeId)
    requires Onward(a, b, n) && Onward(b, c, n)
    ensures Onward(a, c, n)
  {
  }

  lemma OnwardKeeps(a: World, b: World, n: NodeId)
    requires Onward(a, b, n)
    ensures forall id, r :: Landed(a, n, id, r) ==> Landed(b, n, id, r)
    ensures forall t :: Handled(a, n, t) ==> Handled(b, n, t)
    ensures forall t :: Seen(a.clones[Worker(n)], n, t) ==> Seen(b.clones[Worker(n)], n, t)
  {
    hide Aside;
  }

  lemma RemoteOnward(a: World, b: World, n: NodeId)
    requires Onward(a, b, n)
    ensures Extends(a.remote, b.remote)
  {
  }

  lemma SentAgain(a: World, b: World, n: NodeId)
    requires Sent(a, n) && HasNode(b, n) && b.nodes[n] == a.nodes[n]
    ensures Sent(b, n)
  {
  }

  /** A queued conflict stays, is published, or moves to quarantine. */
  lemma QueuedConflictStep(w: World, s: Step, d: Digest)
    requires Enabled(w, s) && ByWorker(s) && HasNode(w, s.node) && s.node in Apply(w, s).nodes
    requires Conflict(d) in w.nodes[s.node].disk.outbox
    ensures var d' := Apply(w, s).nodes[s.node].disk;
            || Conflict(d) in d'.outbox
            || d in w.clones[Worker(s.node)].conflicts
            || (s.MoveToQuarantine? && s.name == Conflict(d) && QuarantineName(s.name, s.reason, s.index) in d'.quarantine)
  {
  }

  lemma CheckoutOnward(w: World, s: Step, n: NodeId)
    requires Behind(w) && Enabled(w, s) && !s.ForeignRewrite? && HasNode(w, n)
    ensures HasNode(Apply(w, s), n) && Extends(w.clones[Worker(n)], Apply(w, s).clones[Worker(n)])
  {
    hide Enabled;
    hide Apply;
    BranchFrame(w, s);
    StepFrame(w, s);
  }

  lemma AsideStep(w: World, s: Step, n: NodeId, d: Digest)
    requires Tracked(w) && Behind(w) && Enabled(w, s) && !s.ForeignRewrite? && Aside(w, n, d)
    ensures Aside(Apply(w, s), n, d)
  {
    hide Enabled;
    hide Apply;
    CheckoutOnward(w, s, n);
    ClimbsStep(w, s, n);
    StepFrame(w, s);
    hide Tracked;
    hide Behind;
    if exists q :: q in w.nodes[n].disk.quarantine && q.name == Conflict(d) {
      var q :| q in w.nodes[n].disk.quarantine && q.name == Conflict(d);
      assert q in Apply(w, s).nodes[n].disk.quarantine;
    } else if Conflict(d) in w.nodes[n].disk.outbox && ByWorker(s) && s.node == n {
      QueuedConflictStep(w, s, d);
    }
  }

  lemma OnwardStep(w: World, s: Step, n: NodeId)
    requires Tracked(w) && Behind(w) && Enabled(w, s) && !s.ForeignRewrite? && HasNode(w, n)
    ensures Onward(w, Apply(w, s), n)
  {
    hide Enabled;
    hide Apply;
    CheckoutOnward(w, s, n);
    ClimbsStep(w, s, n);
    GrowsStep(w, s);
    AuditFrame(w, s);
    hide Tracked;
    hide Behind;
    forall d | Aside(w, n, d) ensures Aside(Apply(w, s), n, d) {
      AsideStep(w, s, n, d);
    }
  }

  /** The step is taken by somebody other than the worker of node `n`. */
  predicate ByOther(s: Step, n: NodeId) {
    !(ByWorker(s) && s.node == n) && s != Sync(Worker(n))
  }

  /** A step of anyone else leaves the node and its checkout alone. */
  lemma OtherStep(w: World, s: Step, n: NodeId)
    requires Enabled(w, s) && HasNode(w, n) && ByOther(s, n)
    ensures HasNode(Apply(w, s), n)
    ensures Apply(w, s).nodes[n] == w.nodes[n] && Apply(w, s).clones[Worker(n)] == w.clones[Worker(n)]
  {
    StepFrame(w, s);
    if !s.Sync? && !s.SubmitPush? && !s.ResultPush? && !s.ForeignAdd? && !s.ForeignRewrite? {
      hide Enabled;
      hide Apply;
      LocalStep(w, s);
    }
  }

  // ---- tasks without foreign writers ------------------------------------------------------

  /** Without foreign writers no conflict is ever on record, so a handled task is settled. */
  lemma HandledIsSettled(own: Ids, w: World, n: NodeId, t: Task)
    requires Closed(own, w) && Handled(w, n, t) && Sent(w, n) && t.id in own
    ensures Settled(w, n, t)
  {
    hide Closed;
    hide Aside;
    NeverAside(own, w, n, Sha256(t));
    ClosedParts(own, w);
    hide Tracked;
    hide Matched;
    assert Extends(w.clones[Worker(n)], w.remote);
  }

  lemma NeverAside(own: Ids, w: World, n: NodeId, d: Digest)
    requires Closed(own, w) && HasNode(w, n) && d.task.id in own
    ensures !Aside(w, n, d)
  {
    assert NodeOk(own, w, n);
    NoBarrier(own, w, n, d);
    hide Closed;
  }

  lemma {:induction false} LostStaysLost(own: Ids, w: World, steps: seq<Step>, n: NodeId, t: Task)
    requires Closed(own, w) && Runs(w, steps) && Guarded(own, w, steps) && HasNode(w, n) && t.id in own
    ensures Closed(own, After(w, steps)) && w.placed <= After(w, steps).placed
    ensures n in After(w, steps).nodes && After(w, steps).nodes[n].provenance == w.nodes[n].provenance
    ensures OutcomeLost(w, n, t) ==> OutcomeLost(After(w, steps), n, t)
    decreases |steps|
  {
    hide Enabled;
    hide Apply;
    hide Closed;
    hide OutcomeLost;
    hide Untouched;
    if steps != [] {
      var w' := Apply(w, steps[0]);
      ClosedStep(own, w, steps[0]);
      StepIsLater(own, w, steps[0]);
      ClosedHasNode(own, w', n);
      if OutcomeLost(w, n, t) {
        OutcomeLostStep(own, w, steps[0], n, t);
      }
      LostStaysLost(own, w', steps[1..], n, t);
    }
  }

  /** Once receipt and branch agree on a result for such a task, they agree on it for ever. */
  lemma {:induction false} SettledForEver(own: Ids, w: World, steps: seq<Step>, n: NodeId, t: Task)
    requires Closed(own, w) && Runs(w, steps) && Guarded(own, w, steps) && Settled(w, n, t) && t.id in own
    ensures Settled(After(w, steps), n, t)
    ensures After(w, steps).remote.results[t.id].result == w.remote.results[t.id].result
    ensures After(w, steps).nodes[n].disk.receipts[t.id] == w.nodes[n].disk.receipts[t.id]
    decreases |steps|
  {
    hide Enabled;
    hide Apply;
    hide Closed;
    hide Settled;
    hide Untouched;
    if steps != [] {
      var w' := Apply(w, steps[0]);
      ClosedStep(own, w, steps[0]);
      SettledStep(own, w, steps[0], n, t);
      SettledForEver(own, w', steps[1..], n, t);
    }
  }

  lemma ClosedHasNode(own: Ids, w: World, n: NodeId)
    requires Closed(own, w) && n in w.nodes
    ensures HasNode(w, n)
  {
    assert NodeOk(own, w, n);
  }

  /** Receipt and branch agree on one result for `t` in `w'`.  It is the result that had
      reached the outbox by `w`, if any had; and if in `w` the worker had crashed between the
      intent and the outbox write, it is `outcome_unknown` and not a success. */
  ghost predicate Honest(w: World, w': World, n: NodeId, t: Task) {
    && HasNode(w, n) && Settled(w', n, t)
    && (forall r :: Placement(n, t.id, r) in w.placed ==> w'.remote.results[t.id].result == r)
    && (IsIdle(w, n) && t.id in w.nodes[n].disk.receipts && w.nodes[n].disk.receipts[t.id] == Intent(Sha256(t))
        && NotPlaced(w, n, t.id) ==>
          w'.remote.results[t.id].result == Unknown(t, n, w.nodes[n].provenance))
  }

  /** Take any state, however many crashes lie behind it, and any continuation in which nobody
      else writes about `t` and which ends with `t` handled and the outbox sent: the recovery is
      honest. */
  lemma PollIsHonest(own: Ids, w: World, steps: seq<Step>, n: NodeId, t: Task)
    requires Closed(own, w) && HasNode(w, n) && Runs(w, steps) && Guarded(own, w, steps) && t.id in own
    requires Handled(After(w, steps), n, t) && Sent(After(w, steps), n)
    ensures Honest(w, After(w, steps), n, t)
  {
    hide Enabled;
    hide Apply;
    hide Closed;
    var w' := After(w, steps);
    LostStaysLost(own, w, steps, n, t);
    HandledIsSettled(own, w', n, t);
    SettledIsHonest(own, w, w', n, t);
    if IsIdle(w, n) && t.id in w.nodes[n].disk.receipts && w.nodes[n].disk.receipts[t.id] == Intent(Sha256(t))
       && NotPlaced(w, n, t.id) {
      CrashLosesOutcome(own, w, n, t);
    }
  }

  lemma {:induction false} SplitRun(own: Ids, w: World, steps: seq<Step>, k: nat)
    requires Runs(w, steps) && Guarded(own, w, steps) && k <= |steps|
    ensures Runs(w, steps[..k]) && Guarded(own, w, steps[..k])
    ensures Runs(After(w, steps[..k]), steps[k..]) && Guarded(own, After(w, steps[..k]), steps[k..])
    ensures After(After(w, steps[..k]), steps[k..]) == After(w, steps)
    decreases |steps|
  {
    hide Enabled;
    hide Apply;
    hide Allowed;
    if k == 0 {
      assert steps[..0] == [] && steps[0..] == steps;
    } else {
      SplitRun(own, Apply(w, steps[0]), steps[1..], k - 1);
      assert steps[..k][0] == steps[0] && steps[..k][1..] == steps[1..][..k - 1];
      assert steps[1..][k - 1..] == steps[k..];
    }
  }

  /** Over a whole run from empty state roots: whatever happened up to `k`, crashes included. */
  lemma RecoveryIsHonest(own: Ids, w: World, steps: seq<Step>, k: nat, n: NodeId, t: Task)
    requires FreshSystem(own, w) && Runs(w, steps) && Guarded(own, w, steps) && k <= |steps| && t.id in own
    requires Runs(w, steps[..k]) && HasNode(After(w, steps[..k]), n)
    requires Handled(After(w, steps), n, t) && Sent(After(w, steps), n)
    ensures Honest(After(w, steps[..k]), After(w, steps), n, t)
  {
    hide Enabled;
    hide Apply;
    hide Closed;
    hide Honest;
    hide Handled;
    hide FreshSystem;
    hide Guarded;
    hide Sent;
    hide Runs;
    hide After;
    FreshIsClosed(own, w);
    SplitRun(own, w, steps, k);
    ClosedRun(own, w, steps[..k]);
    PollIsHonest(own, After(w, steps[..k]), steps[k..], n, t);
  }
}
