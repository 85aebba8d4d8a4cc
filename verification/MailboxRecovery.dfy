/** What a completed poll leaves behind for tasks without foreign writers, and why it is honest
    about work that a crash interrupted. */
module MailboxRecovery {
  import opened Mailbox
  import opened MailboxSafety
  import opened MailboxClosed

  /** Receipt and branch hold one and the same result for `t`, and nothing is left to send. */
  ghost predicate Settled(w: World, n: NodeId, t: Task) {
    && HasNode(w, n)
    && var d := w.nodes[n].disk;
       && t.id in d.receipts && d.receipts[t.id].Done? && d.receipts[t.id].digest == Sha256(t)
       && t.id in w.remote.results && w.remote.results[t.id].Json?
       && w.remote.results[t.id].result == d.receipts[t.id].result
       && Canonical(t.id) !in d.outbox
       && t.id in w.clones[Worker(n)].results
  }

  /** The intent for `t` was written, its handler is not running any more, and nothing but
      `outcome_unknown` was ever stored for it. */
  ghost predicate OutcomeLost(w: World, n: NodeId, t: Task) {
    && HasNode(w, n) && t.id in w.nodes[n].disk.receipts
    && (forall p :: p in w.placed && p.node == n && p.id == t.id ==> p.result == Unknown(t, n, w.nodes[n].provenance))
    && (w.nodes[n].doing.Intended? || w.nodes[n].doing.Entered? || w.nodes[n].doing.Produced? ==>
          w.nodes[n].doing.task.id != t.id)
    && Bound(w, n, t.id) && TaskOf(w, t.id) == t
  }

  /** Only a step that places a result, or sends a stored one again, adds a canonical name. */
  lemma CanonicalAdded(w: World, s: Step, id: TaskId)
    requires Enabled(w, s) && ByWorker(s) && s.node in w.nodes && s.node in Apply(w, s).nodes
    requires Canonical(id) !in w.nodes[s.node].disk.outbox && Canonical(id) in Apply(w, s).nodes[s.node].disk.outbox
    ensures (Places(s) || s.Resend?) && Subject(w, s) == id
  {
  }

  /** Once placed, a task's result is never placed again. */
  lemma NoNewCanonical(own: Ids, w: World, s: Step, n: NodeId, id: TaskId)
    requires Closed(own, w) && Enabled(w, s) && !s.ForeignRewrite? && HasNode(w, n) && id in own
    requires n in Apply(w, s).nodes
    requires Canonical(id) !in w.nodes[n].disk.outbox && Canonical(id) in Apply(w, s).nodes[n].disk.outbox
    ensures Places(s) && s.node == n && NotPlaced(w, n, id)
  {
    hide Enabled;
    hide Apply;
    hide Closed;
    hide PlacementOk;
    StepFrame(w, s);
    CanonicalAdded(w, s, id);
    if s.Resend? {
      Impossible(own, w, s);
    } else {
      var p := NewPlacement(own, w, s);
    }
  }

  lemma SettledIsPlaced(own: Ids, w: World, n: NodeId, t: Task)
    requires Closed(own, w) && Settled(w, n, t) && t.id in own
    ensures !NotPlaced(w, n, t.id)
  {
    assert NodeOk(own, w, n);
    hide Closed;
    assert Placement(n, t.id, w.nodes[n].disk.receipts[t.id].result) in w.placed;
  }

  /** The outbox of a settled task stays clear of it. */
  lemma SettledStaysSent(own: Ids, w: World, s: Step, n: NodeId, t: Task)
    requires Closed(own, w) && Enabled(w, s) && !s.ForeignRewrite? && Settled(w, n, t) && t.id in own
    requires n in Apply(w, s).nodes
    ensures Canonical(t.id) !in Apply(w, s).nodes[n].disk.outbox
  {
    hide Enabled;
    hide Apply;
    hide Closed;
    SettledIsPlaced(own, w, n, t);
    if Canonical(t.id) in Apply(w, s).nodes[n].disk.outbox {
      NoNewCanonical(own, w, s, n, t.id);
    }
  }

  lemma SettledStep(own: Ids, w: World, s: Step, n: NodeId, t: Task)
    requires Closed(own, w) && Enabled(w, s) && !s.ForeignRewrite? && Settled(w, n, t) && t.id in own
    ensures Settled(Apply(w, s), n, t)
    ensures Apply(w, s).remote.results[t.id].result == w.remote.results[t.id].result
    ensures Apply(w, s).nodes[n].disk.receipts[t.id] == w.nodes[n].disk.receipts[t.id]
  {
    hide Enabled;
    hide Apply;
    hide Closed;
    hide Tracked;
    hide Matched;
    hide Behind;
    ClosedParts(own, w);
    NodeFrame(w, s);
    GrowsStep(w, s);
    ClimbsStep(w, s, n);
    CheckoutGrows(w, s, Worker(n));
    SettledStaysSent(own, w, s, n, t);
  }

  lemma LostDoing(w: World, s: Step, n: NodeId, t: Task)
    requires Enabled(w, s) && OutcomeLost(w, n, t) && n in Apply(w, s).nodes
    ensures var g := Apply(w, s).nodes[n].doing; g.Intended? || g.Entered? || g.Produced? ==> g.task.id != t.id
  {
    if !(ByWorker(s) && s.node == n) {
      hide Enabled;
      hide Apply;
      StepFrame(w, s);
    }
  }

  /** What is placed when an outcome is lost. */
  lemma PlacedWhenLost(w: World, s: Step, n: NodeId, t: Task, p: Placement)
    requires Enabled(w, s) && HasNode(w, n) && t.id in w.nodes[n].disk.receipts
    requires w.nodes[n].doing.Produced? ==> w.nodes[n].doing.task.id != t.id
    requires p in Apply(w, s).placed && p !in w.placed && p.node == n && p.id == t.id
    ensures s.StoreUnknown? || s.Resend?
    ensures s.StoreUnknown? ==> s.node == n && s.task.id == t.id && p.result == Unknown(s.task, n, w.nodes[n].provenance)
  {
    if !Places(s) && !s.Resend? {
      hide Enabled;
      hide Apply;
      AuditFrame(w, s);
    }
  }

  lemma LostPlacement(own: Ids, w: World, s: Step, n: NodeId, t: Task, p: Placement)
    requires Closed(own, w) && Enabled(w, s) && OutcomeLost(w, n, t) && t.id in own
    requires p in Apply(w, s).placed && p !in w.placed && p.node == n && p.id == t.id
    ensures p.result == Unknown(t, n, w.nodes[n].provenance)
  {
    hide Apply;
    ClosedParts(own, w);
    PlacedWhenLost(w, s, n, t, p);
    PlacedSubject(w, s, p);
    hide Tracked;
    hide Closed;
    if s.Resend? {
      Impossible(own, w, s);
    } else {
      SeenIsBound(own, w, s.node, s.task);
    }
  }

  lemma OutcomeLostStep(own: Ids, w: World, s: Step, n: NodeId, t: Task)
    requires Closed(own, w) && Enabled(w, s) && !s.ForeignRewrite? && OutcomeLost(w, n, t) && t.id in own
    ensures OutcomeLost(Apply(w, s), n, t)
  {
    hide Enabled;
    hide Apply;
    ClosedParts(own, w);
    StepIsLater(own, w, s);
    ClimbsStep(w, s, n);
    CheckoutGrows(w, s, Worker(n));
    LostDoing(w, s, n, t);
    hide Closed;
    hide Tracked;
    hide Behind;
    forall p | p in Apply(w, s).placed && p.node == n && p.id == t.id
      ensures p.result == Unknown(t, n, w.nodes[n].provenance)
    {
      if p !in w.placed {
        LostPlacement(own, w, s, n, t, p);
      }
    }
  }

  /** A crash after the intent and before the outbox write loses the outcome. */
  lemma CrashLosesOutcome(own: Ids, w: World, n: NodeId, t: Task)
    requires Closed(own, w) && IsIdle(w, n) && t.id in w.nodes[n].disk.receipts && t.id in own
    requires w.nodes[n].disk.receipts[t.id] == Intent(Sha256(t)) && NotPlaced(w, n, t.id)
    ensures OutcomeLost(w, n, t)
  {
    assert NodeOk(own, w, n);
  }

  /** Honest recovery: what a settled task shows is the result that reached the outbox before
      the crash, or `outcome_unknown` when none did. */
  lemma SettledIsHonest(own: Ids, w0: World, w: World, n: NodeId, t: Task)
    requires Closed(own, w) && Settled(w, n, t) && w0.placed <= w.placed && t.id in own
    ensures forall r :: Placement(n, t.id, r) in w0.placed ==> w.remote.results[t.id].result == r
    ensures OutcomeLost(w, n, t) ==> w.remote.results[t.id].result == Unknown(t, n, w.nodes[n].provenance)
  {
    assert NodeOk(own, w, n);
    var r := w.remote.results[t.id].result;
    assert Placement(n, t.id, r) in w.placed;
    forall r2 | Placement(n, t.id, r2) in w0.placed ensures r2 == r {
      PlacedSame(own, w, Placement(n, t.id, r2), Placement(n, t.id, r));
    }
  }
}
