/** The worker process: one poll as the code runs it, every durable write a step of the
    machine, with the other parties acting in between and a failure possible anywhere. */
module MailboxWorker {
  import opened Collections
  import opened Mailbox
  import opened MailboxSafety
  import opened MailboxRecovery
  import opened MailboxPoll
  import opened MailboxClosed

  const PushAttempts := 4

  /** The first free quarantine name: the search ends, and what it returns is unused while
      every smaller index is taken. */
  method FreeIndex(quarantine: map<QuarantineName, Blob>, name: Name, reason: string) returns (index: nat)
    ensures QuarantineName(name, reason, index) !in quarantine
    ensures forall k: nat :: k < index ==> QuarantineName(name, reason, k) in quarantine
  {
    index := 0;
    ghost var taken: set<QuarantineName> := {};
    while QuarantineName(name, reason, index) in quarantine
      invariant forall k: nat :: k < index ==> QuarantineName(name, reason, k) in quarantine
      invariant taken <= quarantine.Keys && |taken| == index
      invariant forall q :: q in taken ==> q.index < index
      decreases |quarantine| - index
    {
      var q := QuarantineName(name, reason, index);
      SubsetSize(taken + {q}, quarantine.Keys);
      taken := taken + {q};
      index := index + 1;
    }
  }

  /** `b` is `a` without the outbox file `name`; a conflict record may have been queued. */
  ghost predicate Cleared(a: Disk, b: Disk, name: Name) {
    && b.receipts == a.receipts && b.markers == a.markers && name !in b.outbox
    && (forall k: Name :: k in a.outbox && k != name ==> k in b.outbox)
    && (forall k: Name :: k.Canonical? && k in b.outbox ==> k in a.outbox && b.outbox[k] == a.outbox[k])
  }

  /** A valid canonical result for `id` is in the outbox. */
  ghost predicate Waiting(d: Disk, id: TaskId) {
    Canonical(id) in d.outbox && OutboxValid(Canonical(id), d.outbox[Canonical(id)])
  }

  /** Which of the reasons to set a task aside comes first. */
  function MarkCode(c: Remote, d: Disk, t: Task, n: NodeId): string
    requires MustMark(c, d, t, n)
  {
    if t.id in d.receipts && !ReceiptFits(d.receipts[t.id], t, n) then "local_receipt_invalid"
    else if !Matches(c.results[t.id], t.id, t.action, n) then "remote_result_invalid"
    else if c.results[t.id].result.digest != Sha256(t) then "remote_task_id_digest_conflict"
    else "remote_result_content_conflict"
  }

  class WorkerProcess {
    const node: NodeId
    var world: World
    ghost const origin: World
    ghost var trace: seq<Step>

    ghost predicate Valid()
      reads this
    {
      && HasNode(world, node) && Tracked(world) && Behind(world)
      && Runs(origin, trace) && FastForwardOnly(trace) && world == After(origin, trace)
    }

    function Checkout(): Remote
      reads this
      requires HasNode(world, node)
    {
      world.clones[Worker(node)]
    }

    function Files(): Disk
      reads this
      requires HasNode(world, node)
    {
      world.nodes[node].disk
    }

    /** The process starts on whatever its state root holds. */
    constructor (w: World, n: NodeId)
      requires HasNode(w, n) && Tracked(w) && Behind(w)
      ensures Valid() && node == n && world == w && origin == w && trace == []
    {
      node := n;
      world := w;
      origin := w;
      trace := [];
    }

    method Act(s: Step)
      requires Valid() && Enabled(world, s) && !s.ForeignRewrite?
      modifies this
      ensures Valid() && trace == old(trace) + [s]
      ensures world == Apply(old(world), s)
      ensures Onward(old(world), world, node)
    {
      hide Enabled;
      hide Apply;
      TrackedStep(world, s);
      GrowsStep(world, s);
      OnwardStep(world, s, node);
      RunsOn(origin, trace, s);
      world := Apply(world, s);
      trace := trace + [s];
    }

    /** Other workers, controllers and writers act, any number of times. */
    method Others()
      requires Valid()
      modifies this
      ensures Valid() && old(trace) <= trace
      ensures world.nodes[node] == old(world.nodes[node]) && Checkout() == old(Checkout())
      ensures Onward(old(world), world, node)
    {
      hide Enabled;
      hide Apply;
      hide Tracked;
      hide Behind;
      hide Aside;
      var rounds: nat := *;
      while rounds > 0
        invariant Valid() && old(trace) <= trace
        invariant world.nodes[node] == old(world.nodes[node]) && Checkout() == old(Checkout())
        invariant Onward(old(world), world, node)
      {
        var s: Step := *;
        if Enabled(world, s) && !s.ForeignRewrite? && ByOther(s, node) {
          OtherStep(world, s, node);
          ghost var before := world;
          Act(s);
          OnwardTransitive(old(world), before, world, node);
        }
        rounds := rounds - 1;
      }
    }

    /** Fetch and reset to the branch as it is at that moment. */
    method SyncMailbox() returns (ok: bool)
      requires Valid()
      modifies this
      ensures Valid() && old(trace) <= trace && Onward(old(world), world, node)
      ensures world.nodes[node] == old(world.nodes[node])
      ensures ok ==> Extends(old(world.remote), Checkout())
    {
      hide Tracked;
      hide Behind;
      hide Aside;
      Others();
      ok := *;
      if ok {
        ghost var before := world;
        Act(Sync(Worker(node)));
        OnwardTransitive(old(world), before, world, node);
      }
    }

    // ---- publication ------------------------------------------------------------------------

    method Discard(name: Name)
      requires Valid() && IsIdle(world, node) && name in Files().outbox && OutboxValid(name, Files().outbox[name])
      requires Published(Checkout(), name, Files().outbox[name])
      modifies this
      ensures Valid() && old(trace) <= trace && Onward(old(world), world, node)
      ensures IsIdle(world, node) && Checkout() == old(Checkout()) && Cleared(old(Files()), Files(), name)
    {
      hide Tracked;
      hide Behind;
      hide Onward;
      Act(Unlink(node, name));
    }

    /** Moves an outbox file to a quarantine name that is free. */
    method Quarantine(name: Name, reason: string)
      requires Valid() && IsIdle(world, node) && name in Files().outbox
      requires MustQuarantine(Checkout(), Files().outbox, name)
      modifies this
      ensures Valid() && old(trace) <= trace && Onward(old(world), world, node)
      ensures IsIdle(world, node) && Checkout() == old(Checkout()) && Cleared(old(Files()), Files(), name)
    {
      hide Tracked;
      hide Behind;
      hide Onward;
      var index := FreeIndex(Files().quarantine, name, reason);
      Act(MoveToQuarantine(node, name, reason, index));
    }

    /** The branch holds another canonical result: record the conflict, then put the local file
        away. */
    method Collide(id: TaskId) returns (ok: bool)
      requires Valid() && IsIdle(world, node) && Canonical(id) in Files().outbox
      requires OutboxValid(Canonical(id), Files().outbox[Canonical(id)])
      requires Collided(Checkout(), id, Files().outbox[Canonical(id)].result)
      modifies this
      ensures Valid() && old(trace) <= trace && Onward(old(world), world, node) && IsIdle(world, node)
      ensures ok ==> Cleared(old(Files()), Files(), Canonical(id))
      ensures ok ==> Aside(world, node, old(Files().outbox[Canonical(id)].result.digest))
    {
      hide Tracked;
      hide Behind;
      ghost var digest := Files().outbox[Canonical(id)].result.digest;
      Act(QueueCollision(node, id));
      ghost var between := world;
      assert Aside(between, node, digest);
      hide Climbs;
      hide Extends;
      hide Aside;
      hide Apply;
      hide Enabled;
      ok := *;
      if ok {
        Quarantine(Canonical(id), "remote result differs");
        OnwardTransitive(old(world), between, world, node);
      }
    }

    /** The branch already holds a file under this name: acknowledge it or set the local file
        aside. */
    method Reconcile(name: Name) returns (ok: bool)
      requires Valid() && IsIdle(world, node) && name in Files().outbox && OutboxValid(name, Files().outbox[name])
      requires Targeted(Checkout(), name)
      modifies this
      ensures Valid() && old(trace) <= trace && Onward(old(world), world, node) && IsIdle(world, node)
      ensures ok ==> Cleared(old(Files()), Files(), name)
      ensures ok && name.Canonical? ==> Landed(world, node, name.id, old(Files().outbox[name].result))
    {
      hide Tracked;
      hide Behind;
      hide Onward;
      hide Aside;
      ok := true;
      if Published(Checkout(), name, Files().outbox[name]) {
        Discard(name);
      } else if name.Conflict? {
        Quarantine(name, "remote conflict record differs");
      } else {
        ok := Collide(name.id);
      }
    }

    /** Commit the outbox file on the checkout and push it: a compare-and-swap on the head.  A
        lost acknowledgement and every other failure keep the outbox file. */
    method Push(name: Name) returns (ok: bool, race: bool)
      requires Valid() && IsIdle(world, node) && name in Files().outbox && OutboxValid(name, Files().outbox[name])
      requires !Targeted(Checkout(), name)
      modifies this
      ensures Valid() && old(trace) <= trace && Onward(old(world), world, node) && IsIdle(world, node)
      ensures ok ==> Cleared(old(Files()), Files(), name)
      ensures ok && name.Canonical? ==> Landed(world, node, name.id, old(Files().outbox[name].result))
      ensures !ok ==> Files() == old(Files())
    {
      hide Tracked;
      hide Behind;
      hide Onward;
      hide Aside;
      ok, race := false, false;
      Others();
      var down: bool := *;
      if down {
        return;
      }
      if Checkout().head != world.remote.head {
        race := true;
        return;
      }
      var acked: bool := *;
      ghost var before := world;
      Act(ResultPush(node, name, acked));
      OnwardTransitive(old(world), before, world, node);
      var cut: bool := *;
      if acked && !cut {
        ghost var pushed := world;
        Discard(name);
        OnwardTransitive(old(world), pushed, world, node);
        ok := true;
      }
    }

    /** One file of the outbox: quarantine what is not a valid result, otherwise try at most
        `PushAttempts` times, each on a fresh checkout. */
    method PublishFile(name: Name) returns (ok: bool)
      requires Valid() && IsIdle(world, node) && name in Files().outbox
      modifies this
      ensures Valid() && old(trace) <= trace && Onward(old(world), world, node) && IsIdle(world, node)
      ensures ok ==> Cleared(old(Files()), Files(), name)
      ensures ok && name.Canonical? && OutboxValid(name, old(Files().outbox[name])) ==>
                Landed(world, node, name.id, old(Files().outbox[name].result))
    {
      hide Tracked;
      hide Behind;
      hide Onward;
      hide Aside;
      hide Landed;
      if !OutboxValid(name, Files().outbox[name]) {
        Quarantine(name, "not a valid result");
        return true;
      }
      OnwardReflexive(world, node);
      var attempt := 1;
      while attempt <= PushAttempts
        invariant Valid() && old(trace) <= trace && Onward(old(world), world, node) && IsIdle(world, node)
        invariant Files() == old(Files())
      {
        ghost var start := world;
        ok := SyncMailbox();
        OnwardTransitive(old(world), start, world, node);
        if !ok {
          return;
        }
        ghost var synced := world;
        if Targeted(Checkout(), name) {
          ok := Reconcile(name);
          OnwardTransitive(old(world), synced, world, node);
          return;
        }
        var race;
        ok, race := Push(name);
        OnwardTransitive(old(world), synced, world, node);
        if ok || !race {
          return;
        }
        attempt := attempt + 1;
      }
      ok := false;
    }

    /** Every canonical result that was waiting is in the checkout, or a conflict is on record;
        none waits any more. */
    method PublishOutbox() returns (ok: bool)
      requires Valid() && IsIdle(world, node)
      modifies this
      ensures Valid() && old(trace) <= trace && Onward(old(world), world, node) && IsIdle(world, node)
      ensures ok ==> Sent(world, node) && Files().receipts == old(Files().receipts)
      ensures ok ==> forall id :: Waiting(old(Files()), id) ==>
                       Landed(world, node, id, old(Files().outbox)[Canonical(id)].result)
    {
      hide Tracked;
      hide Behind;
      hide Onward;
      hide Aside;
      hide Landed;
      OnwardReflexive(world, node);
      var pending := Listing(Files().outbox.Keys);
      ghost var waiting := Files().outbox;
      for i := 0 to |pending|
        invariant Valid() && old(trace) <= trace && Onward(old(world), world, node) && IsIdle(world, node)
        invariant Files().receipts == old(Files().receipts)
        invariant forall j :: i <= j < |pending| ==> pending[j] in Files().outbox
        invariant forall k: Name :: k.Canonical? && k in Files().outbox ==>
                    k in waiting && Files().outbox[k] == waiting[k] && k in pending[i..]
        invariant forall id :: Canonical(id) in pending[..i] && OutboxValid(Canonical(id), waiting[Canonical(id)]) ==>
                    Landed(world, node, id, waiting[Canonical(id)].result)
      {
        ghost var before := world;
        ok := PublishFile(pending[i]);
        OnwardTransitive(old(world), before, world, node);
        if !ok {
          return;
        }
        OnwardKeeps(before, world, node);
      }
      ok := true;
    }

    // ---- one task ---------------------------------------------------------------------------

    /** A durable marker bars the task for good; make sure its conflict record gets out. */
    method RecoverConflict(t: Task) returns (ok: bool)
      requires Valid() && IsIdle(world, node) && Sent(world, node) && Sha256(t) in Files().markers
      modifies this
      ensures Valid() && old(trace) <= trace && Onward(old(world), world, node)
      ensures ok ==> IsIdle(world, node) && Sent(world, node)
    {
      hide Tracked;
      hide Behind;
      hide Onward;
      hide Aside;
      hide Landed;
      OnwardReflexive(world, node);
      var name := Conflict(Sha256(t));
      var saved := Files().markers[Sha256(t)];
      if !ConflictFits(saved, t, node) {
        return false;
      }
      if Sha256(t) in Checkout().conflicts {
        var remote := Checkout().conflicts[Sha256(t)];
        return ConflictFits(remote, t, node) && remote.result == saved.result;
      }
      if name in Files().outbox {
        var queued := Files().outbox[name];
        if !OutboxValid(name, queued) || queued.result != saved.result {
          return false;
        }
      } else {
        Act(RequeueMark(node, t));
      }
      ghost var queued := world;
      ok := PublishOutbox();
      OnwardTransitive(old(world), queued, world, node);
    }

    /** The task cannot be answered: marker first, then the conflict record, then publication. */
    method SetAside(t: Task, status: Status, code: string) returns (ok: bool)
      requires Valid() && IsIdle(world, node) && status != Succeeded
      requires Seen(Checkout(), node, t) && Unbarred(Checkout(), Files(), t) && MustMark(Checkout(), Files(), t, node)
      modifies this
      ensures Valid() && old(trace) <= trace && Onward(old(world), world, node)
      ensures ok ==> IsIdle(world, node) && Sent(world, node) && Handled(world, node, t)
    {
      hide Tracked;
      hide Behind;
      hide Onward;
      hide MustMark;
      Act(Mark(node, t, status, code));
      ghost var marked := world;
      assert Handled(marked, node, t);
      hide Aside;
      hide Landed;
      hide Handled;
      ok := *;
      if !ok {
        return;
      }
      Act(QueueMark(node));
      ghost var queued := world;
      OnwardTransitive(old(world), marked, queued, node);
      ok := PublishOutbox();
      OnwardTransitive(old(world), queued, world, node);
      OnwardTransitive(marked, queued, world, node);
      OnwardKeeps(marked, world, node);
    }

    /** The result of `t` is in the outbox: write the receipt, then publish. */
    method Deliver(t: Task, ghost r: Result) returns (ok: bool)
      requires Valid() && world.nodes[node].doing == Stored(t, r)
      requires Canonical(t.id) in Files().outbox && Files().outbox[Canonical(t.id)] == Json(r, 0)
      requires r.taskId == t.id && r.digest == Sha256(t)
      modifies this
      ensures Valid() && old(trace) <= trace && Onward(old(world), world, node)
      ensures ok ==> IsIdle(world, node) && Sent(world, node) && Handled(world, node, t)
    {
      hide Tracked;
      hide Behind;
      hide Onward;
      hide Aside;
      hide Landed;
      OnwardReflexive(world, node);
      ok := *;
      if !ok {
        return;
      }
      Act(WriteReceipt(node));
      ghost var stored := world;
      ok := PublishOutbox();
      OnwardTransitive(old(world), stored, world, node);
      assert Waiting(stored.nodes[node].disk, t.id);
    }

    method StoreResult(t: Task, ghost r: Result) returns (ok: bool)
      requires Valid() && world.nodes[node].doing == Produced(t, r) && r.taskId == t.id && r.digest == Sha256(t)
      modifies this
      ensures Valid() && old(trace) <= trace && Onward(old(world), world, node)
      ensures ok ==> IsIdle(world, node) && Sent(world, node) && Handled(world, node, t)
    {
      hide Tracked;
      hide Behind;
      hide Onward;
      hide Handled;
      hide Sent;
      Act(StoreProduced(node));
      ghost var stored := world;
      ok := Deliver(t, r);
      OnwardTransitive(old(world), stored, world, node);
    }

    /** The handler returns whatever it returns, or raises. */
    method Complete(t: Task) returns (ok: bool)
      requires Valid() && world.nodes[node].doing == Entered(t)
      modifies this
      ensures Valid() && old(trace) <= trace && Onward(old(world), world, node)
      ensures ok ==> IsIdle(world, node) && Sent(world, node) && Handled(world, node, t)
    {
      hide Tracked;
      hide Behind;
      hide Onward;
      hide Handled;
      hide Sent;
      assert FromHandler(t, node, world.nodes[node].provenance, Unknown(t, node, world.nodes[node].provenance));
      var r :| FromHandler(t, node, world.nodes[node].provenance, r);
      var fits: bool := *;
      Act(Finish(node, r, fits));
      ghost var produced := world;
      ok := *;
      if ok {
        ok := StoreResult(t, Bounded(r, fits));
        OnwardTransitive(old(world), produced, world, node);
      }
    }

    /** Enters the handler, which may be cut off before it returns. */
    method Perform(t: Task) returns (ok: bool)
      requires Valid() && world.nodes[node].doing == Intended(t)
      modifies this
      ensures Valid() && old(trace) <= trace && Onward(old(world), world, node)
      ensures ok ==> IsIdle(world, node) && Sent(world, node) && Handled(world, node, t)
    {
      hide Tracked;
      hide Behind;
      hide Onward;
      hide Handled;
      hide Sent;
      Act(Enter(node));
      ghost var entered := world;
      ok := *;
      if ok {
        ok := Complete(t);
        OnwardTransitive(old(world), entered, world, node);
      }
    }

    /** Intent before handler, handler before outbox, outbox before receipt. */
    method Run(t: Task) returns (ok: bool)
      requires Valid() && Ready(world, node, t) && t.admissible
      requires t.id !in Files().receipts && t.id !in Checkout().results
      modifies this
      ensures Valid() && old(trace) <= trace && Onward(old(world), world, node)
      ensures ok ==> IsIdle(world, node) && Sent(world, node) && Handled(world, node, t)
    {
      hide Tracked;
      hide Behind;
      hide Onward;
      hide Handled;
      hide Sent;
      Act(WriteIntent(node, t));
      ghost var intended := world;
      ok := *;
      if ok {
        ok := Perform(t);
        OnwardTransitive(old(world), intended, world, node);
      }
    }

    /** An answer without a handler run: the task is not admissible, or its outcome is lost. */
    method Answer(t: Task) returns (ok: bool)
      requires Valid() && Ready(world, node, t) && t.id !in Checkout().results
      requires if t.id in Files().receipts then Files().receipts[t.id] == Intent(Sha256(t)) else !t.admissible
      modifies this
      ensures Valid() && old(trace) <= trace && Onward(old(world), world, node)
      ensures ok ==> IsIdle(world, node) && Sent(world, node) && Handled(world, node, t)
    {
      hide Tracked;
      hide Behind;
      hide Onward;
      hide Handled;
      hide Sent;
      ghost var r;
      if t.id in Files().receipts {
        r := Unknown(t, node, world.nodes[node].provenance);
        Act(StoreUnknown(node, t));
      } else {
        r := Rejection(t, node, world.nodes[node].provenance);
        Act(StoreRejection(node, t));
      }
      ghost var stored := world;
      ok := Deliver(t, r);
      OnwardTransitive(old(world), stored, world, node);
    }

    /** A receipt with a result but no published result: send the stored result again. */
    method SendAgain(t: Task) returns (ok: bool)
      requires Valid() && Ready(world, node, t) && t.id !in Checkout().results
      requires t.id in Files().receipts && Files().receipts[t.id].Done? && ReceiptFits(Files().receipts[t.id], t, node)
      modifies this
      ensures Valid() && old(trace) <= trace && Onward(old(world), world, node)
      ensures ok ==> IsIdle(world, node) && Sent(world, node) && Handled(world, node, t)
    {
      hide Tracked;
      hide Behind;
      hide Onward;
      hide Aside;
      hide Landed;
      Act(Resend(node, t));
      ghost var queued := world;
      ok := PublishOutbox();
      OnwardTransitive(old(world), queued, world, node);
      assert Waiting(queued.nodes[node].disk, t.id);
    }

    /** The branch already answers the task: complete the receipt from it. */
    method Adopt(t: Task)
      requires Valid() && IsIdle(world, node) && Sent(world, node)
      requires Seen(Checkout(), node, t) && Unbarred(Checkout(), Files(), t) && t.id in Checkout().results
      requires !MustMark(Checkout(), Files(), t, node)
      modifies this
      ensures Valid() && old(trace) <= trace && Onward(old(world), world, node)
      ensures IsIdle(world, node) && Sent(world, node) && Handled(world, node, t)
    {
      hide Tracked;
      hide Behind;
      hide Onward;
      hide Aside;
      OnwardReflexive(world, node);
      if t.id !in Files().receipts || !Files().receipts[t.id].Done? {
        Act(AdoptResult(node, t));
      }
    }

    /** A conflict record on the branch is a barrier: keep it as a marker. */
    method AdoptBarrier(t: Task) returns (ok: bool)
      requires Valid() && IsIdle(world, node) && Sent(world, node)
      requires Seen(Checkout(), node, t) && Sha256(t) !in Files().markers && Sha256(t) in Checkout().conflicts
      modifies this
      ensures Valid() && old(trace) <= trace && Onward(old(world), world, node)
      ensures ok ==> IsIdle(world, node) && Sent(world, node)
    {
      hide Tracked;
      hide Behind;
      hide Onward;
      OnwardReflexive(world, node);
      ok := ConflictFits(Checkout().conflicts[Sha256(t)], t, node);
      if ok {
        Act(AdoptMark(node, t));
      }
    }

    /** One task of the checkout, in the order of the code's checks. */
    method ProcessTask(t: Task) returns (ok: bool)
      requires Valid() && IsIdle(world, node) && Sent(world, node) && Seen(Checkout(), node, t)
      modifies this
      ensures Valid() && old(trace) <= trace && Onward(old(world), world, node)
      ensures ok ==> IsIdle(world, node) && Sent(world, node) && Handled(world, node, t)
    {
      hide Tracked;
      hide Behind;
      hide Onward;
      hide Landed;
      hide Apply;
      hide Enabled;
      ghost var before := world;
      if Sha256(t) in Files().markers {
        assert Handled(before, node, t);
        ok := RecoverConflict(t);
        OnwardKeeps(before, world, node);
      } else if Sha256(t) in Checkout().conflicts {
        assert Handled(before, node, t);
        ok := AdoptBarrier(t);
        OnwardKeeps(before, world, node);
      } else if MustMark(Checkout(), Files(), t, node) {
        var code := MarkCode(Checkout(), Files(), t, node);
        ok := SetAside(t, if code == "remote_task_id_digest_conflict" then Rejected else Indeterminate, code);
      } else if t.id in Checkout().results {
        Adopt(t);
        ok := true;
      } else if t.id in Files().receipts && Files().receipts[t.id].Done? {
        ok := SendAgain(t);
      } else if t.id in Files().receipts || !t.admissible {
        ok := Answer(t);
      } else {
        ok := Run(t);
      }
    }

    method ProcessAll() returns (ok: bool)
      requires Valid() && IsIdle(world, node) && Sent(world, node)
      modifies this
      ensures Valid() && old(trace) <= trace && Onward(old(world), world, node)
      ensures ok ==> IsIdle(world, node) && Sent(world, node)
      ensures ok ==> forall t :: Seen(old(Checkout()), node, t) ==> Handled(world, node, t)
    {
      hide Tracked;
      hide Behind;
      hide Onward;
      hide Handled;
      hide Apply;
      hide Enabled;
      hide Sent;
      OnwardReflexive(world, node);
      var ids := Listing(Checkout().tasks.Keys);
      for i := 0 to |ids|
        invariant Valid() && old(trace) <= trace && Onward(old(world), world, node)
        invariant IsIdle(world, node) && Sent(world, node)
        invariant forall t :: Seen(old(Checkout()), node, t) && t.id in ids[..i] ==> Handled(world, node, t)
      {
        ghost var before := world;
        OnwardKeeps(old(world), before, node);
        // A file that is unreadable or meant for another node is skipped.
        if ids[i] in Checkout().tasks && Checkout().tasks[ids[i]].Loaded?
           && Checkout().tasks[ids[i]].task.id == ids[i] && Seen(Checkout(), node, Checkout().tasks[ids[i]].task) {
          ok := ProcessTask(Checkout().tasks[ids[i]].task);
          OnwardTransitive(old(world), before, world, node);
          OnwardKeeps(before, world, node);
          if !ok {
            return;
          }
        }
      }
      ok := true;
    }

    /** One poll.  When it returns normally, every task for this node that was on the branch
        when it began is handled; when it does not, whatever the process held in memory is
        gone and the state root is as the last durable write left it.  If all along nobody else
        has written about the ids in `own`, the recovery is honest about every such task. */
    method ProcessOnce(ghost own: Ids) returns (ok: bool)
      requires Valid() && IsIdle(world, node)
      modifies this
      ensures Valid() && old(trace) <= trace && Onward(old(world), world, node) && IsIdle(world, node)
      ensures ok ==> Sent(world, node)
      ensures ok ==> forall t :: Seen(old(world).remote, node, t) ==> Handled(world, node, t)
      ensures ok && FreshSystem(own, origin) && Guarded(own, origin, trace) ==>
                forall t: Task :: t.id in own && Seen(old(world).remote, node, t) ==> Honest(old(world), world, node, t)
    {
      hide Tracked;
      hide Behind;
      hide Onward;
      hide Handled;
      hide Sent;
      hide Landed;
      hide FreshSystem;
      hide Honest;
      ok := PublishOutbox();
      ghost var published := world;
      assert Extends(old(world).remote, published.remote) by {
        RemoteOnward(old(world), published, node);
      }
      if ok {
        ok := SyncMailbox();
        ghost var synced := world;
        OnwardTransitive(old(world), published, synced, node);
        if ok {
          SentAgain(published, synced, node);
          ok := ProcessAll();
          OnwardTransitive(old(world), synced, world, node);
        }
      }
      if !ok {
        ghost var failed := world;
        Act(Crash(node));
        OnwardTransitive(old(world), failed, world, node);
      } else if FreshSystem(own, origin) && Guarded(own, origin, trace) {
        assert trace[..|old(trace)|] == old(trace);
        forall t: Task | t.id in own && Seen(old(world).remote, node, t) ensures Honest(old(world), world, node, t) {
          RecoveryIsHonest(own, origin, trace, |old(trace)|, node, t);
        }
      }
    }
  }
}
