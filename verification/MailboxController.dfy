/** The controller process: submission with bounded retries and the wait for a Result, with
    every other party acting in between. */
module MailboxController {
  import opened Mailbox
  import opened MailboxSafety
  import opened MailboxClosed

  const PushAttempts := 4

  datatype Submission =
    | Submitted
    | AlreadyPresent
    | IdTaken            // the id is bound to another digest
    | Invalid            // the task or the file found under its id is not acceptable
    | Unconfirmed        // nothing is known about delivery

  /** The controller's schema check on a task. */
  predicate Acceptable(t: Task) {
    t.admissible && t.action != ""
  }

  /** A step of anybody but controller `k`. */
  predicate NotBy(s: Step, k: nat) {
    !(s.SubmitPush? && s.number == k) && s != Sync(Controller(k)) && !s.ForeignRewrite?
  }

  lemma OthersKeepCheckout(w: World, s: Step, k: nat)
    requires Enabled(w, s) && Controller(k) in w.clones && NotBy(s, k)
    ensures Controller(k) in Apply(w, s).clones && Apply(w, s).clones[Controller(k)] == w.clones[Controller(k)]
  {
    if !s.Sync? && !s.SubmitPush? && !s.ResultPush? && !s.ForeignAdd? {
      hide Enabled;
      hide Apply;
      LocalStep(w, s);
    }
  }

  class ControllerProcess {
    const number: nat
    var world: World
    ghost const origin: World
    ghost var trace: seq<Step>

    ghost predicate Valid()
      reads this
    {
      && Controller(number) in world.clones && Behind(world)
      && Runs(origin, trace) && FastForwardOnly(trace) && world == After(origin, trace)
    }

    function Checkout(): Remote
      reads this
      requires Controller(number) in world.clones
    {
      world.clones[Controller(number)]
    }

    constructor (w: World, k: nat)
      requires Controller(k) in w.clones && Behind(w)
      ensures Valid() && number == k && world == w && origin == w && trace == []
    {
      number := k;
      world := w;
      origin := w;
      trace := [];
    }

    method Act(s: Step)
      requires Valid() && Enabled(world, s) && !s.ForeignRewrite?
      modifies this
      ensures Valid() && trace == old(trace) + [s]
      ensures world == Apply(old(world), s) && Extends(old(world).remote, world.remote)
    {
      hide Enabled;
      hide Apply;
      BranchFrame(world, s);
      GrowsStep(world, s);
      RunsOn(origin, trace, s);
      world := Apply(world, s);
      trace := trace + [s];
    }

    method Others()
      requires Valid()
      modifies this
      ensures Valid() && old(trace) <= trace
      ensures Checkout() == old(Checkout()) && Extends(old(world).remote, world.remote)
    {
      hide Enabled;
      hide Apply;
      hide Behind;
      var rounds: nat := *;
      while rounds > 0
        invariant Valid() && old(trace) <= trace
        invariant Checkout() == old(Checkout()) && Extends(old(world).remote, world.remote)
      {
        var s: Step := *;
        if Enabled(world, s) && NotBy(s, number) {
          OthersKeepCheckout(world, s, number);
          Act(s);
        }
        rounds := rounds - 1;
      }
    }

    method SyncMailbox() returns (ok: bool)
      requires Valid()
      modifies this
      ensures Valid() && old(trace) <= trace && Extends(old(world).remote, world.remote)
      ensures ok ==> Checkout() == world.remote
    {
      hide Behind;
      Others();
      ok := *;
      if ok {
        Act(Sync(Controller(number)));
      }
    }

    /** Submission tells the truth: after `Submitted` and `AlreadyPresent` the branch binds the
        id to exactly this task, after `IdTaken` to another one, and both for good.  No other
        answer claims anything, and at most `PushAttempts` pushes are tried. */
    method SubmitTask(t: Task) returns (r: Submission)
      requires Valid()
      modifies this
      ensures Valid() && old(trace) <= trace && Extends(old(world).remote, world.remote)
      ensures r == Submitted || r == AlreadyPresent ==> t.id in world.remote.tasks && world.remote.tasks[t.id] == Loaded(t)
      ensures r == Submitted ==> t.id !in old(world).remote.tasks
      ensures r == IdTaken ==>
                t.id in world.remote.tasks && world.remote.tasks[t.id].Loaded?
                && Sha256(world.remote.tasks[t.id].task) != Sha256(t)
      ensures !Acceptable(t) ==> r == Invalid && world == old(world)
    {
      hide Behind;
      if !Acceptable(t) {
        return Invalid;
      }
      var attempt := 1;
      while attempt <= PushAttempts
        invariant Valid() && old(trace) <= trace && Extends(old(world).remote, world.remote)
      {
        var ok := SyncMailbox();
        if !ok {
          return Unconfirmed;
        }
        if t.id in Checkout().tasks {
          return Existing(Checkout().tasks[t.id], t);
        }
        var pushed, race := Push(t);
        if pushed {
          return Submitted;
        }
        if !race {
          return Unconfirmed;
        }
        attempt := attempt + 1;
      }
      r := Unconfirmed;
    }

    function Existing(file: TaskFile, t: Task): Submission {
      if file.Unusable? || !Acceptable(file.task) then Invalid
      else if Sha256(file.task) == Sha256(t) then AlreadyPresent
      else IdTaken
    }

    method Push(t: Task) returns (ok: bool, race: bool)
      requires Valid() && t.id !in Checkout().tasks && Acceptable(t)
      modifies this
      ensures Valid() && old(trace) <= trace && Extends(old(world).remote, world.remote)
      ensures ok ==> t.id in world.remote.tasks && world.remote.tasks[t.id] == Loaded(t)
      ensures ok ==> t.id !in old(world).remote.tasks
    {
      hide Behind;
      ok, race := false, false;
      Others();
      var down: bool := *;
      if down {
        return;
      }
      race := Checkout().head != world.remote.head;
      if race {
        return;
      }
      CurrentCheckout();
      var acked: bool := *;
      Act(SubmitPush(number, t, acked));
      ok := acked;
    }

    /** A checkout at the head of the branch is the branch. */
    lemma CurrentCheckout()
      requires Valid() && Checkout().head == world.remote.head
      ensures Checkout() == world.remote
    {
    }

    /** The wait looks at a fresh checkout at most `looks` times.  What it returns is bound to
        this very task and to the admitted deployment, and is not a success if the same
        checkout holds a conflict record.  If all along nobody else has written about this id, a
        success is what the handler for this task returned, entered once. */
    method WaitForResult(t: Task, provenance: string, looks: nat, ghost own: Ids) returns (v: Verdict)
      requires Valid()
      modifies this
      ensures Valid() && old(trace) <= trace && Extends(old(world).remote, world.remote)
      ensures v.Return? ==> FromHandler(t, t.node, provenance, v.result)
      ensures v.Return? && Sha256(t) in Checkout().conflicts ==> v.result.status != Succeeded
      ensures v.Return? && v.result.status == Succeeded && t.id in own && FreshSystem(own, origin) && Guarded(own, origin, trace) ==>
                RanOnceWith(world, t, v.result)
    {
      hide Behind;
      hide FreshSystem;
      if !Acceptable(t) {
        return Raise;
      }
      v := KeepWaiting;
      var left := looks;
      while left > 0 && v == KeepWaiting
        invariant Valid() && old(trace) <= trace && Extends(old(world).remote, world.remote)
        invariant v == KeepWaiting || v == Raise || (v.Return? && LookUp(Checkout(), t, provenance) == v)
      {
        var ok := SyncMailbox();
        v := if ok then LookUp(Checkout(), t, provenance) else Raise;
        left := left - 1;
      }
      if v.Return? && v.result.status == Succeeded && t.id in own && FreshSystem(own, origin) && Guarded(own, origin, trace) {
        SuccessMeansExecutedOnce(own, origin, trace, Controller(number), t, provenance, v.result);
      }
      if v == KeepWaiting {
        v := Raise;
      }
    }

    /** Submit, then wait: a returned Result answers a task that is on the branch. */
    method CallTask(t: Task, provenance: string, looks: nat, ghost own: Ids) returns (v: Verdict)
      requires Valid()
      modifies this
      ensures Valid() && old(trace) <= trace
      ensures v.Return? ==> FromHandler(t, t.node, provenance, v.result)
                            && t.id in world.remote.tasks && world.remote.tasks[t.id] == Loaded(t)
      ensures v.Return? && v.result.status == Succeeded && t.id in own && FreshSystem(own, origin) && Guarded(own, origin, trace) ==>
                RanOnceWith(world, t, v.result)
    {
      hide Behind;
      hide FreshSystem;
      var r := SubmitTask(t);
      if r == Submitted || r == AlreadyPresent {
        v := WaitForResult(t, provenance, looks, own);
      } else {
        v := Raise;
      }
    }
  }
}
