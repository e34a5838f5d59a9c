/** reconcileCNPGRestore as code: every pass, with the environment acting before each of
    its API calls and a crash possible at each, is an execution of the protocol. */
module CnpgController {
  import opened Basics
  import opened Helm
  import opened CnpgProtocol
  import opened CnpgProofs
  import opened CnpgCauses
  import opened CnpgCalm

  /** What happens around one API call: what others do first, whether the pass dies
      there, whether the call succeeds where it may fail, and whether a failed patch was applied. */
  datatype Luck = Luck(others: seq<Event>, crash: bool, ok: bool, applied: bool)

  /** Nobody acts before the call, and it succeeds. */
  predicate Calm(luck: Luck) {
    luck.others == [] && !luck.crash && luck.ok
  }

  ghost predicate AllCalm(luck: nat -> Luck) {
    forall n: nat :: Calm(luck(n))
  }

  /** No purge decision in a history from some point on. */
  ghost predicate Undecided(es: seq<Event>, from: nat) {
    forall k: nat :: from <= k < |es| ==> !es[k].NeedPurge?
  }

  /** The decisions from there on are the ones these inputs call for. */
  ghost predicate DecidedBy(inputs: Inputs, es: seq<Event>, from: nat) {
    forall k: nat :: from <= k < |es| && es[k].NeedPurge? ==> es[k] == NeedPurge(inputs.walReady, inputs.majorMismatch)
  }

  /** An event of a history from some point on. */
  ghost predicate Happened(es: seq<Event>, from: nat, e: Event) {
    exists k: nat :: from <= k < |es| && es[k] == e
  }

  lemma StillHappened(es: seq<Event>, later: seq<Event>, from: nat, e: Event)
    requires Happened(es, from, e) && es <= later
    ensures Happened(later, from, e)
  {
    var k: nat :| from <= k < |es| && es[k] == e;
    assert later[k] == e;
  }

  ghost predicate Died(es: seq<Event>, from: nat) {
    exists k: nat :: from <= k < |es| && es[k].Crash?
  }

  /** Some of the PVCs still to be asked. */
  function TerminatingBut(pvcs: map<nat, Pvc>, todo: set<nat>): map<nat, Pvc> {
    map id | id in pvcs :: if id in todo then pvcs[id] else pvcs[id].(terminating := true)
  }

  /** Where the pass stands does not enter into what it comes to. */
  lemma ActedAlike(c: Setting, w: World, inputs: Inputs)
    ensures forall pc: Pc :: Acted(c, w.(pc := pc), inputs) == Acted(c, w, inputs)
  {
  }

  lemma OneMoreAsked(pvcs: map<nat, Pvc>, todo: set<nat>, id: nat)
    requires id in todo
    ensures MarkPvcTerminating(TerminatingBut(pvcs, todo), id) == TerminatingBut(pvcs, todo - {id})
  {
  }

  lemma NoneTerminating(pvcs: map<nat, Pvc>)
    ensures AllTerminating(pvcs) == map[] <==> pvcs == map[]
  {
    if id :| id in pvcs {
      assert id in AllTerminating(pvcs);
    }
  }

  lemma AllAsked(pvcs: map<nat, Pvc>)
    ensures TerminatingBut(pvcs, {}) == AllTerminating(pvcs) && TerminatingBut(pvcs, pvcs.Keys) == pvcs
  {
  }

  class Restore {
    const c: Setting
    var w: World
    ghost var ws: seq<World>
    ghost var es: seq<Event>

    /** The recorded history is a run that ends in the present world. */
    ghost predicate Valid()
      reads this
    {
      Run(c, ws, es) && w == ws[|ws| - 1]
    }

    constructor (c: Setting, w: World)
      requires Init(c, w)
      ensures Valid() && this.c == c && this.w == w && ws == [w] && es == []
    {
      this.c, this.w := c, w;
      ws, es := [w], [];
    }

    method Do(e: Event)
      requires Valid() && Enabled(c, w, e)
      modifies this
      ensures Valid() && w == Apply(c, old(w), e)
      ensures ws == old(ws) + [w] && es == old(es) + [e]
    {
      w := Apply(c, w, e);
      ws, es := ws + [w], es + [e];
    }

    /** The environment acts before a call; the pass and what only it writes stand still. */
    method Interfere(others: seq<Event>)
      requires Valid()
      modifies this
      ensures Valid() && old(ws) <= ws && old(es) <= es
      ensures w.pc == old(w.pc) && w.job == old(w.job) && w.app == old(w.app) && w.release == old(w.release)
      ensures Undecided(es, old(|es|)) && (others == [] ==> w == old(w))
    {
      for i := 0 to |others|
        invariant Valid() && old(ws) <= ws && old(es) <= es
        invariant w.pc == old(w.pc) && w.job == old(w.job) && w.app == old(w.app) && w.release == old(w.release)
        invariant Undecided(es, old(|es|)) && (others == [] ==> w == old(w))
      {
        Allow(others[i]);
      }
    }

    method Allow(e: Event)
      requires Valid()
      modifies this
      ensures Valid() && old(ws) <= ws && old(es) <= es
      ensures w.pc == old(w.pc) && w.job == old(w.job) && w.app == old(w.app) && w.release == old(w.release)
      ensures Undecided(es, old(|es|))
    {
      if IsEnvironment(e) && Enabled(c, w, e) {
        Do(e);
      }
    }

    /** Everything up to the next API call of the pass. */
    method Await(luck: Luck) returns (alive: bool)
      requires Valid()
      modifies this
      ensures Valid() && old(ws) <= ws && old(es) <= es
      ensures w.job == old(w.job) && w.app == old(w.app) && w.release == old(w.release)
      ensures alive == !luck.crash && w.pc == if alive then old(w.pc) else Idle
      ensures Undecided(es, old(|es|)) && (Calm(luck) ==> w == old(w))
    {
      Interfere(luck.others);
      alive := !luck.crash;
      if luck.crash {
        Do(Crash);
      }
    }

    /** markRestoreJobFailedReason: one status write. */
    method MarkFailed(luck: Luck)
      requires Valid() && w.pc.RecordFailed?
      modifies this
      ensures Valid() && old(ws) <= ws && old(es) <= es && w.pc.Idle?
      ensures !luck.crash ==> w.job.phase == Failed(old(w.pc.reason))
      ensures Undecided(es, old(|es|)) && (Calm(luck) ==> w == FailedWith(old(w), old(w.pc.reason)))
    {
      var alive := Await(luck);
      if alive {
        Do(WriteFailed);
      }
    }

    /** Resume the release on the way out, best effort, then fail. */
    method FailAndResume(resume: Luck, write: Luck)
      requires Valid() && w.pc.Abort?
      modifies this
      ensures Valid() && old(ws) <= ws && old(es) <= es && w.pc.Idle?
      ensures Undecided(es, old(|es|))
      ensures !resume.crash && resume.ok && resume.others == [] && Calm(write) ==>
                w == FailedWith(old(w).(release := SetSuspended(old(w.release), false)), old(w.pc.why))
    {
      var alive := Await(resume);
      if alive {
        Do(AbortResume(resume.ok));
        MarkFailed(write);
      }
    }

    /** The PVCs were listed, and each one listed was asked to go. */
    ghost predicate PvcsAskedToGo(from: nat)
      requires Valid()
      reads this
    {
      exists j: nat :: from <= j < |es| && es[j].ListedPvcs?
        && forall id <- ws[j].pvcs :: Happened(es, j, DeletedPvc(id))
    }

    /** purgeExistingCluster: delete the Cluster, list its PVCs, delete each of them. */
    method PurgeExistingCluster(luck: nat -> Luck) returns (done: bool)
      requires Valid() && w.pc.DeleteCluster?
      modifies this
      ensures Valid() && old(ws) <= ws && old(es) <= es
      ensures done ==> w.pc.CheckCluster? && w.job == old(w.job) && w.app == old(w.app)
      ensures done ==> Happened(es, old(|es|), Delete) && PvcsAskedToGo(old(|es|))
      ensures !done ==> w.pc.Idle? || w.pc.Abort?
      ensures Undecided(es, old(|es|))
      ensures AllCalm(luck) ==>
                done && w == old(w).(cluster := MarkTerminating(old(w.cluster)),
                                     pvcs := AllTerminating(old(w.pvcs)), pc := CheckCluster)
      ensures c.purgeErrors && !luck(0).crash && !luck(0).ok ==> w.pc == Abort(PurgeFailed)
    {
      done := Await(luck(0));
      if !done { return; }
      if c.purgeErrors && !luck(0).ok {
        Do(PurgeError);
        return false;
      }
      Do(Delete);
      ghost var at: nat := |es| - 1;
      assert es[at] == Delete;
      done := PurgePvcs(luck);
      assert es[at] == Delete;
    }

    method PurgePvcs(luck: nat -> Luck) returns (done: bool)
      requires Valid() && w.pc.ListPvcs?
      modifies this
      ensures Valid() && old(ws) <= ws && old(es) <= es
      ensures done ==> w.pc.CheckCluster? && w.job == old(w.job) && w.app == old(w.app) && PvcsAskedToGo(old(|es|))
      ensures !done ==> w.pc.Idle? || w.pc.Abort?
      ensures Undecided(es, old(|es|))
      ensures AllCalm(luck) ==> done && w == old(w).(pvcs := AllTerminating(old(w.pvcs)), pc := CheckCluster)
    {
      done := Await(luck(1));
      if !done { return; }
      if c.purgeErrors && !luck(1).ok {
        Do(PurgeError);
        return false;
      }
      ghost var at, listed := |es|, w.pvcs;
      Do(ListedPvcs);
      assert es[at].ListedPvcs? && ws[at].pvcs == listed;
      done := DeleteListedPvcs(luck);
      assert es[at].ListedPvcs? && ws[at].pvcs == listed;
      if done {
        forall id | id in listed ensures Happened(es, at, DeletedPvc(id)) {
          assert Happened(es, at + 1, DeletedPvc(id));
        }
      }
    }

    method DeleteListedPvcs(luck: nat -> Luck) returns (done: bool)
      requires Valid() && w.pc.DeletePvcs?
      modifies this
      ensures Valid() && old(ws) <= ws && old(es) <= es
      ensures done ==> w.pc.CheckCluster? && w.job == old(w.job) && w.app == old(w.app)
      ensures done ==> forall id <- old(w.pc.todo) :: Happened(es, old(|es|), DeletedPvc(id))
      ensures !done ==> w.pc.Idle? || w.pc.Abort?
      ensures Undecided(es, old(|es|))
      ensures AllCalm(luck) && old(w.pc.todo) == old(w.pvcs).Keys ==>
                done && w == old(w).(pvcs := AllTerminating(old(w.pvcs)), pc := CheckCluster)
    {
      AllAsked(w.pvcs);
      var n := 2;
      while w.pc.todo != {}
        invariant Valid() && old(ws) <= ws && old(es) <= es && w.pc.DeletePvcs?
        invariant w.job == old(w.job) && w.app == old(w.app)
        invariant forall id <- old(w.pc.todo) :: id in w.pc.todo || Happened(es, old(|es|), DeletedPvc(id))
        invariant Undecided(es, old(|es|)) && w.pc.todo <= old(w.pc.todo)
        invariant AllCalm(luck) ==> w == old(w).(pvcs := w.pvcs, pc := w.pc)
        invariant AllCalm(luck) && old(w.pc.todo) == old(w.pvcs).Keys ==>
            w.pvcs == TerminatingBut(old(w.pvcs), w.pc.todo)
        decreases w.pc.todo
      {
        done := DeleteOne(luck(n), old(|es|));
        if !done { return; }
        n := n + 1;
      }
      ghost var asked := es;
      Do(PvcsRequested);
      forall id | id in old(w.pc.todo) ensures Happened(es, old(|es|), DeletedPvc(id)) {
        StillHappened(asked, es, old(|es|), DeletedPvc(id));
      }
      done := true;
    }

    /** One of the PVCs still to go. */
    method DeleteOne(luck: Luck, ghost from: nat) returns (done: bool)
      requires Valid() && w.pc.DeletePvcs? && w.pc.todo != {} && from <= |es|
      modifies this
      ensures Valid() && old(ws) <= ws && old(es) <= es
      ensures done ==> w.pc.DeletePvcs? && w.pc.todo < old(w.pc.todo) && w.job == old(w.job) && w.app == old(w.app)
      ensures done ==> forall id <- old(w.pc.todo) :: id in w.pc.todo || Happened(es, from, DeletedPvc(id))
      ensures !done ==> w.pc.Idle? || w.pc.Abort?
      ensures Undecided(es, old(|es|))
      ensures Calm(luck) ==> done && w == old(w).(pvcs := w.pvcs, pc := w.pc)
      ensures Calm(luck) ==> forall pvcs | old(w.pvcs) == TerminatingBut(pvcs, old(w.pc.todo)) ::
                w.pvcs == TerminatingBut(pvcs, w.pc.todo)
    {
      done := Await(luck);
      if !done { return; }
      if c.purgeErrors && !luck.ok {
        Do(PurgeError);
        return false;
      }
      var id :| id in w.pc.todo;
      ghost var asked, todo := w.pvcs, w.pc.todo;
      Do(DeletedPvc(id));
      assert es[|es| - 1] == DeletedPvc(id);
      forall pvcs | asked == TerminatingBut(pvcs, todo) ensures w.pvcs == TerminatingBut(pvcs, w.pc.todo) {
        OneMoreAsked(pvcs, todo, id);
      }
    }

    /** cnpgClusterFullyGone: no Cluster, then no PVC of it. */
    method FullyGone(cluster: Luck, pvcs: Luck) returns (gone: bool)
      requires Valid() && w.pc.CheckCluster?
      modifies this
      ensures Valid() && old(ws) <= ws && old(es) <= es
      ensures gone ==> w.pc == Resume(false, false) && w.job == old(w.job) && w.pvcs == map[]
      ensures gone ==> exists k: nat :: old(|es|) <= k < |es| && es[k].ClusterChecked? && ws[k].cluster.None?
      ensures !gone ==> w.pc.Idle?
      ensures Undecided(es, old(|es|))
      ensures Calm(cluster) && Calm(pvcs) ==>
                && gone == (old(w.cluster).None? && old(w.pvcs) == map[])
                && w == old(w).(pc := if gone then Resume(false, false) else Idle)
    {
      gone := Await(cluster);
      if !gone { return; }
      gone := w.cluster.None?;
      ghost var at := |es|;
      Do(ClusterChecked);
      if !gone { return; }
      assert es[at].ClusterChecked? && ws[at].cluster.None?;
      gone := NoPvcLeft(pvcs);
      assert es[at].ClusterChecked? && ws[at].cluster.None?;
    }

    method NoPvcLeft(luck: Luck) returns (gone: bool)
      requires Valid() && w.pc.CheckPvcs?
      modifies this
      ensures Valid() && old(ws) <= ws && old(es) <= es
      ensures gone ==> w.pc == Resume(false, false) && w.job == old(w.job) && w.pvcs == map[]
      ensures !gone ==> w.pc.Idle?
      ensures Undecided(es, old(|es|))
      ensures Calm(luck) ==>
          gone == (old(w.pvcs) == map[]) && w == old(w).(pc := if gone then Resume(false, false) else Idle)
    {
      gone := Await(luck);
      if !gone { return; }
      gone := w.pvcs == map[];
      Do(PvcsChecked);
    }

    /** The destructive block. */
    method Purge(inputs: Inputs, luck: nat -> Luck) returns (gone: bool)
      requires Valid() && w.pc.Decide? && NeedsPurge(c, w)
      modifies this
      ensures Valid() && old(ws) <= ws && old(es) <= es
      ensures gone ==> w.pc == Resume(false, false)
      ensures !gone ==> w.pc.Idle?
      ensures DecidedBy(inputs, es, old(|es|))
      ensures AllCalm(luck) ==> gone == (!inputs.majorMismatch && inputs.walReady && Purged(c, old(w)).pc.Resume?)
      ensures AllCalm(luck) ==> w == if gone then Purged(c, old(w)) else Gated(c, old(w), inputs)
    {
      gone := false;
      Do(NeedPurge(inputs.walReady, inputs.majorMismatch));
      if inputs.majorMismatch {
        MarkFailed(luck(0));
        return;
      }
      if !inputs.walReady {
        WaitForArchive(luck(0), luck(1));
        return;
      }
      gone := SuspendAndPurge(luck);
    }

    /** The WAL is not archived yet: recorded, and failed once that has lasted too long. */
    method WaitForArchive(record: Luck, write: Luck)
      requires Valid() && w.pc.AwaitWal?
      modifies this
      ensures Valid() && old(ws) <= ws && old(es) <= es && w.pc.Idle?
      ensures Undecided(es, old(|es|))
      ensures Calm(record) && Calm(write) ==> w == WaitedForWal(c, old(w))
    {
      var alive := Await(record);
      if !alive { return; }
      var since := Since(w.job.walPending, w.clock);
      Do(WaitForWal);
      if Exceeded(since, w.clock, c.walDeadline) {
        MarkFailed(write);
      }
    }

    method SuspendAndPurge(luck: nat -> Luck) returns (gone: bool)
      requires Valid() && w.pc.Suspend?
      modifies this
      ensures Valid() && old(ws) <= ws && old(es) <= es
      ensures gone ==> w.pc == Resume(false, false)
      ensures !gone ==> w.pc.Idle?
      ensures Undecided(es, old(|es|))
      ensures AllCalm(luck) ==> w == Purged(c, old(w)) && gone == w.pc.Resume?
    {
      gone := Await(luck(2));
      if !gone { return; }
      Do(SuspendRelease);
      gone := PatchAndPurge(luck);
    }

    method PatchAndPurge(luck: nat -> Luck) returns (gone: bool)
      requires Valid() && w.pc.PatchApp?
      modifies this
      ensures Valid() && old(ws) <= ws && old(es) <= es
      ensures gone ==> w.pc == Resume(false, false)
      ensures !gone ==> w.pc.Idle?
      ensures Undecided(es, old(|es|))
      ensures AllCalm(luck) && old(w.release) == SetSuspended(old(w.release), true) ==>
                w == Purged(c, old(w)) && gone == w.pc.Resume?
      ensures c.patchErrors && !luck(3).crash && !luck(3).ok && Calm(luck(4)) && Calm(luck(5)) ==>
                w.job.phase == Failed(PatchFailed) && w.release != Release(true)
    {
      gone := Await(luck(3));
      if !gone { return; }
      if c.patchErrors && !luck(3).ok {
        FailPatch(luck(3).applied, luck(4), luck(5));
        return false;
      }
      Do(Patch);
      gone := PurgeAndCheck(luck);
    }

    /** The app could not be patched, or said so. */
    method FailPatch(applied: bool, resume: Luck, write: Luck)
      requires Valid() && w.pc.PatchApp? && c.patchErrors
      modifies this
      ensures Valid() && old(ws) <= ws && old(es) <= es && w.pc.Idle?
      ensures Undecided(es, old(|es|))
      ensures Calm(resume) && Calm(write) ==> w.job.phase == Failed(PatchFailed) && w.release != Release(true)
    {
      Do(PatchError(applied));
      FailAndResume(resume, write);
    }

    method PurgeAndCheck(luck: nat -> Luck) returns (gone: bool)
      requires Valid() && w.pc.DeleteCluster?
      modifies this
      ensures Valid() && old(ws) <= ws && old(es) <= es
      ensures gone ==> w.pc == Resume(false, false)
      ensures !gone ==> w.pc.Idle?
      ensures Undecided(es, old(|es|))
      ensures && AllCalm(luck) && old(w.release) == SetSuspended(old(w.release), true)
              && old(w.app) == App(true, c.mark) ==>
                w == Purged(c, old(w)) && gone == w.pc.Resume?
      ensures c.purgeErrors && !luck(10).crash && !luck(10).ok && Calm(luck(4)) && Calm(luck(5)) ==>
                w.job.phase == Failed(PurgeFailed) && w.release != Release(true)
    {
      gone := PurgeExistingCluster((n: nat) => luck(n + 10));
      if !gone {
        if w.pc.Abort? {
          FailAndResume(luck(4), luck(5));
        }
        return;
      }
      NoneTerminating(old(w.pvcs));
      gone := FullyGone(luck(6), luck(7));
    }

    /** The step a converged restore still has to take. */
    method ClearBootstrap(patch: Luck, write: Luck)
      requires Valid() && w.pc.DisableBootstrap? && w.job.converged.Some?
      modifies this
      ensures Valid() && old(ws) <= ws && old(es) <= es && w.pc.Idle?
      ensures Undecided(es, old(|es|))
      ensures Calm(patch) && Calm(write) ==>
                w == old(w).(app := old(w.app).(bootstrapEnabled := false),
                             job := old(w.job).(phase := Succeeded, disablePending := false), pc := Idle)
    {
      var alive := Await(patch);
      if !alive { return; }
      if patch.ok {
        Do(Disable);
        RecordSuccess(write);
      } else {
        KeepTrying(write);
      }
    }

    method RecordSuccess(luck: Luck)
      requires Valid() && w.pc.RecordSucceeded?
      modifies this
      ensures Valid() && old(ws) <= ws && old(es) <= es && w.pc.Idle?
      ensures Undecided(es, old(|es|))
      ensures Calm(luck) ==> w == old(w).(job := old(w.job).(phase := Succeeded, disablePending := false), pc := Idle)
    {
      var alive := Await(luck);
      if alive {
        Do(WriteSucceeded);
      }
    }

    /** The bootstrap values could not be cleared: tried again until the grace window is over. */
    method KeepTrying(luck: Luck)
      requires Valid() && w.pc.DisableBootstrap? && w.job.converged.Some?
      modifies this
      ensures Valid() && old(ws) <= ws && old(es) <= es && w.pc.Idle?
      ensures Undecided(es, old(|es|))
      ensures Calm(luck) ==>
                w == if old(w.clock) > old(w.job.converged).value + c.grace
                    then FailedWith(old(w), BootstrapDisableFailed)
                     else old(w).(job := old(w.job).(disablePending := true), pc := Idle)
    {
      var late := Exceeded(w.job.converged.value, w.clock, c.grace);
      Do(DisableError);
      if late {
        MarkFailed(luck);
      }
    }

    /** Health first, then the latched verdict, then the deadline. */
    method Conclude(sawRecovery: bool, luck: nat -> Luck)
      requires Valid() && w.job.startedAt.Some?
      requires w.pc == if sawRecovery then CheckHealth else Settle
      modifies this
      ensures Valid() && old(ws) <= ws && old(es) <= es && w.pc.Idle?
      ensures Undecided(es, old(|es|)) && (AllCalm(luck) ==> w == Concluded(c, old(w), sawRecovery))
    {
      if sawRecovery {
        var settled := CheckAndLatch(luck(0), luck(1));
        if !settled { return; }
      }
      Do(Settled);
      if w.job.converged.Some? {
        ClearBootstrap(luck(2), luck(3));
      } else if Exceeded(w.job.startedAt.value, w.clock, c.restoreDeadline) {
        MarkFailed(luck(2));
      }
    }

    /** cnpgClusterHealthy, and the write that latches its first positive answer. */
    method CheckAndLatch(check: Luck, write: Luck) returns (settled: bool)
      requires Valid() && w.pc.CheckHealth?
      modifies this
      ensures Valid() && old(ws) <= ws && old(es) <= es
      ensures if settled then w.pc.Settle? && w.job == old(w.job) else w.pc.Idle?
      ensures Undecided(es, old(|es|))
      ensures Calm(check) && Calm(write) ==>
                && settled == !(old(w.cluster).Some? && old(w.cluster).value.healthy && old(w.job.converged).None?)
                && w == if settled then old(w).(pc := Settle) else Concluded(c, old(w), true)
    {
      settled := Await(check);
      if !settled { return; }
      var healthy := w.cluster.Some? && w.cluster.value.healthy;
      Do(HealthChecked);
      if healthy && w.job.converged.None? {
        Latch(write);
        return false;
      }
    }

    method Latch(luck: Luck)
      requires Valid() && w.pc.LatchConverged?
      modifies this
      ensures Valid() && old(ws) <= ws && old(es) <= es && w.pc.Idle?
      ensures !luck.crash ==> w.job.converged == Some(w.clock)
      ensures Undecided(es, old(|es|))
      ensures Calm(luck) ==> w == old(w).(job := old(w.job).(converged := Some(old(w.clock))), pc := Idle)
    {
      var alive := Await(luck);
      if alive {
        Do(WriteConverged);
      }
    }

    /** One pass of the reconciler. Whatever the environment does around its calls, the
        history stays a run, and with it every whole-run guarantee. */
    method Reconcile(inputs: Inputs, luck: nat -> Luck)
      requires Valid() && w.pc.Idle?
      modifies this
      ensures Valid() && old(ws) <= ws && old(es) <= es && w.pc.Idle?
      ensures Terminal(old(w.job)) ==> w == old(w)
      ensures c.annotated && CallsSucceed(c) && w.job.phase.Succeeded? ==> Restored(c, ws, es, |ws| - 1)
      ensures c.annotated && CallsSucceed(c) && Marked(c, w) && ForeignRemains(c, w) ==> !HelmActive(w)
      // Behind a closed gate the target is left untouched, and a mismatch fails the job.
      ensures inputs.majorMismatch || !inputs.walReady ==>
                forall k: nat | old(|es|) <= k < |es| :: !Destructive(es[k])
      ensures inputs.majorMismatch && !Undecided(es, old(|es|)) && !Died(es, old(|es|)) ==>
                w.job.phase == Failed(MajorVersionMismatch)
      ensures Caused(c, w)
      // Undisturbed, the pass does exactly this.
      ensures AllCalm(luck) ==> w == CalmPass(c, old(w), inputs)
    {
      Pass(inputs, luck);
      var last: nat := |ws| - 1;
      if c.annotated && CallsSucceed(c) && w.job.phase.Succeeded? {
        NoSilentNoOp(c, ws, es, last);
      }
      if c.annotated && CallsSucceed(c) && Marked(c, w) && ForeignRemains(c, w) {
        HelmStaysOut(c, ws, es, last);
      }
      FailsForCause(c, ws, es, last);
      GatesHold(inputs, old(|es|));
    }

    /** What the decisions of a pass that began at rest allow. */
    lemma GatesHold(inputs: Inputs, from: nat)
      requires Valid() && from <= |es| && ws[from].pc.Idle? && w.pc.Idle? && DecidedBy(inputs, es, from)
      ensures inputs.majorMismatch || !inputs.walReady ==> forall k: nat | from <= k < |es| :: !Destructive(es[k])
      ensures inputs.majorMismatch && !Undecided(es, from) && !Died(es, from) ==>
                w.job.phase == Failed(MajorVersionMismatch)
    {
      forall k: nat | from <= k < |es| && Destructive(es[k]) ensures !inputs.majorMismatch && inputs.walReady {
        var j := DestroysOnlyPastTheGates(c, ws, es, k);
        assert !PastGates(ws[from].pc) && from <= j;
      }
      if inputs.majorMismatch && !Undecided(es, from) && !Died(es, from) {
        var j: nat :| from <= j < |es| && es[j].NeedPurge?;
        MismatchFails(c, ws, es, j, |ws| - 1);
      }
    }

    method Pass(inputs: Inputs, luck: nat -> Luck)
      requires Valid() && w.pc.Idle?
      modifies this
      ensures Valid() && old(ws) <= ws && old(es) <= es && w.pc.Idle?
      ensures Terminal(old(w.job)) ==> w == old(w)
      ensures DecidedBy(inputs, es, old(|es|)) && (AllCalm(luck) ==> w == CalmPass(c, old(w), inputs))
    {
      if Terminal(w.job) { return; }
      var alive := Await(luck(0));
      if !alive { return; }
      if w.job.startedAt.None? {
        Do(Start);
        return;
      }
      BeginPass(inputs, luck);
    }

    method BeginPass(inputs: Inputs, luck: nat -> Luck)
      requires Valid() && w.pc.Idle? && !Terminal(w.job) && w.job.startedAt.Some?
      modifies this
      ensures Valid() && old(ws) <= ws && old(es) <= es && w.pc.Idle?
      ensures DecidedBy(inputs, es, old(|es|)) && (AllCalm(luck) ==> w == CalmPass(c, old(w), inputs))
    {
      Do(Begin);
      if c.inputErrors && !inputs.valid {
        Do(RejectInput);
        MarkFailed(luck(1));
        return;
      }
      Act(inputs, luck);
      ActedAlike(c, old(w), inputs);
    }

    method Act(inputs: Inputs, luck: nat -> Luck)
      requires Valid() && w.pc.Decide?
      modifies this
      ensures Valid() && old(ws) <= ws && old(es) <= es && w.pc.Idle?
      ensures DecidedBy(inputs, es, old(|es|))
      ensures && AllCalm(luck)
              && old(w.pc.seen) == RecoveryState(old(w.cluster)) && old(w.pc.appMark) == old(w.app.newServerName)
              && old(w.pc.purged) == old(w.job.targetPurged) ==>
                w == Acted(c, old(w), inputs)
    {
      var seen, appMark := w.pc.seen, w.pc.appMark;
      var purgedCondition := w.pc.purged;
      var freshlyRecovered := FreshlyRecovered(seen, c.mark, appMark, w.job.startedAt);
      if PurgeNeeded(purgedCondition, freshlyRecovered) {
        var gone := Purge(inputs, (n: nat) => luck(n + 10));
        if !gone { return; }
      } else {
        Do(SkipPurge);
      }
      ShapeThroughout(c, ws, es, |ws| - 1);
      ResumeAndConclude(purgedCondition, seen.hasRecovery, luck);
    }

    method ResumeAndConclude(purgedCondition: bool, sawRecovery: bool, luck: nat -> Luck)
      requires Valid()
          && (w.pc == Resume(purgedCondition, sawRecovery) || (w.pc == Resume(false, false) && !purgedCondition))
      requires w.job.startedAt.Some?
      modifies this
      ensures Valid() && old(ws) <= ws && old(es) <= es && w.pc.Idle?
      ensures Undecided(es, old(|es|))
      ensures AllCalm(luck) ==> w == Resumed(c, old(w), purgedCondition, sawRecovery)
    {
      var alive := Await(luck(1));
      if !alive { return; }
      Do(ResumeRelease);
      if !purgedCondition {
        RecordTargetPurged(luck(2));
        return;
      }
      Conclude(sawRecovery, (n: nat) => luck(n + 3));
    }

    method RecordTargetPurged(luck: Luck)
      requires Valid() && w.pc.RecordPurged?
      modifies this
      ensures Valid() && old(ws) <= ws && old(es) <= es && w.pc.Idle?
      ensures w.job.targetPurged == (old(w.job.targetPurged) || !luck.crash)
      ensures Undecided(es, old(|es|))
      ensures Calm(luck) ==> w == old(w).(job := old(w.job).(targetPurged := true), pc := Idle)
    {
      var alive := Await(luck);
      if alive {
        Do(WritePurged);
      }
    }
  }
}
