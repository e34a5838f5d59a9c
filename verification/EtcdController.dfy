/** reconcileEtcdRestore as code: every pass, with the environment acting before each of its
    API calls and a crash possible at each, is an execution of the protocol. */
module EtcdController {
  import opened Basics
  import opened Helm
  import opened EtcdProtocol
  import opened EtcdProofs
  import opened EtcdCalm

  /** What happens around one API call. */
  datatype Luck = Luck(others: seq<Event>, crash: bool, ok: bool, applied: bool)

  /** Nobody acts before the call, and it succeeds. */
  predicate Calm(luck: Luck) {
    luck.others == [] && !luck.crash && luck.ok
  }

  ghost predicate AllCalm(luck: nat -> Luck) {
    forall n: nat :: Calm(luck(n))
  }

  class Restore {
    const c: Setting
    var w: World
    ghost var ws: seq<World>
    ghost var es: seq<Event>

    ghost predicate Valid()
      reads this
    {
      Sane(c) && Run(c, ws, es) && w == ws[|ws| - 1]
    }

    constructor (c: Setting, w: World)
      requires Sane(c) && Init(c, w)
      ensures Valid() && this.c == c && this.w == w && ws == [w] && es == []
    {
      this.c, this.w := c, w;
      ws, es := [w], [];
    }

    method Do(e: Event)
      requires Valid() && Enabled(c, w, e)
      modifies this
      ensures Valid() && w == Apply(c, old(w), e)
      ensures ws == old(ws) + [w] && es == old(es) + [e]
    {
      w := Apply(c, w, e);
      ws, es := ws + [w], es + [e];
    }

    /** Everything up to the next API call: others act, and the pass may die. */
    method Await(luck: Luck) returns (alive: bool)
      requires Valid()
      modifies this
      ensures Valid() && old(ws) <= ws && old(es) <= es
      ensures w.job == old(w.job) && w.release == old(w.release)
      ensures alive == !luck.crash && w.pc == if alive then old(w.pc) else Idle
      ensures Calm(luck) ==> w == old(w)
    {
      for i := 0 to |luck.others|
        invariant Valid() && old(ws) <= ws && old(es) <= es
        invariant w.pc == old(w.pc) && w.job == old(w.job) && w.release == old(w.release)
        invariant luck.others == [] ==> w == old(w)
      {
        if IsEnvironment(luck.others[i]) && Enabled(c, w, luck.others[i]) {
          Do(luck.others[i]);
        }
      }
      alive := !luck.crash;
      if luck.crash {
        Do(Crash);
      }
    }

    method MarkFailed(luck: Luck)
      requires Valid() && w.pc.RecordFailed?
      modifies this
      ensures Valid() && old(ws) <= ws && old(es) <= es && w.pc.Idle?
      ensures !luck.crash ==> w.job.phase.Failed?
      ensures Calm(luck) ==> w == FailedNow(old(w))
    {
      var alive := Await(luck);
      if alive {
        Do(WriteFailed);
      }
    }

    /** markEtcdRestoreFailedAndResumeHR: resume, best effort, then fail. */
    method MarkFailedAndResume(resume: Luck, write: Luck)
      requires Valid() && w.pc.Abort?
      modifies this
      ensures Valid() && old(ws) <= ws && old(es) <= es && w.pc.Idle?
      ensures Calm(resume) && Calm(write) ==> w == FailedNow(Resumed(old(w)))
    {
      var alive := Await(resume);
      if alive {
        Do(AbortResume(resume.ok || !c.resumeErrors));
        MarkFailed(write);
      }
    }

    method RecordTargetPurged(luck: Luck)
      requires Valid() && w.pc.RecordPurged?
      modifies this
      ensures Valid() && old(ws) <= ws && old(es) <= es && w.pc.Idle?
      ensures w.job.purged == (old(w.job.purged) || !luck.crash) && w.release == old(w.release)
      ensures Calm(luck) ==> w == old(w).(job := old(w.job).(purged := true), pc := Idle)
    {
      var alive := Await(luck);
      if alive {
        Do(WritePurged);
      }
    }

    /** The first half: capture, suspend, delete, wait. */
    method ReconcilePurge(luck: nat -> Luck)
      requires Valid() && w.pc.Look?
      modifies this
      ensures Valid() && old(ws) <= ws && old(es) <= es && w.pc.Idle?
      ensures AllCalm(luck) ==> w == CalmPurge(c, old(w))
    {
      var alive := Await(luck(0));
      if !alive { return; }
      if w.cluster.None? {
        FindNothing(luck(1));
      } else if w.job.captured.Some? {
        Do(Looked);
        SuspendAndDelete(luck);
      } else {
        CaptureSpec(luck(1));
      }
    }

    /** No cluster: already deleted by an earlier pass, or never there. */
    method FindNothing(luck: Luck)
      requires Valid() && w.pc.Look? && w.cluster.None?
      modifies this
      ensures Valid() && old(ws) <= ws && old(es) <= es && w.pc.Idle?
      ensures Calm(luck) ==> w == CalmPurge(c, old(w))
    {
      var specCaptured := w.job.captured.Some?;
      Do(Looked);
      if specCaptured {
        RecordTargetPurged(luck);
      } else {
        MarkFailed(luck);
      }
    }

    method CaptureSpec(luck: Luck)
      requires Valid() && w.pc.Look? && w.cluster.Some? && w.job.captured.None?
      modifies this
      ensures Valid() && old(ws) <= ws && old(es) <= es && w.pc.Idle?
      ensures Calm(luck) ==> w == CalmPurge(c, old(w))
    {
      if w.cluster.value.spec == map[] || |c.enc(w.cluster.value.spec)| > CAPTURE_LIMIT {
        Do(Looked);
        MarkFailed(luck);
      } else {
        Do(Looked);
        RecordCapture(luck);
      }
    }

    method RecordCapture(luck: Luck)
      requires Valid() && w.pc.Capture?
      modifies this
      ensures Valid() && old(ws) <= ws && old(es) <= es && w.pc.Idle?
      ensures !luck.crash ==> w.job.captured == Some(old(w.pc.payload))
      ensures Calm(luck) ==> w == old(w).(job := old(w.job).(captured := Some(old(w.pc.payload))), pc := Idle)
    {
      var alive := Await(luck);
      if alive {
        Do(WriteCaptured);
      }
    }

    method SuspendAndDelete(luck: nat -> Luck)
      requires Valid() && w.pc.Suspend?
      modifies this
      ensures Valid() && old(ws) <= ws && old(es) <= es && w.pc.Idle?
      ensures AllCalm(luck) && old(w.cluster).Some? ==>
                w == old(w).(release := SetSuspended(old(w.release), true), cluster := MarkTerminating(old(w.cluster)),
                    pc := Idle)
    {
      var alive := Await(luck(1));
      if !alive { return; }
      Do(SuspendRelease);
      DeleteAndCheck(luck);
    }

    method DeleteAndCheck(luck: nat -> Luck)
      requires Valid() && w.pc.DeleteCluster?
      modifies this
      ensures Valid() && old(ws) <= ws && old(es) <= es && w.pc.Idle?
      ensures AllCalm(luck) && old(w.cluster).Some? ==>
                w == old(w).(cluster := MarkTerminating(old(w.cluster)), pc := Idle)
      ensures c.deleteErrors && !luck(2).crash && !luck(2).ok && Calm(luck(3)) && Calm(luck(4)) ==>
                w.job.phase.Failed? && w.release != Release(true)
    {
      var alive := Await(luck(2));
      if !alive { return; }
      if c.deleteErrors && !luck(2).ok {
        Do(DeleteError(luck(2).applied));
        MarkFailedAndResume(luck(3), luck(4));
      } else {
        Do(Delete);
        CheckGone(luck);
      }
    }

    /** The cluster was read as gone, and after that its volumes. */
    ghost predicate SawGone(from: nat)
      requires Valid()
      reads this
    {
      exists k: nat, l: nat ::
        && from <= k < l < |es|
        && es[k].ClusterChecked? && ws[k].cluster.None? && es[l].VolumesChecked? && !ws[l].volumes
    }

    /** etcdClusterFullyGone, its error path, and the write that follows a positive answer. */
    method CheckGone(luck: nat -> Luck)
      requires Valid() && w.pc.CheckCluster?
      modifies this
      ensures Valid() && old(ws) <= ws && old(es) <= es && w.pc.Idle?
      ensures w.job.purged && !old(w.job.purged) ==> SawGone(old(|es|))
      ensures !c.goneErrors ==> w.release == old(w.release)
      ensures AllCalm(luck) && old(w.cluster).Some? ==> w == old(w).(pc := Idle)
      ensures c.goneErrors && !luck(3).crash && !luck(3).ok && Calm(luck(4)) ==> w.release != Release(true)
    {
      var alive := Await(luck(3));
      if !alive { return; }
      if c.goneErrors && !luck(3).ok {
        ResumeAfterError(luck(4));
        return;
      }
      var gone := w.cluster.None?;
      ghost var at := |es|;
      Do(ClusterChecked);
      if gone {
        assert es[at].ClusterChecked? && ws[at].cluster.None?;
        CheckVolumesGone(luck, at);
      }
    }

    method CheckVolumesGone(luck: nat -> Luck, ghost at: nat)
      requires Valid() && w.pc.CheckVolumes?
      requires at < |es| && es[at].ClusterChecked? && ws[at].cluster.None?
      modifies this
      ensures Valid() && old(ws) <= ws && old(es) <= es && w.pc.Idle?
      ensures w.job.purged && !old(w.job.purged) ==> SawGone(at)
      ensures !c.goneErrors ==> w.release == old(w.release)
    {
      var alive := Await(luck(4));
      if !alive { return; }
      if c.goneErrors && !luck(4).ok {
        ResumeAfterError(luck(5));
        return;
      }
      var gone := !w.volumes;
      ghost var after := |es|;
      Do(VolumesChecked);
      if gone {
        assert es[after].VolumesChecked? && !ws[after].volumes;
        RecordTargetPurged(luck(5));
        assert es[at].ClusterChecked? && ws[at].cluster.None? && es[after].VolumesChecked? && !ws[after].volumes;
      }
    }

    method ResumeAfterError(luck: Luck)
      requires Valid() && c.goneErrors && (w.pc.CheckCluster? || w.pc.CheckVolumes?)
      modifies this
      ensures Valid() && old(ws) <= ws && old(es) <= es && w.pc.Idle?
      ensures w.job == old(w.job)
      ensures !luck.crash && luck.ok ==> w.release == SetSuspended(old(w.release), false)
    {
      Do(GoneError);
      var alive := Await(luck);
      if alive {
        Do(LetGoResume(luck.ok || !c.resumeErrors));
      }
    }

    /** The second half: recreate, then poll until it is available or late. */
    method ReconcileRecreate(luck: nat -> Luck)
      requires Valid() && w.pc.Recreate? && w.job.startedAt.Some?
      modifies this
      ensures Valid() && old(ws) <= ws && old(es) <= es && w.pc.Idle?
      ensures AllCalm(luck) ==> w == CalmRecreate(c, old(w))
    {
      var alive := Await(luck(0));
      if !alive { return; }
      var missing := w.cluster.None?;
      Do(Found);
      alive := Await(luck(1));
      if !alive { return; }
      if missing {
        RebuildCluster(luck);
      } else {
        PollReady(luck);
      }
    }

    method RebuildCluster(luck: nat -> Luck)
      requires Valid() && w.pc.Rebuild?
      modifies this
      ensures Valid() && old(ws) <= ws && old(es) <= es && w.pc.Idle?
      ensures AllCalm(luck) && old(w.cluster).None? ==> w == CalmRecreate(c, old(w))
    {
      var spec := ReadCaptured(c, w.job);
      Do(Create);
      if spec.None? {
        MarkFailedAndResume(luck(2), luck(3));
      }
    }

    method PollReady(luck: nat -> Luck)
      requires Valid() && w.pc.Poll? && w.job.startedAt.Some?
      modifies this
      ensures Valid() && old(ws) <= ws && old(es) <= es && w.pc.Idle?
      ensures AllCalm(luck) && old(w.cluster).Some? ==> w == CalmRecreate(c, old(w))
    {
      if w.cluster.Some? && w.cluster.value.available {
        Do(Polled);
        ResumeAndSucceed(luck(2), luck(3));
      } else {
        var late := w.cluster.Some? && w.clock > w.job.startedAt.value + c.deadline;
        Do(Polled);
        if late {
          MarkFailedAndResume(luck(2), luck(3));
        }
      }
    }

    method ResumeAndSucceed(resume: Luck, write: Luck)
      requires Valid() && w.pc.Resume?
      modifies this
      ensures Valid() && old(ws) <= ws && old(es) <= es && w.pc.Idle?
      ensures !resume.crash && !write.crash ==>
          w.job.phase.Succeeded? && w.release == SetSuspended(old(w.release), false)
      ensures Calm(resume) && Calm(write) ==> w == Resumed(old(w)).(job := old(w.job).(phase := Succeeded), pc := Idle)
    {
      var alive := Await(resume);
      if !alive { return; }
      Do(ResumeRelease);
      alive := Await(write);
      if alive {
        Do(WriteSucceeded);
      }
    }

    method Pass(valid: bool, luck: nat -> Luck)
      requires Valid() && w.pc.Idle?
      modifies this
      ensures Valid() && old(ws) <= ws && old(es) <= es && w.pc.Idle?
      ensures Terminal(old(w.job)) ==> w == old(w)
      ensures AllCalm(luck) ==> w == CalmPass(c, old(w), valid)
    {
      if Terminal(w.job) { return; }
      var alive := Await(luck(0));
      if !alive { return; }
      if c.inputErrors && !valid {
        Do(RejectInput);
        MarkFailed(luck(1));
      } else if w.job.startedAt.None? {
        Do(Start);
      } else {
        var purged := w.job.purged;
        Do(Begin);
        if purged {
          ReconcileRecreate((n: nat) => luck(n + 1));
        } else {
          ReconcilePurge((n: nat) => luck(n + 1));
        }
      }
    }

    /** One pass. Whatever happens around its calls, the history stays a run: the captured spec is
        as it was, and with the faults of Faultless excluded a success is a restored cluster. */
    method Reconcile(valid: bool, luck: nat -> Luck)
      requires Valid() && w.pc.Idle?
      modifies this
      ensures Valid() && old(ws) <= ws && old(es) <= es && w.pc.Idle?
      ensures Terminal(old(w.job)) ==> w == old(w)
      ensures old(w.job.captured).Some? ==> w.job.captured == old(w.job.captured)
      ensures Faultless(c) && w.job.phase.Succeeded? ==> SawOursAvailable(c, ws, es, |ws| - 1)
      ensures !c.inputErrors && !c.resumeErrors && !c.startsSuspended && Terminal(w.job) ==> w.release != Release(true)
      ensures Caused(c, w)
      // Undisturbed, the pass does exactly this.
      ensures AllCalm(luck) ==> w == CalmPass(c, old(w), valid)
    {
      ghost var before: nat := |ws| - 1;
      Pass(valid, luck);
      ghost var last: nat := |ws| - 1;
      FailsForCause(c, ws, es, last);
      if old(w.job.captured).Some? {
        CaptureNeverChanges(c, ws, es, before, last);
      }
      if Faultless(c) && w.job.phase.Succeeded? {
        SuccessMeansRestored(c, ws, es, last);
      }
      if !c.inputErrors && !c.resumeErrors && !c.startsSuspended {
        TerminalMeansReleased(c, ws, es, last);
      }
    }
  }
}
