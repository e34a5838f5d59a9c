/** Why an etcd restore may fail, what one undisturbed pass comes to, and that it moves the restore on. */
module EtcdCalm {
  import opened Basics
  import opened Helm
  import opened EtcdProtocol
  import opened EtcdProofs

  // ---------------------------------------------------------------- why a restore fails

  predicate Late(c: Setting, w: World) {
    w.job.startedAt.Some? && w.clock > w.job.startedAt.value + c.deadline
  }

  /** A poll gives up exactly on a cluster that is not available past the deadline, and decides for
      success exactly on an available one. */
  lemma PollDecides(c: Setting, ws: seq<World>, es: seq<Event>, k: nat)
    requires Run(c, ws, es) && k < |es| && es[k].Polled?
    ensures ws[k + 1].pc.Abort? <==>
              && ws[k].cluster.Some? && !ws[k].cluster.value.available
              && ws[k].clock > ws[k].job.startedAt.value + c.deadline
    ensures ws[k + 1].pc.Resume? <==> ws[k].cluster.Some? && ws[k].cluster.value.available
  {
  }

  /** The first look fails the job exactly over no cluster, or a spec that is empty or too long to
      keep, with nothing captured before. */
  lemma LookDecides(c: Setting, ws: seq<World>, es: seq<Event>, k: nat)
    requires Run(c, ws, es) && k < |es| && es[k].Looked?
    ensures ws[k + 1].pc.RecordFailed? <==>
              && ws[k].job.captured.None?
              && (|| ws[k].cluster.None? || ws[k].cluster.value.spec == map[]
                  || |c.enc(ws[k].cluster.value.spec)| > 24 * 1024)
  {
  }

  /** A job that fails after its capture is past its deadline, unless an input or a delete failed. */
  predicate Caused(c: Setting, w: World) {
    && (w.pc.Abort? ==> c.deleteErrors || Late(c, w))
    && (w.pc.RecordFailed? || w.job.phase.Failed? ==>
          c.inputErrors || c.deleteErrors || w.job.captured.None? || Late(c, w))
  }

  lemma CausedStep(c: Setting, w: World, e: Event)
    requires Sane(c) && Shape(c, w) && Caused(c, w) && Enabled(c, w, e)
    ensures Caused(c, Apply(c, w, e))
  {
  }

  lemma {:induction false} FailsForCause(c: Setting, ws: seq<World>, es: seq<Event>, i: nat)
    requires Sane(c) && Run(c, ws, es) && i < |ws|
    ensures Caused(c, ws[i])
  {
    if i > 0 {
      FailsForCause(c, ws, es, i - 1);
      ShapeThroughout(c, ws, es, i - 1);
      CausedStep(c, ws[i - 1], es[i - 1]);
    }
  }

  // ---------------------------------------------------------------- an undisturbed pass

  function FailedNow(w: World): World {
    w.(job := w.job.(phase := Failed), pc := Idle)
  }

  function Resumed(w: World): World {
    w.(release := SetSuspended(w.release, false))
  }

  /** Capture, then suspend and delete, then record. */
  function CalmPurge(c: Setting, w: World): World {
    if w.cluster.None? then
      if w.job.captured.Some? then w.(job := w.job.(purged := true), pc := Idle) else FailedNow(w)
    else if w.job.captured.Some? then
      w.(release := SetSuspended(w.release, true), cluster := MarkTerminating(w.cluster), pc := Idle)
    else if w.cluster.value.spec == map[] || |c.enc(w.cluster.value.spec)| > CAPTURE_LIMIT then FailedNow(w)
    else w.(job := w.job.(captured := Some(c.enc(w.cluster.value.spec))), pc := Idle)
  }

  /** Recreate, then wait until the cluster is available or the job is late. */
  function CalmRecreate(c: Setting, w: World): World {
    if w.cluster.None? then
      var spec := ReadCaptured(c, w.job);
      if spec.None? then FailedNow(Resumed(w))
      else
        var restored := WithRestore(c, spec.value);
        w.(cluster := Some(Cluster(restored, restored, true, false, false)), pc := Idle)
    else if w.cluster.value.available then Resumed(w).(job := w.job.(phase := Succeeded), pc := Idle)
    else if Late(c, w) then FailedNow(Resumed(w))
    else w.(pc := Idle)
  }

  function CalmPass(c: Setting, w: World, valid: bool): World {
    if Terminal(w.job) then w
    else if c.inputErrors && !valid then FailedNow(w)
    else if w.job.startedAt.None? then w.(job := w.job.(startedAt := Some(w.clock)))
    else if w.job.purged then CalmRecreate(c, w)
    else CalmPurge(c, w)
  }

  /** A recreated cluster that is not up is waited for, and given up exactly past the deadline. */
  lemma CalmWaits(c: Setting, w: World)
    requires w.pc.Idle? && w.job.phase.Running? && w.job.startedAt.Some? && w.job.purged
    requires w.cluster.Some? && !w.cluster.value.available
    ensures var w' := CalmPass(c, w, true);
            if w.clock > w.job.startedAt.value + c.deadline then w'.job.phase.Failed? && w'.release != Release(true)
            else w' == w
  {
  }

  // ---------------------------------------------------------------- five rounds finish it

  /** What a cooperative cluster does between passes: finish a deletion, render what Helm may
      render, and bring a cluster that stays up. */
  function Cooperate(w: World, rendered: Spec): World {
    var cleared := if w.cluster.Some? && w.cluster.value.terminating then w.(cluster := None) else w;
    if cleared.cluster.Some? then cleared.(cluster := Some(cleared.cluster.value.(available := true)))
    else if HelmActive(cleared) then cleared.(cluster := Some(Cluster(rendered, rendered, false, false, true)))
    else cleared
  }

  function Round(c: Setting, w: World, rendered: Spec): World {
    Cooperate(CalmPass(c, w, true), rendered)
  }

  predicate Running(w: World) {
    w.pc.Idle? && w.job.phase.Running? && w.job.startedAt.Some?
  }

  lemma RoundCaptures(c: Setting, w: World, rendered: Spec)
    requires Running(w) && w.job.captured.None? && !w.job.purged
    requires w.cluster.Some? && !w.cluster.value.terminating && Capturable(c, w.cluster.value.spec)
    ensures var w' := Round(c, w, rendered);
            && w'.job == w.job.(captured := Some(c.enc(w.cluster.value.spec))) && Running(w') && w'.release == w.release
            && w'.cluster.Some? && !w'.cluster.value.terminating
  {
  }

  lemma RoundDeletes(c: Setting, w: World, rendered: Spec)
    requires Running(w) && w.job.captured.Some? && !w.job.purged && w.cluster.Some? && w.release.Release?
    ensures var w' := Round(c, w, rendered);
            w'.job == w.job && Running(w') && w'.release == Release(true) && w'.cluster.None?
  {
  }

  lemma RoundRecordsPurge(c: Setting, w: World, rendered: Spec)
    requires Running(w) && w.job.captured.Some? && !w.job.purged && w.cluster.None? && w.release == Release(true)
    ensures var w' := Round(c, w, rendered);
            w'.job == w.job.(purged := true) && Running(w') && w'.release == w.release && w'.cluster.None?
  {
  }

  lemma RoundRecreates(c: Setting, w: World, rendered: Spec, spec: Spec)
    requires Sane(c) && Running(w) && w.job.purged && w.job.captured == Some(c.enc(spec)) && spec != map[]
    requires w.cluster.None? && w.release == Release(true)
    ensures var w' := Round(c, w, rendered);
            && w'.job == w.job && Running(w') && w'.release == w.release && HasOurs(w') && w'.cluster.value.available
            && w'.cluster.value.bornWith == spec["bootstrap" := Restore(c.dest)]
  {
  }

  lemma RoundSucceeds(c: Setting, w: World, rendered: Spec)
    requires Running(w) && w.job.purged && HasOurs(w) && w.cluster.value.available && !w.cluster.value.terminating
    ensures var w' := Round(c, w, rendered);
            w'.job.phase.Succeeded? && w'.release != Release(true) && w'.cluster == w.cluster
  {
  }

  /** With a cooperative cluster, five rounds after the start the restore has succeeded: the cluster
      has its old spec, bootstrapped from the destination, and the release runs again. */
  lemma CooperativeRestoreSucceeds(c: Setting, w: World, rendered: Spec)
    requires Sane(c) && Running(w) && w.job.captured.None? && !w.job.purged && w.release.Release?
    requires w.cluster.Some? && !w.cluster.value.terminating && Capturable(c, w.cluster.value.spec)
    ensures var w1 := Round(c, Round(c, Round(c, w, rendered), rendered), rendered);
            var w' := Round(c, Round(c, w1, rendered), rendered);
            && w'.job.phase.Succeeded? && w'.release != Release(true) && HasOurs(w')
            && w'.cluster.value.bornWith == w.cluster.value.spec["bootstrap" := Restore(c.dest)]
  {
    RoundCaptures(c, w, rendered);
    var captured := Round(c, w, rendered);
    RoundDeletes(c, captured, rendered);
    var deleted := Round(c, captured, rendered);
    RoundRecordsPurge(c, deleted, rendered);
    var purged := Round(c, deleted, rendered);
    RoundRecreates(c, purged, rendered, w.cluster.value.spec);
    RoundSucceeds(c, Round(c, purged, rendered), rendered);
  }
}
