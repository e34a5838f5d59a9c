/** What one undisturbed CNPG pass comes to, and that it moves the restore on. */
module CnpgCalm {
  import opened Basics
  import opened Helm
  import opened CnpgProtocol

  /** What a pass learns from objects outside the protocol. */
  datatype Inputs = Inputs(valid: bool, majorMismatch: bool, walReady: bool)

  function FailedWith(w: World, r: Reason): World {
    w.(job := w.job.(phase := Failed(r)), pc := Idle)
  }

  function AllTerminating(pvcs: map<nat, Pvc>): map<nat, Pvc> {
    map id | id in pvcs :: pvcs[id].(terminating := true)
  }

  /** Suspended, patched, everything asked to go, and looked at again. */
  function Purged(c: Setting, w: World): World {
    var asked := w.(release := SetSuspended(w.release, true), app := App(true, c.mark),
                    cluster := MarkTerminating(w.cluster), pvcs := AllTerminating(w.pvcs));
    asked.(pc := if w.cluster.None? && w.pvcs == map[] then Resume(false, false) else Idle)
  }

  function WaitedForWal(c: Setting, w: World): World {
    var waiting := w.(job := w.job.(walPending := Some(Since(w.job.walPending, w.clock))), pc := Idle);
    if w.clock > Since(w.job.walPending, w.clock) + c.walDeadline
    then FailedWith(waiting, WalArchiveTimeout) else waiting
  }

  function Concluded(c: Setting, w: World, sawRecovery: bool): World {
    if sawRecovery && w.cluster.Some? && w.cluster.value.healthy && w.job.converged.None?
    then w.(job := w.job.(converged := Some(w.clock)), pc := Idle)
    else if w.job.converged.Some?
    then w.(app := w.app.(bootstrapEnabled := false), job := w.job.(phase := Succeeded, disablePending := false),
        pc := Idle)
    else if w.job.startedAt.Some? && w.clock > w.job.startedAt.value + c.restoreDeadline
    then FailedWith(w, DeadlineExceeded)
    else w.(pc := Idle)
  }

  function Resumed(c: Setting, w: World, wasPurged: bool, sawRecovery: bool): World {
    var running := w.(release := SetSuspended(w.release, false));
    if wasPurged then Concluded(c, running, sawRecovery)
    else running.(job := w.job.(targetPurged := true), pc := Idle)
  }

  function Gated(c: Setting, w: World, inputs: Inputs): World {
    if inputs.majorMismatch then FailedWith(w, MajorVersionMismatch)
    else if !inputs.walReady then WaitedForWal(c, w)
    else if Purged(c, w).pc.Idle? then Purged(c, w)
    else Resumed(c, Purged(c, w), false, false)
  }

  function Acted(c: Setting, w: World, inputs: Inputs): World {
    var seen := RecoveryState(w.cluster);
    if PurgeNeeded(w.job.targetPurged, FreshlyRecovered(seen, c.mark, w.app.newServerName, w.job.startedAt))
    then Gated(c, w, inputs)
    else Resumed(c, w, w.job.targetPurged, seen.hasRecovery)
  }

  /** The whole pass, with nobody else acting and no call failing. */
  function CalmPass(c: Setting, w: World, inputs: Inputs): World {
    if Terminal(w.job) then w
    else if w.job.startedAt.None? then w.(job := w.job.(startedAt := Some(w.clock)))
    else if c.inputErrors && !inputs.valid then FailedWith(w, InvalidInput)
    else Acted(c, w, inputs)
  }

  // ---------------------------------------------------------------- every pass moves on

  const READY := Inputs(true, false, true)

  predicate Running(w: World) {
    w.pc.Idle? && w.job.phase.Running? && w.job.startedAt.Some?
  }

  /** A live recovery Cluster that carries this restore's annotation. */
  predicate ShowsMark(c: Setting, w: World) {
    && w.cluster.Some? && !w.cluster.value.terminating && w.cluster.value.hasRecovery
    && w.cluster.value.annotation == c.mark
  }

  /** The first pass stamps the job. */
  lemma CalmStarts(c: Setting, w: World)
    requires w.pc.Idle? && w.job.phase.Running? && w.job.startedAt.None?
    ensures CalmPass(c, w, READY).job.startedAt == Some(w.clock)
  {
  }

  /** Over a database that is not this restore's, a pass with open gates suspends the release, patches
      the app and asks the Cluster and every PVC to go. */
  lemma CalmPurges(c: Setting, w: World)
    requires Running(w) && !w.job.targetPurged && c.mark != ""
    requires w.cluster.Some? && w.cluster.value.annotation != "" && w.cluster.value.annotation != c.mark
    ensures var w' := CalmPass(c, w, READY);
            && w'.app == App(true, c.mark) && w'.release != Release(false)
            && w'.cluster.Some? && w'.cluster.value.terminating
            && w'.pvcs.Keys == w.pvcs.Keys && forall id <- w'.pvcs :: w'.pvcs[id].terminating
  {
  }

  /** Over nothing it records the purge and lets Helm render. */
  lemma CalmRecordsPurge(c: Setting, w: World)
    requires Running(w) && !w.job.targetPurged && w.cluster.None? && w.pvcs == map[]
    ensures var w' := CalmPass(c, w, READY);
            w'.job.targetPurged && w'.app == App(true, c.mark) && w'.release != Release(true)
  {
  }

  /** Over this restore's own Cluster it records the purge without touching anything. */
  lemma CalmKeepsOwn(c: Setting, w: World)
    requires Running(w) && !w.job.targetPurged && c.mark != "" && ShowsMark(c, w)
    ensures var w' := CalmPass(c, w, READY);
            w'.job.targetPurged && w'.cluster == w.cluster && w'.pvcs == w.pvcs && w'.release != Release(true)
  {
  }

  /** A healthy one converges, a converged restore succeeds. */
  lemma CalmConverges(c: Setting, w: World)
    requires Running(w) && w.job.targetPurged && w.job.converged.None? && ShowsMark(c, w) && w.cluster.value.healthy
    ensures CalmPass(c, w, READY).job.converged == Some(w.clock)
  {
  }

  lemma CalmSucceeds(c: Setting, w: World)
    requires Running(w) && w.job.targetPurged && w.job.converged.Some?
    ensures var w' := CalmPass(c, w, READY); w'.job.phase.Succeeded? && !w'.app.bootstrapEnabled
  {
  }

  /** Until then a purged restore waits, and fails exactly when it is late. */
  lemma CalmWaits(c: Setting, w: World)
    requires Running(w) && w.job.targetPurged && w.job.converged.None?
    requires w.cluster.None? || !w.cluster.value.healthy
    ensures var w' := CalmPass(c, w, READY);
            w'.job == if w.clock > w.job.startedAt.value + c.restoreDeadline
                      then w.job.(phase := Failed(DeadlineExceeded)) else w.job
  {
  }

  // ---------------------------------------------------------------- and five of them finish it

  /** What a cooperative cluster does between passes: finish deletions, then render what Helm may
      render, healthy. */
  function Cooperate(c: Setting, w: World): World {
    var cleared := w.(
      cluster := if w.cluster.Some? && w.cluster.value.terminating then None else w.cluster,
      pvcs := map id | id in w.pvcs && !w.pvcs[id].terminating :: w.pvcs[id]);
    if HelmActive(cleared) && cleared.cluster.None?
    then cleared.(cluster := Some(Rendered(c, cleared).(healthy := true)), nextUid := w.nextUid + 1)
    else cleared
  }

  function Round(c: Setting, w: World): World {
    Cooperate(c, CalmPass(c, w, READY))
  }

  predicate Foreign(c: Setting, w: World) {
    w.cluster.Some? && !(w.cluster.value.hasRecovery && w.cluster.value.annotation in {"", c.mark})
  }

  /** Purged in this round or the next, whatever was there. */
  lemma RoundPurges(c: Setting, w: World)
    requires Running(w) && !w.job.targetPurged && c.mark != "" && c.annotated && w.release.Release?
    requires w.cluster.Some? ==> Foreign(c, w)
    ensures var w' := Round(c, w);
            || (w' == w.(release := Release(true), app := App(true, c.mark), cluster := None, pvcs := map[]))
            || (w'.job == w.job.(targetPurged := true) && Running(w') && w'.clock == w.clock
                && w'.release == Release(false) && ShowsMark(c, w') && w'.cluster.value.healthy
                && w'.cluster.value.origin == RecoveredFor(c.mark))
  {
    var p := CalmPass(c, w, READY);
    if w.cluster.None? && w.pvcs == map[] {
      assert p == w.(release := Release(false), app := App(true, c.mark), job := w.job.(targetPurged := true),
          pvcs := AllTerminating(w.pvcs));
    } else {
      assert p == Purged(c, w);
      assert Round(c, w).pvcs == map[];
    }
  }

  lemma RoundRenders(c: Setting, w: World)
    requires Running(w) && !w.job.targetPurged && c.mark != "" && c.annotated && w.release.Release?
    requires w.cluster.None? && w.pvcs == map[]
    ensures var w' := Round(c, w);
            && w'.job == w.job.(targetPurged := true) && Running(w') && w'.clock == w.clock
            && w'.release == Release(false) && ShowsMark(c, w') && w'.cluster.value.healthy
            && w'.cluster.value.origin == RecoveredFor(c.mark)
  {
    assert AllTerminating(w.pvcs) == map[];
  }

  lemma RoundsFinish(c: Setting, w: World)
    requires Running(w) && w.job.targetPurged && w.job.converged.None? && w.release == Release(false)
    requires ShowsMark(c, w) && w.cluster.value.healthy
    ensures var w' := Round(c, Round(c, w));
            w'.job.phase.Succeeded? && !w'.app.bootstrapEnabled && w'.cluster == w.cluster
  {
    var w1 := Round(c, w);
    assert w1.job == w.job.(converged := Some(w.clock)) && w1.cluster == w.cluster && w1.release == w.release
        && Running(w1);
  }

  /** With a cooperative cluster, four rounds after the start the restore has succeeded, over the
      Cluster recovered for it. */
  lemma CooperativeRestoreSucceeds(c: Setting, w: World)
    requires Running(w) && !w.job.targetPurged && w.job.converged.None? && c.mark != "" && c.annotated
        && w.release.Release?
    requires w.cluster.Some? ==> Foreign(c, w)
    ensures var w' := Round(c, Round(c, Round(c, Round(c, w))));
            w'.job.phase.Succeeded? && w'.cluster.Some? && w'.cluster.value.origin == RecoveredFor(c.mark)
  {
    RoundPurges(c, w);
    var w1 := Round(c, w);
    if w1.job.targetPurged {
      RoundsFinish(c, w1);
      SucceededStays(c, Round(c, Round(c, w1)));
    } else {
      RoundRenders(c, w1);
      RoundsFinish(c, Round(c, w1));
    }
  }

  lemma SucceededStays(c: Setting, w: World)
    requires w.job.phase.Succeeded?
    ensures Round(c, w).job == w.job
    ensures w.cluster.Some? && !w.cluster.value.terminating ==> Round(c, w).cluster == w.cluster
  {
  }
}
