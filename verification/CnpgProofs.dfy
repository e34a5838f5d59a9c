/** Whole-run properties of the CNPG restore protocol. */
module CnpgProofs {
  import opened Basics
  import opened CnpgProtocol

  // ---------------------------------------------------------------- invariants

  predicate Marked(c: Setting, w: World) {
    w.app.newServerName == c.mark
  }

  /** Program points at which the purge of this pass is still going on. */
  predicate InPurge(pc: Pc) {
    Purging(pc) || pc.CheckCluster? || pc.CheckPvcs?
  }

  predicate BeforePurge(pc: Pc) {
    pc.AwaitWal? || pc.Suspend? || pc.PatchApp? || pc.Abort?
  }

  predicate AfterPurge(pc: Pc) {
    pc.CheckHealth? || pc.LatchConverged? || pc.Settle? || pc.DisableBootstrap? || pc.RecordSucceeded?
  }

  /** The only way a converged restore may fail while its inputs stay valid. */
  predicate LateFailure(c: Setting, w: World, r: Reason) {
    w.job.converged.Some? && !c.inputErrors ==>
      r == BootstrapDisableFailed && Exceeded(w.job.converged.value, w.clock, c.grace)
  }

  /** Facts about the pass and its locals that hold under every fault. */
  predicate Shape(c: Setting, w: World) {
    && (Terminal(w.job) ==> w.pc.Idle?)
    && (!w.pc.Idle? ==> w.job.startedAt.Some?)
    && (w.job.converged.Some? ==> w.job.targetPurged)
    && (w.job.targetPurged ==> Marked(c, w))
    && (w.pc.Decide? ==> w.pc.purged == w.job.targetPurged)
    && (InPurge(w.pc) || BeforePurge(w.pc) || w.pc.RecordPurged? ==> !w.job.targetPurged)
    && (w.pc.Resume? ==> w.pc.wasPurged == w.job.targetPurged)
    && (InPurge(w.pc) || w.pc.Resume? || w.pc.RecordPurged? ==> Marked(c, w))
    && (AfterPurge(w.pc) ==> w.job.targetPurged)
    && (w.pc.LatchConverged? ==> w.job.converged.None?)
    && (w.pc.DisableBootstrap? || w.pc.RecordSucceeded? ==> w.job.converged.Some?)
    && (w.pc.RecordSucceeded? || w.job.phase.Succeeded? ==> !w.app.bootstrapEnabled)
    && (w.job.phase.Succeeded? ==> w.job.converged.Some?)
    && (w.pc.RecordFailed? ==> LateFailure(c, w, w.pc.reason))
    && (w.job.phase.Failed? ==> LateFailure(c, w, w.job.phase.reason))
    && (Marked(c, w) && !w.app.bootstrapEnabled ==> w.job.converged.Some?)
    && (w.pc.Decide? && (w.pc.seen.restoreMark == c.mark || w.pc.appMark == c.mark) ==> Marked(c, w))
    && (w.cluster.Some? && w.cluster.value.annotation == c.mark ==> Marked(c, w))
    && (w.cluster.Some? && w.cluster.value.origin == RecoveredFor(c.mark) ==> Marked(c, w))
  }

  predicate IsPurgeStep(e: Event) {
    PreparesPurge(e) || IsPurgeCall(e)
  }

  predicate PreparesPurge(e: Event) {
    e.NeedPurge? || e.SkipPurge? || e.WaitForWal? || e.SuspendRelease? || e.Patch? || e.PatchError?
  }

  predicate IsPurgeCall(e: Event) {
    || e.Delete? || e.PurgeError? || e.ListedPvcs? || e.DeletedPvc? || e.PvcsRequested?
    || e.ClusterChecked? || e.PvcsChecked?
  }

  lemma ShapeHelm(c: Setting, w: World, e: Event)
    requires c.mark != "" && IsHelm(e)
    requires Shape(c, w) && Enabled(c, w, e)
    ensures Shape(c, Apply(c, w, e))
  {
  }

  lemma ShapeEnvironment(c: Setting, w: World, e: Event)
    requires c.mark != "" && IsEnvironment(e) && !IsHelm(e)
    requires Shape(c, w) && Enabled(c, w, e)
    ensures Shape(c, Apply(c, w, e))
  {
  }

  lemma ShapePreparing(c: Setting, w: World, e: Event)
    requires c.mark != "" && PreparesPurge(e)
    requires Shape(c, w) && Enabled(c, w, e)
    ensures Shape(c, Apply(c, w, e))
  {
  }

  lemma ShapePurging(c: Setting, w: World, e: Event)
    requires c.mark != "" && IsPurgeCall(e)
    requires Shape(c, w) && Enabled(c, w, e)
    ensures Shape(c, Apply(c, w, e))
  {
  }

  lemma ShapeSettling(c: Setting, w: World, e: Event)
    requires c.mark != "" && !IsEnvironment(e) && !IsPurgeStep(e)
    requires Shape(c, w) && Enabled(c, w, e)
    ensures Shape(c, Apply(c, w, e))
  {
  }

  lemma ShapeStep(c: Setting, w: World, e: Event)
    requires c.mark != ""
    requires Shape(c, w) && Enabled(c, w, e)
    ensures Shape(c, Apply(c, w, e))
  {
    if IsHelm(e) {
      ShapeHelm(c, w, e);
    } else if IsEnvironment(e) {
      ShapeEnvironment(c, w, e);
    } else if PreparesPurge(e) {
      ShapePreparing(c, w, e);
    } else if IsPurgeCall(e) {
      ShapePurging(c, w, e);
    } else {
      ShapeSettling(c, w, e);
    }
  }

  // ---- objects of this restore

  predicate OwnCluster(c: Setting, cl: Cluster) {
    cl.annotation == c.mark && cl.origin == RecoveredFor(c.mark) && cl.hasRecovery
  }

  ghost predicate OwnPvcs(c: Setting, w: World) {
    forall id <- w.pvcs :: w.pvcs[id].origin == RecoveredFor(c.mark)
  }

  /** Everything that exists was recovered for this restore. */
  ghost predicate OnlyOwn(c: Setting, w: World) {
    (w.cluster.Some? ==> OwnCluster(c, w.cluster.value)) && OwnPvcs(c, w)
  }

  /** Nothing that existed before the RestoreJob is left. */
  ghost predicate NoneOld(c: Setting, w: World) {
    && (w.cluster.Some? ==> w.cluster.value.uid >= c.epoch)
    && forall id <- w.pvcs :: id >= c.epoch
  }

  /** The chart annotation is where the setting says it is. */
  predicate Labelled(c: Setting, w: World) {
    && (c.annotated && w.app.bootstrapEnabled ==> w.app.newServerName != "")
    && (c.annotated && w.cluster.Some? && w.cluster.value.hasRecovery ==> w.cluster.value.annotation != "")
    && (c.annotated && w.pc.Decide? && w.pc.seen.hasRecovery ==> w.pc.seen.restoreMark != "")
  }

  predicate SawOwn(c: Setting, pc: Pc) {
    pc.Decide? && pc.seen.hasRecovery && pc.seen.restoreMark == c.mark
  }

  /** The old database is out of reach from here on. */
  predicate Sealed(c: Setting, w: World) {
    && Marked(c, w)
    && (|| HelmActive(w) || w.job.targetPurged || w.pc.Resume? || w.pc.RecordPurged? || SawOwn(c, w.pc)
        || (w.cluster.Some? && w.cluster.value.annotation == c.mark))
  }

  ghost predicate Safe(c: Setting, w: World) {
    && Labelled(c, w)
    && w.nextUid >= c.epoch
    && (w.pc.PatchApp? || InPurge(w.pc) ==> !HelmActive(w))
    && (w.pc.CheckPvcs? ==> w.cluster.None?)
    && !w.pc.Abort?
    && (Sealed(c, w) ==> NoneOld(c, w) && (w.job.converged.None? ==> OnlyOwn(c, w)))
  }

  lemma SafeHelm(c: Setting, w: World, e: Event)
    requires c.annotated && CallsSucceed(c) && c.mark != "" && IsHelm(e)
    requires Shape(c, w) && Safe(c, w) && Enabled(c, w, e)
    ensures Safe(c, Apply(c, w, e))
  {
  }

  lemma SafeEnvironment(c: Setting, w: World, e: Event)
    requires c.annotated && CallsSucceed(c) && c.mark != "" && IsEnvironment(e) && !IsHelm(e)
    requires Shape(c, w) && Safe(c, w) && Enabled(c, w, e)
    ensures Safe(c, Apply(c, w, e))
  {
  }

  lemma SafePreparing(c: Setting, w: World, e: Event)
    requires c.annotated && CallsSucceed(c) && c.mark != "" && PreparesPurge(e)
    requires Shape(c, w) && Safe(c, w) && Enabled(c, w, e)
    ensures Safe(c, Apply(c, w, e))
  {
  }

  lemma SafePurging(c: Setting, w: World, e: Event)
    requires c.annotated && CallsSucceed(c) && c.mark != "" && IsPurgeCall(e)
    requires Shape(c, w) && Safe(c, w) && Enabled(c, w, e)
    ensures Safe(c, Apply(c, w, e))
  {
  }

  lemma SafeSettling(c: Setting, w: World, e: Event)
    requires c.annotated && CallsSucceed(c) && c.mark != "" && !IsEnvironment(e) && !IsPurgeStep(e)
    requires Shape(c, w) && Safe(c, w) && Enabled(c, w, e)
    ensures Safe(c, Apply(c, w, e))
  {
  }

  lemma SafeStep(c: Setting, w: World, e: Event)
    requires c.annotated && CallsSucceed(c) && c.mark != ""
    requires Shape(c, w) && Safe(c, w) && Enabled(c, w, e)
    ensures Safe(c, Apply(c, w, e))
  {
    if IsHelm(e) {
      SafeHelm(c, w, e);
    } else if IsEnvironment(e) {
      SafeEnvironment(c, w, e);
    } else if PreparesPurge(e) {
      SafePreparing(c, w, e);
    } else if IsPurgeCall(e) {
      SafePurging(c, w, e);
    } else {
      SafeSettling(c, w, e);
    }
  }

  lemma {:induction false} ShapeThroughout(c: Setting, ws: seq<World>, es: seq<Event>, i: nat)
    requires Run(c, ws, es) && i < |ws|
    ensures Shape(c, ws[i])
  {
    if i > 0 {
      ShapeThroughout(c, ws, es, i - 1);
      ShapeStep(c, ws[i - 1], es[i - 1]);
    }
  }

  lemma {:induction false} SafeThroughout(c: Setting, ws: seq<World>, es: seq<Event>, i: nat)
    requires c.annotated && CallsSucceed(c)
    requires Run(c, ws, es) && i < |ws|
    ensures Safe(c, ws[i])
  {
    if i > 0 {
      SafeThroughout(c, ws, es, i - 1);
      ShapeThroughout(c, ws, es, i - 1);
      SafeStep(c, ws[i - 1], es[i - 1]);
    }
  }

  // ---------------------------------------------------------------- no silent no-op

  /** Step k created the Cluster `uid` from this restore's values when no Cluster existed
      and no PVC but this restore's own was left. */
  ghost predicate BornOwn(c: Setting, ws: seq<World>, k: nat, uid: nat) {
    && k + 1 < |ws|
    && ws[k].cluster.None? && OwnPvcs(c, ws[k]) && NoneOld(c, ws[k])
    && ws[k + 1].cluster.Some? && ws[k + 1].cluster.value.uid == uid
    && ws[k + 1].cluster.value.origin == RecoveredFor(c.mark)
  }

  /** Step j is the health check of a pass that found a healthy recovery Cluster carrying
      this restore's mark. */
  predicate SawHealthyOwn(c: Setting, w: World, e: Event) {
    && e.HealthChecked? && w.cluster.Some?
    && w.cluster.value.healthy && w.cluster.value.hasRecovery && w.cluster.value.annotation == c.mark
  }

  ghost predicate Restored(c: Setting, ws: seq<World>, es: seq<Event>, i: nat) {
    exists j: nat, k: nat | j < i && j < |es| && j < |ws| && k < j ::
      SawHealthyOwn(c, ws[j], es[j]) && BornOwn(c, ws, k, ws[j].cluster.value.uid)
  }

  predicate ShowsOwn(c: Setting, w: World) {
    w.job.converged.None? && w.cluster.Some? && w.cluster.value.annotation == c.mark
  }

  lemma OwnStaysUnderOthers(c: Setting, w: World, e: Event)
    requires Enabled(c, w, e) && IsEnvironment(e) && !IsHelm(e) && ShowsOwn(c, Apply(c, w, e))
    ensures ShowsOwn(c, w) && w.cluster.value.uid == Apply(c, w, e).cluster.value.uid
  {
  }

  lemma OwnStays(c: Setting, w: World, e: Event)
    requires Enabled(c, w, e) && !IsHelm(e) && ShowsOwn(c, Apply(c, w, e))
    ensures ShowsOwn(c, w) && w.cluster.value.uid == Apply(c, w, e).cluster.value.uid
  {
    if IsEnvironment(e) {
      OwnStaysUnderOthers(c, w, e);
    }
  }

  /** An own Cluster is either rendered by this very step or was there, the same one, before it. */
  lemma OwnAppears(c: Setting, w: World, e: Event)
    requires c.annotated && CallsSucceed(c) && c.mark != ""
    requires Shape(c, w) && Safe(c, w) && Enabled(c, w, e)
    requires ShowsOwn(c, Apply(c, w, e))
    ensures if e.HelmRender? then Sealed(c, w) && w.app.bootstrapEnabled && OnlyOwn(c, w)
            else ShowsOwn(c, w) && w.cluster.value.uid == Apply(c, w, e).cluster.value.uid
  {
    if !IsHelm(e) {
      OwnStays(c, w, e);
    }
  }

  predicate Converging(w: World) {
    w.pc.LatchConverged? || w.job.converged.Some?
  }

  lemma ConvergesOnlyOnHealth(c: Setting, w: World, e: Event)
    requires Enabled(c, w, e) && Converging(Apply(c, w, e)) && !Converging(w)
    ensures e.HealthChecked?
  {
  }

  lemma ConvergenceAppears(c: Setting, w: World, e: Event)
    requires c.annotated && CallsSucceed(c) && c.mark != ""
    requires Shape(c, w) && Safe(c, w) && Enabled(c, w, e)
    requires Converging(Apply(c, w, e))
    ensures Converging(w) || (SawHealthyOwn(c, w, e) && ShowsOwn(c, w))
  {
    if !Converging(w) {
      ConvergesOnlyOnHealth(c, w, e);
    }
  }

  /** Wherever an own Cluster exists before convergence, an earlier step created it clean. */
  lemma {:induction false} OwnClusterWasBornOwn(c: Setting, ws: seq<World>, es: seq<Event>, i: nat)
    returns (k: nat)
    requires c.annotated && CallsSucceed(c)
    requires Run(c, ws, es) && i < |ws|
    requires ShowsOwn(c, ws[i])
    ensures k < i && BornOwn(c, ws, k, ws[i].cluster.value.uid)
  {
    SafeThroughout(c, ws, es, i - 1);
    ShapeThroughout(c, ws, es, i - 1);
    OwnAppears(c, ws[i - 1], es[i - 1]);
    if es[i - 1].HelmRender? {
      k := i - 1;
    } else {
      k := OwnClusterWasBornOwn(c, ws, es, i - 1);
    }
  }

  /** Once a pass is about to latch convergence, or has, the restore has happened. */
  lemma {:induction false} ConvergedMeansRestored(c: Setting, ws: seq<World>, es: seq<Event>, i: nat)
    requires c.annotated && CallsSucceed(c)
    requires Run(c, ws, es) && i < |ws|
    requires Converging(ws[i])
    ensures Restored(c, ws, es, i)
  {
    SafeThroughout(c, ws, es, i - 1);
    ShapeThroughout(c, ws, es, i - 1);
    ConvergenceAppears(c, ws[i - 1], es[i - 1]);
    if Converging(ws[i - 1]) {
      ConvergedMeansRestored(c, ws, es, i - 1);
    } else {
      var k := OwnClusterWasBornOwn(c, ws, es, i - 1);
      assert SawHealthyOwn(c, ws[i - 1], es[i - 1]) && BornOwn(c, ws, k, ws[i - 1].cluster.value.uid);
    }
  }

  /** A restore never reports success over the old database. */
  lemma NoSilentNoOp(c: Setting, ws: seq<World>, es: seq<Event>, i: nat)
    requires c.annotated && CallsSucceed(c)
    requires Run(c, ws, es) && i < |ws|
    requires ws[i].job.phase.Succeeded?
    ensures Restored(c, ws, es, i)
  {
    ShapeThroughout(c, ws, es, i);
    ConvergedMeansRestored(c, ws, es, i);
  }

  // ---------------------------------------------------------------- admission loop

  /** Something is left that predates the RestoreJob or, until convergence, that was not
      recovered for it. */
  ghost predicate ForeignRemains(c: Setting, w: World) {
    !NoneOld(c, w) || (w.job.converged.None? && !OnlyOwn(c, w))
  }

  /** While this restore's values sit next to anything foreign, Helm cannot act on them. */
  lemma HelmStaysOut(c: Setting, ws: seq<World>, es: seq<Event>, i: nat)
    requires c.annotated && CallsSucceed(c)
    requires Run(c, ws, es) && i < |ws|
    requires Marked(c, ws[i]) && ForeignRemains(c, ws[i])
    ensures !HelmActive(ws[i]) && !ws[i].job.targetPurged
  {
    SafeThroughout(c, ws, es, i);
  }

  // ---------------------------------------------------------------- never deletes its own

  /** A pass asks for the deletion of a live Cluster that was recovered for this restore. */
  predicate DeletesOwn(c: Setting, w: World, e: Event) {
    && e.Delete? && w.cluster.Some?
    && !w.cluster.value.terminating && w.cluster.value.origin == RecoveredFor(c.mark)
  }

  predicate BoundToDelete(c: Setting, w: World) {
    || w.pc.AwaitWal? || w.pc.Suspend? || w.pc.PatchApp? || w.pc.DeleteCluster?
    || (w.pc.Decide? && NeedsPurge(c, w))
  }

  /** What a purging pass may rely on when Helm acts only between passes. */
  ghost predicate Undisturbed(c: Setting, w: World) {
    && Labelled(c, w)
    && (w.cluster.Some? && w.cluster.value.origin == RecoveredFor(c.mark) ==>
          && w.cluster.value.annotation == c.mark
          && (w.app.bootstrapEnabled ==> w.cluster.value.hasRecovery))
    && (BoundToDelete(c, w) ==> !LiveOwn(c, w))
  }

  predicate LiveOwn(c: Setting, w: World) {
    w.cluster.Some? && !w.cluster.value.terminating && w.cluster.value.origin == RecoveredFor(c.mark)
  }

  lemma UndisturbedByHelm(c: Setting, w: World, e: Event)
    requires c.annotated && !c.helmInsidePass && c.mark != "" && IsHelm(e)
    requires Shape(c, w) && Undisturbed(c, w) && Enabled(c, w, e)
    ensures Undisturbed(c, Apply(c, w, e))
  {
  }

  lemma UndisturbedByOthers(c: Setting, w: World, e: Event)
    requires c.annotated && !c.helmInsidePass && c.mark != "" && IsEnvironment(e) && !IsHelm(e)
    requires Shape(c, w) && Undisturbed(c, w) && Enabled(c, w, e)
    ensures Undisturbed(c, Apply(c, w, e))
  {
  }

  lemma UndisturbedAtDecision(c: Setting, w: World)
    requires c.annotated && !c.helmInsidePass && c.mark != ""
    requires Shape(c, w) && Undisturbed(c, w) && Enabled(c, w, Begin)
    ensures Undisturbed(c, Apply(c, w, Begin))
  {
  }

  lemma UndisturbedWhilePreparing(c: Setting, w: World, e: Event)
    requires c.annotated && !c.helmInsidePass && c.mark != "" && PreparesPurge(e)
    requires Shape(c, w) && Undisturbed(c, w) && Enabled(c, w, e)
    ensures Undisturbed(c, Apply(c, w, e))
  {
  }

  lemma UndisturbedWhilePurging(c: Setting, w: World, e: Event)
    requires c.annotated && !c.helmInsidePass && c.mark != "" && IsPurgeCall(e)
    requires Shape(c, w) && Undisturbed(c, w) && Enabled(c, w, e)
    ensures Undisturbed(c, Apply(c, w, e))
  {
  }

  lemma UndisturbedAfterwards(c: Setting, w: World, e: Event)
    requires c.annotated && !c.helmInsidePass && c.mark != "" && !IsEnvironment(e) && !IsPurgeStep(e) && !e.Begin?
    requires Shape(c, w) && Undisturbed(c, w) && Enabled(c, w, e)
    ensures Undisturbed(c, Apply(c, w, e))
  {
  }

  lemma UndisturbedStep(c: Setting, w: World, e: Event)
    requires c.annotated && !c.helmInsidePass && c.mark != ""
    requires Shape(c, w) && Undisturbed(c, w) && Enabled(c, w, e)
    ensures Undisturbed(c, Apply(c, w, e))
  {
    if IsHelm(e) {
      UndisturbedByHelm(c, w, e);
    } else if IsEnvironment(e) {
      UndisturbedByOthers(c, w, e);
    } else if e.Begin? {
      UndisturbedAtDecision(c, w);
    } else if PreparesPurge(e) {
      UndisturbedWhilePreparing(c, w, e);
    } else if IsPurgeCall(e) {
      UndisturbedWhilePurging(c, w, e);
    } else {
      UndisturbedAfterwards(c, w, e);
    }
  }

  lemma {:induction false} UndisturbedThroughout(c: Setting, ws: seq<World>, es: seq<Event>, i: nat)
    requires c.annotated && !c.helmInsidePass
    requires Run(c, ws, es) && i < |ws|
    ensures Undisturbed(c, ws[i])
  {
    if i > 0 {
      UndisturbedThroughout(c, ws, es, i - 1);
      ShapeThroughout(c, ws, es, i - 1);
      UndisturbedStep(c, ws[i - 1], es[i - 1]);
    }
  }

  lemma NeverDeletesOwn(c: Setting, ws: seq<World>, es: seq<Event>, i: nat)
    requires c.annotated && !c.helmInsidePass
    requires Run(c, ws, es) && i < |es|
    ensures !DeletesOwn(c, ws[i], es[i])
  {
    UndisturbedThroughout(c, ws, es, i);
  }

  /** Once TargetPurged is persisted no pass deletes a Cluster or a PVC, whatever the faults. */
  lemma NoDeleteAfterPurged(c: Setting, ws: seq<World>, es: seq<Event>, i: nat)
    requires Run(c, ws, es) && i < |es|
    requires ws[i].job.targetPurged
    ensures !es[i].Delete? && !es[i].DeletedPvc?
  {
    ShapeThroughout(c, ws, es, i);
  }

  // ---------------------------------------------------------------- convergence latch

  lemma LatchStep(c: Setting, w: World, e: Event)
    requires Shape(c, w) && Enabled(c, w, e) && w.job.converged.Some?
    ensures Apply(c, w, e).job.converged == w.job.converged
  {
  }

  lemma LatchKept(c: Setting, ws: seq<World>, es: seq<Event>, k: nat)
    requires Run(c, ws, es) && k < |es| && ws[k].job.converged.Some?
    ensures ws[k + 1].job.converged == ws[k].job.converged
  {
    ShapeThroughout(c, ws, es, k);
    LatchStep(c, ws[k], es[k]);
  }

  lemma LatchHolds(c: Setting, ws: seq<World>, es: seq<Event>, i: nat, j: nat)
    requires Run(c, ws, es) && i <= j < |ws|
    requires ws[i].job.converged.Some?
    ensures ws[j].job.converged == ws[i].job.converged
  {
    var latches := seq(|ws|, k requires 0 <= k < |ws| => ws[k].job.converged);
    forall k | 0 <= k < |latches| - 1 && latches[k].Some? ensures latches[k + 1] == latches[k] {
      LatchKept(c, ws, es, k);
    }
    OnceSet(latches, i, j);
  }

  /** A converged restore ends in success with bootstrap cleared, or in
      BootstrapDisableFailed later than the grace window; nothing else can end it. */
  lemma ConvergedOutcomes(c: Setting, ws: seq<World>, es: seq<Event>, i: nat, j: nat)
    requires !c.inputErrors
    requires Run(c, ws, es) && i <= j < |ws|
    requires ws[i].job.converged.Some? && Terminal(ws[j].job)
    ensures || (ws[j].job.phase.Succeeded? && !ws[j].app.bootstrapEnabled)
            || (&& ws[j].job.phase == Failed(BootstrapDisableFailed)
                && ws[j].clock > ws[i].job.converged.value + c.grace)
  {
    LatchHolds(c, ws, es, i, j);
    ShapeThroughout(c, ws, es, j);
  }
}
