/** Exactly when the CNPG properties hold: for every setting outside the stated
    condition a concrete run breaks the property. */
module CnpgLimits {
  import opened Basics
  import opened Helm
  import opened CnpgProtocol
  import opened CnpgProofs

  // ---------------------------------------------------------------- building runs

  /** A run under construction and the world it has reached. */
  datatype Tape = Tape(ws: seq<World>, es: seq<Event>, now: World)

  ghost predicate Ok(c: Setting, t: Tape) {
    Run(c, t.ws, t.es) && t.now == t.ws[|t.ws| - 1]
  }

  /** No Cluster of the run was recovered for this restore. */
  ghost predicate NeverOwn(c: Setting, t: Tape) {
    forall i :: 0 <= i < |t.ws| ==> !HasOwn(c, t.ws[i])
  }

  predicate HasOwn(c: Setting, w: World) {
    w.cluster.Some? && w.cluster.value.origin == RecoveredFor(c.mark)
  }

  ghost predicate Exposed(c: Setting, t: Tape) {
    !HelmKeptOut(c, t.ws)
  }

  lemma Begins(c: Setting, w: World) returns (t: Tape)
    requires Init(c, w) && !HasOwn(c, w)
    ensures Ok(c, t) && t.now == w && NeverOwn(c, t)
  {
    t := Tape([w], [], w);
  }

  lemma Extend(c: Setting, t: Tape, e: Event) returns (t': Tape)
    requires Ok(c, t) && Enabled(c, t.now, e)
    ensures Ok(c, t') && t'.now == Apply(c, t.now, e)
    ensures NeverOwn(c, t) && !HasOwn(c, t'.now) ==> NeverOwn(c, t')
    ensures Exposed(c, t) ==> Exposed(c, t')
  {
    var w := Apply(c, t.now, e);
    t' := Tape(t.ws + [w], t.es + [e], w);
    if Exposed(c, t) {
      var i: nat :| i < |t.ws| && Marked(c, t.ws[i]) && ForeignRemains(c, t.ws[i]) && HelmActive(t.ws[i]);
      assert t'.ws[i] == t.ws[i];
    }
  }

  // ---------------------------------------------------------------- settings and properties

  ghost predicate SuccessMeansRestored(c: Setting, ws: seq<World>, es: seq<Event>) {
    forall i: nat | i < |ws| && ws[i].job.phase.Succeeded? :: Restored(c, ws, es, i)
  }

  ghost predicate HelmKeptOut(c: Setting, ws: seq<World>) {
    forall i: nat | i < |ws| && Marked(c, ws[i]) && ForeignRemains(c, ws[i]) :: !HelmActive(ws[i])
  }

  ghost predicate OwnSpared(c: Setting, ws: seq<World>, es: seq<Event>) {
    forall i: nat | i < |es| && i < |ws| :: !DeletesOwn(c, ws[i], es[i])
  }

  predicate GoodEnd(c: Setting, convergedAt: nat, w: World) {
    || (w.job.phase.Succeeded? && !w.app.bootstrapEnabled)
    || (w.job.phase == Failed(BootstrapDisableFailed) && w.clock > convergedAt + c.grace)
  }

  ghost predicate ConvergenceWins(c: Setting, ws: seq<World>) {
    forall i: nat, j: nat | i <= j < |ws| && ws[i].job.converged.Some? && Terminal(ws[j].job) ::
      GoodEnd(c, ws[i].job.converged.value, ws[j])
  }

  const NEW_JOB := Job(Running, None, false, None, None, false)

  // ---------------------------------------------------------------- a restore over the old database

  lemma Exposes(c: Setting, t: Tape)
    requires Ok(c, t) && Marked(c, t.now) && ForeignRemains(c, t.now) && HelmActive(t.now)
    ensures Exposed(c, t)
  {
    assert HelmActive(t.ws[|t.ws| - 1]);
  }

  predicate Ready(w: World) {
    && w.pc.Idle? && !Terminal(w.job) && w.job.startedAt.Some? && w.job.converged.None?
    && w.cluster.Some? && RecoveryState(w.cluster).hasRecovery
  }

  /** A purging pass up to the point where it deletes. */
  lemma ReachesDelete(c: Setting, t: Tape) returns (t': Tape)
    requires Ok(c, t) && t.now.pc.Idle? && !Terminal(t.now.job) && t.now.job.startedAt.Some?
    requires PurgeNeeded(t.now.job.targetPurged,
                         FreshlyRecovered(RecoveryState(t.now.cluster), c.mark, t.now.app.newServerName,
                             t.now.job.startedAt))
    ensures Ok(c, t') && (NeverOwn(c, t) && !HasOwn(c, t.now) ==> NeverOwn(c, t'))
    ensures t'.now == t.now.(release := SetSuspended(t.now.release, true), app := App(true, c.mark),
        pc := DeleteCluster)
  {
    t' := t;
    t' := Extend(c, t', Begin);
    t' := Extend(c, t', NeedPurge(true, false));
    t' := Extend(c, t', SuspendRelease);
    t' := Extend(c, t', Patch);
  }

  /** A pass over a Cluster that passes the freshness test resumes the release and records
      TargetPurged without having purged anything. */
  lemma SkipsPurge(c: Setting, t: Tape) returns (t': Tape)
    requires Ok(c, t) && NeverOwn(c, t) && !HasOwn(c, t.now)
    requires Ready(t.now) && !t.now.job.targetPurged
    requires FreshlyRecovered(RecoveryState(t.now.cluster), c.mark, t.now.app.newServerName, t.now.job.startedAt)
    ensures Ok(c, t') && NeverOwn(c, t')
    ensures t'.now == t.now.(release := SetSuspended(t.now.release, false), job := t.now.job.(targetPurged := true))
    ensures Exposed(c, t) ==> Exposed(c, t')
  {
    t' := t;
    t' := Extend(c, t', Begin);
    t' := Extend(c, t', SkipPurge);
    t' := Extend(c, t', ResumeRelease);
    t' := Extend(c, t', WritePurged);
  }

  lemma Latches(c: Setting, t: Tape) returns (t': Tape)
    requires Ok(c, t)
    requires Ready(t.now) && t.now.job.targetPurged && t.now.cluster.value.healthy
    ensures Ok(c, t') && (NeverOwn(c, t) && !HasOwn(c, t.now) ==> NeverOwn(c, t'))
    ensures Exposed(c, t) ==> Exposed(c, t')
    ensures t'.now == t.now.(release := SetSuspended(t.now.release, false),
                             job := t.now.job.(converged := Some(t.now.clock)))
  {
    t' := t;
    t' := Extend(c, t', Begin);
    t' := Extend(c, t', SkipPurge);
    t' := Extend(c, t', ResumeRelease);
    t' := Extend(c, t', HealthChecked);
    t' := Extend(c, t', WriteConverged);
  }

  lemma ReachesSettle(c: Setting, t: Tape) returns (t': Tape)
    requires Ok(c, t) && NeverOwn(c, t) && !HasOwn(c, t.now)
    requires t.now.pc.Idle? && !Terminal(t.now.job) && t.now.job.startedAt.Some?
    requires t.now.job.targetPurged && t.now.job.converged.Some? && RecoveryState(t.now.cluster).hasRecovery
    ensures Ok(c, t') && NeverOwn(c, t') && (Exposed(c, t) ==> Exposed(c, t'))
    ensures t'.now == t.now.(release := SetSuspended(t.now.release, false), pc := Settle)
  {
    t' := t;
    t' := Extend(c, t', Begin);
    t' := Extend(c, t', SkipPurge);
    t' := Extend(c, t', ResumeRelease);
    t' := Extend(c, t', HealthChecked);
  }

  lemma Finishes(c: Setting, t: Tape) returns (t': Tape)
    requires Ok(c, t) && NeverOwn(c, t) && !HasOwn(c, t.now)
    requires t.now.pc.Idle? && !Terminal(t.now.job) && t.now.job.startedAt.Some?
    requires t.now.job.targetPurged && t.now.job.converged.Some? && RecoveryState(t.now.cluster).hasRecovery
    ensures Ok(c, t') && NeverOwn(c, t') && t'.now.job.phase.Succeeded?
    ensures Exposed(c, t) ==> Exposed(c, t')
  {
    t' := t;
    t' := ReachesSettle(c, t');
    t' := Extend(c, t', Settled);
    t' := Extend(c, t', Disable);
    t' := Extend(c, t', WriteSucceeded);
  }

  /** From a world that passes the freshness test the job succeeds without touching the Cluster. */
  lemma SucceedsUntouched(c: Setting, t: Tape) returns (t': Tape)
    requires Ok(c, t) && NeverOwn(c, t) && !HasOwn(c, t.now)
    requires Ready(t.now) && !t.now.job.targetPurged && t.now.cluster.value.healthy
    requires FreshlyRecovered(RecoveryState(t.now.cluster), c.mark, t.now.app.newServerName, t.now.job.startedAt)
    requires Exposed(c, t) || (t.now.release.Release? && Marked(c, t.now))
    ensures Ok(c, t') && !SuccessMeansRestored(c, t'.ws, t'.es) && Exposed(c, t')
  {
    t' := SkipsPurge(c, t);
    if !Exposed(c, t) {
      Exposes(c, t');
    }
    t' := Latches(c, t');
    t' := Finishes(c, t');
    var i := |t'.ws| - 1;
    assert t'.ws[i].job.phase.Succeeded? && !Restored(c, t'.ws, t'.es, i) by {
      forall j: nat, k: nat | k < j < |t'.es| ensures !BornOwn(c, t'.ws, k, j) {
        assert !HasOwn(c, t'.ws[k + 1]);
      }
    }
  }

  lemma FailsAndResumes(c: Setting, t: Tape) returns (t': Tape)
    requires Ok(c, t) && NeverOwn(c, t) && !HasOwn(c, t.now)
    requires t.now.pc.Abort? && Marked(c, t.now) && ForeignRemains(c, t.now) && t.now.release.Release?
    ensures Ok(c, t') && NeverOwn(c, t') && Exposed(c, t')
    ensures t'.now == t.now.(release := Release(false), pc := Idle)
  {
    t' := Extend(c, t, AbortResume(true));
    Exposes(c, t');
    t' := Extend(c, t', Crash);
  }

  /** A release running over the Cluster an earlier restore recovered. */
  function Earlier(c: Setting): string {
    c.mark + "-earlier"
  }

  function AfterEarlier(c: Setting): World {
    var leftover := Cluster(0, true, Earlier(c), 0, false, true, RecoveredFor(Earlier(c)));
    World(NEW_JOB, App(true, Earlier(c)), Release(false), Some(leftover), map[], c.epoch, 0, Idle)
  }

  lemma StartsOverEarlier(c: Setting) returns (t: Tape)
    requires c.mark != "" && c.epoch > 0
    ensures Ok(c, t) && NeverOwn(c, t) && Earlier(c) != c.mark
    ensures t.now == AfterEarlier(c).(job := NEW_JOB.(startedAt := Some(0)))
  {
    assert |Earlier(c)| != |c.mark|;
    t := Begins(c, AfterEarlier(c));
    t := Extend(c, t, Start);
  }

  /** The app was patched, the pass is on its way out, and the old Cluster is all there is. */
  lemma FailsFalsely(c: Setting, t: Tape) returns (ws: seq<World>, es: seq<Event>)
    requires c.annotated && c.mark != "" && c.epoch > 0 && Ok(c, t) && NeverOwn(c, t) && t.now.pc.Abort?
    requires t.now == AfterEarlier(c).(job := NEW_JOB.(startedAt := Some(0)), app := App(true, c.mark),
                                       release := Release(true), pc := t.now.pc)
    ensures Run(c, ws, es) && !SuccessMeansRestored(c, ws, es) && !HelmKeptOut(c, ws)
  {
    assert |Earlier(c)| != |c.mark|;
    var t' := FailsAndResumes(c, t);
    t' := Extend(c, t', HelmUpgrade);
    t' := SucceedsUntouched(c, t');
    ws, es := t'.ws, t'.es;
  }

  /** The purge fails after the app was patched, the release is resumed, the Failed write is
      lost, and Helm puts this restore's mark on the Cluster an earlier restore recovered. */
  lemma PurgeErrorBreaksIt(c: Setting) returns (ws: seq<World>, es: seq<Event>)
    requires c.annotated && c.purgeErrors && c.mark != "" && c.epoch > 0
    ensures Run(c, ws, es) && !SuccessMeansRestored(c, ws, es) && !HelmKeptOut(c, ws)
  {
    var t := StartsOverEarlier(c);
    t := ReachesDelete(c, t);
    t := Extend(c, t, PurgeError);
    ws, es := FailsFalsely(c, t);
  }

  /** So does a patch that takes effect and reports an error, with no purge call made at all. */
  lemma PatchErrorBreaksIt(c: Setting) returns (ws: seq<World>, es: seq<Event>)
    requires c.annotated && c.patchErrors && c.mark != "" && c.epoch > 0
    ensures Run(c, ws, es) && !SuccessMeansRestored(c, ws, es) && !HelmKeptOut(c, ws)
  {
    var t := StartsOverEarlier(c);
    t := Extend(c, t, Begin);
    t := Extend(c, t, NeedPurge(true, false));
    t := Extend(c, t, SuspendRelease);
    t := Extend(c, t, PatchError(true));
    ws, es := FailsFalsely(c, t);
  }

  lemma RendersHealthy(c: Setting, t: Tape) returns (t': Tape)
    requires Ok(c, t) && HelmActive(t.now) && t.now.cluster.None? && t.now.pc.Idle?
    ensures Ok(c, t') && (NeverOwn(c, t) && !HasOwn(c, t'.now) ==> NeverOwn(c, t'))
    ensures t'.now == t.now.(cluster := Some(Rendered(c, t.now).(healthy := true)), nextUid := t.now.nextUid + 1)
  {
    t' := Extend(c, t, HelmRender);
    t' := Extend(c, t', ReportHealth(true));
  }

  /** After StartedAt the chart re-renders a Cluster from an earlier restore's values. */
  lemma RendersEarlier(c: Setting, earlier: string) returns (t: Tape)
    requires !c.annotated && c.mark != "" && earlier != c.mark
    ensures Ok(c, t) && NeverOwn(c, t)
    ensures t.now == World(NEW_JOB.(startedAt := Some(0)), App(true, earlier), Release(false),
                           Some(Cluster(c.epoch, true, "", 1, false, true, RecoveredFor(earlier))),
                           map[], c.epoch + 1, 1, Idle)
  {
    var w := World(NEW_JOB, App(true, earlier), Release(false), None, map[], c.epoch, 0, Idle);
    var t' := Begins(c, w);
    t' := Extend(c, t', Start);
    t' := Extend(c, t', Tick);
    t := RendersHealthy(c, t');
  }

  /** Without the annotation a Cluster re-rendered from an earlier restore's values after
      StartedAt passes for this restore's own as soon as the app has been patched. */
  lemma MissingAnnotationBreaksIt(c: Setting) returns (ws: seq<World>, es: seq<Event>)
    requires !c.annotated && c.mark != "" && c.epoch > 0
    ensures Run(c, ws, es) && !SuccessMeansRestored(c, ws, es) && !HelmKeptOut(c, ws)
  {
    var earlier := c.mark + "-earlier";
    assert |earlier| != |c.mark|;
    var t' := RendersEarlier(c, earlier);
    t' := ReachesDelete(c, t');
    t' := Extend(c, t', Crash);
    t' := SucceedsUntouched(c, t');
    ws, es := t'.ws, t'.es;
  }

  /** Success means a real restore, in every run, exactly when recovery Clusters carry the
      chart annotation and the patch and purge calls cannot fail. */
  lemma SuccessMeansRestoredExactly(c: Setting)
    requires c.mark != "" && c.epoch > 0
    ensures (forall ws: seq<World>, es: seq<Event> | Run(c, ws, es) :: SuccessMeansRestored(c, ws, es))
            <==> c.annotated && !c.patchErrors && !c.purgeErrors
  {
    if c.annotated && CallsSucceed(c) {
      forall ws: seq<World>, es: seq<Event> | Run(c, ws, es) ensures SuccessMeansRestored(c, ws, es) {
        forall i: nat | i < |ws| && ws[i].job.phase.Succeeded? ensures Restored(c, ws, es, i) {
          NoSilentNoOp(c, ws, es, i);
        }
      }
    } else if c.annotated && c.purgeErrors {
      var ws, es := PurgeErrorBreaksIt(c);
    } else if c.annotated {
      var ws, es := PatchErrorBreaksIt(c);
    } else {
      var ws, es := MissingAnnotationBreaksIt(c);
    }
  }

  /** Helm is kept off this restore's values while foreign data remains under the same
      condition and no weaker one. */
  lemma HelmKeptOutExactly(c: Setting)
    requires c.mark != "" && c.epoch > 0
    ensures (forall ws: seq<World>, es: seq<Event> | Run(c, ws, es) :: HelmKeptOut(c, ws))
        <==> c.annotated && !c.patchErrors && !c.purgeErrors
  {
    if c.annotated && CallsSucceed(c) {
      forall ws: seq<World>, es: seq<Event> | Run(c, ws, es) ensures HelmKeptOut(c, ws) {
        forall i: nat | i < |ws| && Marked(c, ws[i]) && ForeignRemains(c, ws[i])
          ensures !HelmActive(ws[i])
        {
          HelmStaysOut(c, ws, es, i);
        }
      }
    } else if c.annotated && c.purgeErrors {
      var ws, es := PurgeErrorBreaksIt(c);
    } else if c.annotated {
      var ws, es := PatchErrorBreaksIt(c);
    } else {
      var ws, es := MissingAnnotationBreaksIt(c);
    }
  }

  // ---------------------------------------------------------------- deleting what was recovered

  lemma RequestsNothing(c: Setting, t: Tape) returns (t': Tape)
    requires Ok(c, t) && t.now.pc.DeleteCluster? && t.now.cluster.None? && t.now.pvcs == map[]
    ensures Ok(c, t') && t'.now == t.now.(pc := CheckCluster)
  {
    t' := t;
    t' := Extend(c, t', Delete);
    t' := Extend(c, t', ListedPvcs);
    assert t'.now.pc.todo == {};
    t' := Extend(c, t', PvcsRequested);
  }

  lemma FindsNothing(c: Setting, t: Tape) returns (t': Tape)
    requires Ok(c, t) && t.now.pc.CheckCluster? && t.now.cluster.None? && t.now.pvcs == map[]
    ensures Ok(c, t')
    ensures t'.now == t.now.(pc := RecordPurged, release := SetSuspended(t.now.release, false))
  {
    t' := t;
    t' := Extend(c, t', ClusterChecked);
    t' := Extend(c, t', PvcsChecked);
    t' := Extend(c, t', ResumeRelease);
  }

  /** A pass over an empty namespace that purges, sees everything gone and resumes. */
  lemma PurgesEmptyNamespace(c: Setting) returns (t: Tape)
    requires c.mark != ""
    ensures Ok(c, t)
    ensures t.now == World(NEW_JOB.(startedAt := Some(0)), App(true, c.mark), Release(false), None,
                           map[], c.epoch, 0, RecordPurged)
  {
    var w := World(NEW_JOB, App(false, ""), Release(false), None, map[], c.epoch, 0, Idle);
    var t' := Begins(c, w);
    t' := Extend(c, t', Start);
    t' := ReachesDelete(c, t');
    t' := RequestsNothing(c, t');
    t := FindsNothing(c, t');
  }

  /** A pass that has reached its delete while an own Cluster is live deletes it. */
  lemma DeletesIt(c: Setting, t: Tape) returns (ws: seq<World>, es: seq<Event>)
    requires Ok(c, t) && t.now.pc.DeleteCluster? && LiveOwn(c, t.now)
    ensures Run(c, ws, es) && !OwnSpared(c, ws, es)
  {
    var i := |t.es|;
    ws, es := t.ws + [Apply(c, t.now, Delete)], t.es + [Delete];
    assert DeletesOwn(c, ws[i], es[i]);
  }

  /** A pass that saw no Cluster reaches its delete with the one Helm rendered meanwhile. */
  lemma RendersMidPass(c: Setting, t: Tape) returns (t': Tape)
    requires Ok(c, t) && c.helmInsidePass && HelmActive(t.now) && t.now.cluster.None?
    requires t.now.pc.Idle? && !Terminal(t.now.job) && t.now.job.startedAt.Some? && !t.now.job.targetPurged
    requires t.now.app == App(true, c.mark)
    ensures Ok(c, t') && t'.now.pc.DeleteCluster? && LiveOwn(c, t'.now)
  {
    t' := t;
    t' := Extend(c, t', Begin);
    t' := Extend(c, t', HelmRender);
    t' := Extend(c, t', NeedPurge(true, false));
    t' := Extend(c, t', SuspendRelease);
    t' := Extend(c, t', Patch);
  }

  /** The TargetPurged write is lost, the next pass sees no Cluster, and Helm renders the
      recovered one before that pass deletes. */
  lemma RenderInsidePassBreaksIt(c: Setting) returns (ws: seq<World>, es: seq<Event>)
    requires c.mark != "" && c.helmInsidePass
    ensures Run(c, ws, es) && !OwnSpared(c, ws, es)
  {
    var t' := PurgesEmptyNamespace(c);
    t' := Extend(c, t', Crash);
    t' := RendersMidPass(c, t');
    ws, es := DeletesIt(c, t');
  }

  /** Without the annotation a Cluster recovered within the second of StartedAt is not
      recognised after a lost TargetPurged write. */
  lemma SameSecondBreaksIt(c: Setting) returns (ws: seq<World>, es: seq<Event>)
    requires c.mark != "" && !c.annotated
    ensures Run(c, ws, es) && !OwnSpared(c, ws, es)
  {
    var t' := PurgesEmptyNamespace(c);
    t' := Extend(c, t', Crash);
    t' := Extend(c, t', HelmRender);
    t' := ReachesDelete(c, t');
    ws, es := DeletesIt(c, t');
  }

  /** No pass deletes a live Cluster recovered for this restore, in every run, exactly when
      recovery Clusters are annotated and Helm acts only between passes. */
  lemma OwnSparedExactly(c: Setting)
    requires c.mark != ""
    ensures (forall ws: seq<World>, es: seq<Event> | Run(c, ws, es) :: OwnSpared(c, ws, es))
        <==> c.annotated && !c.helmInsidePass
  {
    if c.annotated && !c.helmInsidePass {
      forall ws: seq<World>, es: seq<Event> | Run(c, ws, es) ensures OwnSpared(c, ws, es) {
        forall i: nat | i < |es| && i < |ws| ensures !DeletesOwn(c, ws[i], es[i]) {
          NeverDeletesOwn(c, ws, es, i);
        }
      }
    } else if c.helmInsidePass {
      var ws, es := RenderInsidePassBreaksIt(c);
    } else {
      var ws, es := SameSecondBreaksIt(c);
    }
  }

  // ---------------------------------------------------------------- failing after convergence

  lemma InvalidInputBreaksIt(c: Setting) returns (ws: seq<World>, es: seq<Event>)
    requires c.mark != "" && c.inputErrors
    ensures Run(c, ws, es) && !ConvergenceWins(c, ws)
  {
    var t' := PurgesEmptyNamespace(c);
    t' := Extend(c, t', WritePurged);
    t' := RendersHealthy(c, t');
    t' := Latches(c, t');
    ws, es := FailsLate(c, t');
  }

  lemma FailsLate(c: Setting, t: Tape) returns (ws: seq<World>, es: seq<Event>)
    requires Ok(c, t) && c.inputErrors && t.now.pc.Idle? && !Terminal(t.now.job)
    requires t.now.job.startedAt.Some? && t.now.job.converged.Some?
    ensures Run(c, ws, es) && !ConvergenceWins(c, ws)
  {
    var t' := Extend(c, t, Begin);
    t' := Extend(c, t', RejectInput);
    t' := Extend(c, t', WriteFailed);
    ws, es := t'.ws, t'.es;
    var j := |ws| - 1;
    assert ws[j].job.converged.Some? && !GoodEnd(c, ws[j].job.converged.value, ws[j]);
  }

  /** A persisted RecoveryConverged=True decides the outcome, in every run, exactly when the
      inputs of the restore cannot turn invalid later. */
  lemma ConvergenceWinsExactly(c: Setting)
    requires c.mark != ""
    ensures (forall ws: seq<World>, es: seq<Event> | Run(c, ws, es) :: ConvergenceWins(c, ws)) <==> !c.inputErrors
  {
    if c.inputErrors {
      var ws, es := InvalidInputBreaksIt(c);
    } else {
      forall ws: seq<World>, es: seq<Event> | Run(c, ws, es) ensures ConvergenceWins(c, ws) {
        forall i: nat, j: nat | i <= j < |ws| && ws[i].job.converged.Some? && Terminal(ws[j].job)
          ensures GoodEnd(c, ws[i].job.converged.value, ws[j])
        {
          ConvergedOutcomes(c, ws, es, i, j);
        }
      }
    }
  }
}
