/** Whole-run properties of the etcd restore protocol. */
module EtcdProofs {
  import opened Basics
  import opened Helm
  import opened EtcdProtocol

  // ---------------------------------------------------------------- invariants

  predicate BeforePurged(pc: Pc) {
    pc.Suspend? || pc.DeleteCluster? || pc.CheckCluster? || pc.CheckVolumes? || pc.LetGo? || pc.RecordPurged?
  }

  predicate AfterPurged(pc: Pc) {
    pc.Recreate? || pc.Rebuild? || pc.Poll? || pc.Resume? || pc.RecordSucceeded?
  }

  /** A payload the driver can rebuild the cluster from. */
  predicate Good(c: Setting, payload: string) {
    && |payload| <= CAPTURE_LIMIT
    && c.dec(payload).Some? && c.dec(payload).value != map[] && payload == c.enc(c.dec(payload).value)
  }

  /** Facts that hold under every fault. */
  predicate Shape(c: Setting, w: World) {
    && (Terminal(w.job) ==> w.pc.Idle?)
    && (w.job.captured.Some? ==> Good(c, w.job.captured.value))
    && (w.pc.Capture? ==> Good(c, w.pc.payload) && w.job.captured.None?)
    && (BeforePurged(w.pc) ==> w.job.captured.Some? && !w.job.purged)
    && (AfterPurged(w.pc) ==> w.job.purged)
    && (w.pc.Look? ==> !w.job.purged)
    && (w.job.purged ==> w.job.captured.Some?)
    && (w.pc.Abort? ==> w.job.captured.Some?)
    && (w.pc.DeleteCluster? ==> !HelmActive(w))
    && (w.cluster.Some? && w.cluster.value.ours ==> RebuiltFrom(c, w.job, w.cluster.value))
    && (w.pc.RecordSucceeded? || w.job.phase.Succeeded? ==> w.release != Release(true))
  }

  /** Created from the captured spec with nothing changed but bootstrap, which restores. */
  predicate RebuiltFrom(c: Setting, job: Job, k: Cluster) {
    && job.captured.Some? && c.dec(job.captured.value).Some?
    && "bootstrap" in k.bornWith && k.bornWith["bootstrap"] == Restore(c.dest)
    && k.bornWith - {"bootstrap"} == c.dec(job.captured.value).value - {"bootstrap"}
  }

  predicate IsPurgeStep(e: Event) {
    || e.Looked? || e.WriteCaptured? || e.SuspendRelease? || e.Delete? || e.DeleteError?
    || e.ClusterChecked? || e.VolumesChecked? || e.GoneError? || e.LetGoResume? || e.WritePurged?
  }

  lemma ShapeEnvironment(c: Setting, w: World, e: Event)
    requires IsEnvironment(e) && Shape(c, w) && Enabled(c, w, e)
    ensures Shape(c, Apply(c, w, e))
  {
  }

  lemma ShapePurging(c: Setting, w: World, e: Event)
    requires Sane(c) && IsPurgeStep(e) && Shape(c, w) && Enabled(c, w, e)
    ensures Shape(c, Apply(c, w, e))
  {
  }

  lemma ShapeRestoring(c: Setting, w: World, e: Event)
    requires Sane(c) && !IsEnvironment(e) && !IsPurgeStep(e) && Shape(c, w) && Enabled(c, w, e)
    ensures Shape(c, Apply(c, w, e))
  {
  }

  lemma ShapeStep(c: Setting, w: World, e: Event)
    requires Sane(c) && Shape(c, w) && Enabled(c, w, e)
    ensures Shape(c, Apply(c, w, e))
  {
    if IsEnvironment(e) {
      ShapeEnvironment(c, w, e);
    } else if IsPurgeStep(e) {
      ShapePurging(c, w, e);
    } else {
      ShapeRestoring(c, w, e);
    }
  }

  lemma {:induction false} ShapeThroughout(c: Setting, ws: seq<World>, es: seq<Event>, i: nat)
    requires Sane(c) && Run(c, ws, es) && i < |ws|
    ensures Shape(c, ws[i])
  {
    if i > 0 {
      ShapeThroughout(c, ws, es, i - 1);
      ShapeStep(c, ws[i - 1], es[i - 1]);
    }
  }

  predicate Faultless(c: Setting) {
    !c.deleteErrors && !c.goneErrors && !c.othersDelete
  }

  predicate HasOurs(w: World) {
    w.cluster.Some? && w.cluster.value.ours
  }

  /** What keeps Helm away from an empty namespace: once a spec is captured, an active release
      means that the cluster Helm knows is untouched, or that ours has taken its place. */
  predicate Safe(c: Setting, w: World) {
    && (w.cluster.Some? && w.cluster.value.terminating ==> !w.job.purged && !w.cluster.value.ours && !HelmActive(w))
    && (HasOurs(w) ==> w.job.purged)
    && (w.job.purged ==> w.cluster.None? || HasOurs(w))
    && (w.job.captured.Some? && HelmActive(w) ==> w.cluster.Some?)
    && (w.pc.Capture? && HelmActive(w) ==> w.cluster.Some?)
    && (w.pc.DeleteCluster? || w.pc.CheckCluster? || w.pc.CheckVolumes? || w.pc.RecordPurged? ==> !HelmActive(w))
    && (w.pc.CheckVolumes? || w.pc.RecordPurged? ==> w.cluster.None?)
    && (w.pc.Poll? || w.pc.Resume? || w.pc.RecordSucceeded? || w.pc.Abort? ==> HasOurs(w))
    && !w.pc.LetGo?
  }

  lemma SafeEnvironment(c: Setting, w: World, e: Event)
    requires Faultless(c) && IsEnvironment(e) && Shape(c, w) && Safe(c, w) && Enabled(c, w, e)
    ensures Safe(c, Apply(c, w, e))
  {
  }

  lemma SafePurging(c: Setting, w: World, e: Event)
    requires Faultless(c) && IsPurgeStep(e) && Shape(c, w) && Safe(c, w) && Enabled(c, w, e)
    ensures Safe(c, Apply(c, w, e))
  {
  }

  lemma SafeRestoring(c: Setting, w: World, e: Event)
    requires Sane(c) && Faultless(c) && !IsEnvironment(e) && !IsPurgeStep(e) && Shape(c, w) && Safe(c, w)
        && Enabled(c, w, e)
    ensures Safe(c, Apply(c, w, e))
  {
  }

  lemma {:induction false} SafeThroughout(c: Setting, ws: seq<World>, es: seq<Event>, i: nat)
    requires Sane(c) && Faultless(c) && Run(c, ws, es) && i < |ws|
    ensures Safe(c, ws[i])
  {
    if i > 0 {
      SafeThroughout(c, ws, es, i - 1);
      ShapeThroughout(c, ws, es, i - 1);
      var w, e := ws[i - 1], es[i - 1];
      if IsEnvironment(e) {
        SafeEnvironment(c, w, e);
      } else if IsPurgeStep(e) {
        SafePurging(c, w, e);
      } else {
        SafeRestoring(c, w, e);
      }
    }
  }

  // ---------------------------------------------------------------- capture before destruction

  lemma CaptureStep(c: Setting, w: World, e: Event)
    requires Enabled(c, w, e) && Shape(c, w)
    ensures var w' := Apply(c, w, e);
            && (w.job.captured.Some? ==> w'.job.captured == w.job.captured)
            && (w.job.captured.None? && w'.job.captured.Some? ==> w.pc == Capture(w'.job.captured.value))
            && (w'.pc.Capture? && w'.pc != w.pc ==> w.cluster.Some? && w'.pc.payload == c.enc(w.cluster.value.spec))
  {
  }

  lemma CaptureKept(c: Setting, ws: seq<World>, es: seq<Event>, k: nat)
    requires Sane(c) && Run(c, ws, es) && k < |es| && ws[k].job.captured.Some?
    ensures ws[k + 1].job.captured == ws[k].job.captured
  {
    ShapeThroughout(c, ws, es, k);
    CaptureStep(c, ws[k], es[k]);
  }

  /** The capture is written once. */
  lemma CaptureNeverChanges(c: Setting, ws: seq<World>, es: seq<Event>, i: nat, j: nat)
    requires Sane(c) && Run(c, ws, es) && i <= j < |ws| && ws[i].job.captured.Some?
    ensures ws[j].job.captured == ws[i].job.captured
  {
    var captures := seq(|ws|, k requires 0 <= k < |ws| => ws[k].job.captured);
    forall k | 0 <= k < |captures| - 1 && captures[k].Some? ensures captures[k + 1] == captures[k] {
      CaptureKept(c, ws, es, k);
    }
    OnceSet(captures, i, j);
  }

  /** The payload encodes a spec the cluster had at an earlier point of the run. */
  ghost predicate CapturedFrom(c: Setting, ws: seq<World>, i: nat, payload: string)
    requires i < |ws|
  {
    exists k: nat | k <= i :: ws[k].cluster.Some? && payload == c.enc(ws[k].cluster.value.spec)
  }

  lemma {:induction false} CaptureIsASpec(c: Setting, ws: seq<World>, es: seq<Event>, i: nat)
    requires Sane(c) && Run(c, ws, es) && i < |ws|
    ensures ws[i].job.captured.Some? ==> CapturedFrom(c, ws, i, ws[i].job.captured.value)
    ensures ws[i].pc.Capture? ==> CapturedFrom(c, ws, i, ws[i].pc.payload)
  {
    if i > 0 {
      CaptureIsASpec(c, ws, es, i - 1);
      ShapeThroughout(c, ws, es, i - 1);
      CaptureStep(c, ws[i - 1], es[i - 1]);
    }
  }

  predicate DeletesCluster(w: World, e: Event) {
    Deletes(e) && w.cluster.Some?
  }

  /** Under every fault and crash, the driver deletes the EtcdCluster only with a spec of it
      persisted that it can rebuild it from, and never one it has recreated. */
  lemma CaptureBeforeDelete(c: Setting, ws: seq<World>, es: seq<Event>, i: nat)
    requires Sane(c) && Run(c, ws, es) && i < |es| && DeletesCluster(ws[i], es[i])
    ensures ws[i].job.captured.Some? && Good(c, ws[i].job.captured.value)
    ensures CapturedFrom(c, ws, i, ws[i].job.captured.value)
    ensures ReadCaptured(c, ws[i].job).Some? && !ws[i].job.purged
  {
    ShapeThroughout(c, ws, es, i);
    CaptureIsASpec(c, ws, es, i);
  }

  /** Whatever cluster of this restore exists was created from the captured spec. */
  lemma RecreatedFromCapture(c: Setting, ws: seq<World>, es: seq<Event>, i: nat)
    requires Sane(c) && Run(c, ws, es) && i < |ws| && HasOurs(ws[i])
    ensures RebuiltFrom(c, ws[i].job, ws[i].cluster.value)
    ensures CapturedFrom(c, ws, i, ws[i].job.captured.value)
  {
    ShapeThroughout(c, ws, es, i);
    CaptureIsASpec(c, ws, es, i);
  }

  // ---------------------------------------------------------------- the window

  predicate Decides(e: Event) {
    e.ResumeRelease? || e.AbortResume?
  }

  /** A delete request, whatever was reported of it. */
  predicate Deletes(e: Event) {
    e.Delete? || e.DeleteError?
  }

  lemma ShutStep(c: Setting, w: World, e: Event)
    requires Shape(c, w) && Enabled(c, w, e) && (Deletes(e) || !HelmActive(w)) && !Decides(e)
    ensures e.LetGoResume? || !HelmActive(Apply(c, w, e))
  {
  }

  lemma {:induction false} NoGoneError(c: Setting, ws: seq<World>, es: seq<Event>, i: nat)
    requires Run(c, ws, es) && i < |ws| && !c.goneErrors
    ensures !ws[i].pc.LetGo?
  {
    if i > 0 {
      NoGoneError(c, ws, es, i - 1);
      NoGoneErrorStep(c, ws[i - 1], es[i - 1]);
    }
  }

  lemma NoGoneErrorStep(c: Setting, w: World, e: Event)
    requires Enabled(c, w, e) && !w.pc.LetGo? && !c.goneErrors
    ensures !Apply(c, w, e).pc.LetGo?
  {
  }

  /** From a delete until a pass that decides the outcome, Helm is kept out. */
  lemma {:induction false} WindowStaysShut(c: Setting, ws: seq<World>, es: seq<Event>, i: nat, j: nat)
    requires Sane(c) && !c.goneErrors && Run(c, ws, es)
    requires i < j < |ws| && Deletes(es[i]) && forall k: nat | i <= k < j :: !Decides(es[k])
    ensures !HelmActive(ws[j])
    decreases j
  {
    if i + 1 < j {
      WindowStaysShut(c, ws, es, i, j - 1);
    }
    ShapeThroughout(c, ws, es, j - 1);
    NoGoneError(c, ws, es, j - 1);
    ShutStep(c, ws[j - 1], es[j - 1]);
  }

  /** Those passes act on the cluster this restore created. */
  lemma DecidesOnOurs(c: Setting, ws: seq<World>, es: seq<Event>, i: nat)
    requires Sane(c) && Faultless(c) && Run(c, ws, es) && i < |es| && Decides(es[i])
    ensures HasOurs(ws[i]) && RebuiltFrom(c, ws[i].job, ws[i].cluster.value)
  {
    SafeThroughout(c, ws, es, i);
    RecreatedFromCapture(c, ws, es, i);
  }

  /** An earlier poll found this restore's cluster available. */
  ghost predicate SawOursAvailable(c: Setting, ws: seq<World>, es: seq<Event>, i: nat)
    requires i < |ws| && |ws| == |es| + 1
  {
    exists k: nat | k < i :: es[k].Polled? && AvailableOurs(c, ws[k])
  }

  predicate AvailableOurs(c: Setting, w: World) {
    HasOurs(w) && w.cluster.value.available && RebuiltFrom(c, w.job, w.cluster.value)
  }

  predicate Won(w: World) {
    w.pc.Resume? || w.pc.RecordSucceeded? || w.job.phase.Succeeded?
  }

  lemma WinStep(c: Setting, w: World, e: Event)
    requires Enabled(c, w, e) && Shape(c, w) && Safe(c, w) && !Won(w) && Won(Apply(c, w, e))
    ensures e.Polled? && AvailableOurs(c, w)
  {
  }

  lemma {:induction false} SuccessMeansRestored(c: Setting, ws: seq<World>, es: seq<Event>, i: nat)
    requires Sane(c) && Faultless(c) && Run(c, ws, es) && i < |ws| && Won(ws[i])
    ensures SawOursAvailable(c, ws, es, i)
  {
    if Won(ws[i - 1]) {
      SuccessMeansRestored(c, ws, es, i - 1);
    } else {
      SafeThroughout(c, ws, es, i - 1);
      ShapeThroughout(c, ws, es, i - 1);
      WinStep(c, ws[i - 1], es[i - 1]);
    }
  }

  // ---------------------------------------------------------------- leaving the release as it was

  /** A job that is over, or about to fail, leaves the release running; until the spec is captured
      this restore has not suspended it. */
  predicate Released(w: World) {
    && (Terminal(w.job) || w.pc.RecordFailed? ==> w.release != Release(true))
    && (w.job.captured.None? ==> w.release != Release(true))
  }

  lemma ReleasedStep(c: Setting, w: World, e: Event)
    requires Enabled(c, w, e) && Shape(c, w) && Released(w) && !c.inputErrors && !c.resumeErrors
    ensures Released(Apply(c, w, e))
  {
  }

  lemma {:induction false} TerminalMeansReleased(c: Setting, ws: seq<World>, es: seq<Event>, i: nat)
    requires Sane(c) && Run(c, ws, es) && i < |ws|
    requires !c.inputErrors && !c.resumeErrors && !c.startsSuspended
    ensures Released(ws[i])
  {
    if i > 0 {
      TerminalMeansReleased(c, ws, es, i - 1);
      ShapeThroughout(c, ws, es, i - 1);
      ReleasedStep(c, ws[i - 1], es[i - 1]);
    }
  }
}
