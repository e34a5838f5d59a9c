/** Exactly when the etcd restore properties hold. */
module EtcdLimits {
  import opened Basics
  import opened Helm
  import opened EtcdProtocol
  import opened EtcdProofs

  datatype Tape = Tape(ws: seq<World>, es: seq<Event>, now: World)

  ghost predicate Ok(c: Setting, t: Tape) {
    Run(c, t.ws, t.es) && t.now == t.ws[|t.ws| - 1]
  }

  /** No cluster of the run was created by this restore. */
  ghost predicate NeverOurs(t: Tape) {
    forall i :: 0 <= i < |t.ws| ==> !HasOurs(t.ws[i])
  }

  lemma Begins(c: Setting, w: World) returns (t: Tape)
    requires Init(c, w)
    ensures Ok(c, t) && t.now == w && NeverOurs(t)
  {
    t := Tape([w], [], w);
  }

  lemma Extend(c: Setting, t: Tape, e: Event) returns (t': Tape)
    requires Ok(c, t) && Enabled(c, t.now, e)
    ensures Ok(c, t') && t'.now == Apply(c, t.now, e) && t'.es == t.es + [e]
    ensures NeverOurs(t) && !HasOurs(t'.now) ==> NeverOurs(t')
  {
    var w := Apply(c, t.now, e);
    t' := Tape(t.ws + [w], t.es + [e], w);
  }

  // ---------------------------------------------------------------- shared stretches

  /** The live cluster's spec is captured. */
  lemma Captures(c: Setting, s: Spec) returns (t: Tape)
    requires Sane(c) && Capturable(c, s)
    ensures Ok(c, t) && NeverOurs(t)
    ensures t.now == World(Job(Running, Some(0), Some(c.enc(s)), false), Release(false),
                           Some(Cluster(s, s, false, false, false)), false, 0, Idle)
  {
    var k := Cluster(s, s, false, false, false);
    t := Begins(c, World(Job(Running, None, None, false), Release(false), Some(k), false, 0, Idle));
    t := Extend(c, t, Start);
    t := Extend(c, t, Begin);
    t := Extend(c, t, Looked);
    t := Extend(c, t, WriteCaptured);
  }

  /** The next pass suspends the release and is about to delete. */
  lemma ReachesDelete(c: Setting, t: Tape) returns (t': Tape)
    requires Ok(c, t) && NeverOurs(t) && t.now.pc.Idle? && !Terminal(t.now.job) && t.now.job.startedAt.Some?
    requires t.now.job.captured.Some? && !t.now.job.purged && t.now.cluster.Some?
    ensures Ok(c, t') && NeverOurs(t')
        && t'.now == t.now.(release := SetSuspended(t.now.release, true), pc := DeleteCluster)
  {
    assert !HasOurs(t.ws[|t.ws| - 1]);
    t' := Extend(c, t, Begin);
    t' := Extend(c, t', Looked);
    t' := Extend(c, t', SuspendRelease);
  }

  /** The captured cluster is gone while the release is active. */
  predicate Lost(w: World) {
    && w.pc.Idle? && !Terminal(w.job) && w.job.startedAt.Some? && w.job.captured.Some? && !w.job.purged
    && w.cluster.None? && HelmActive(w)
  }

  /** The driver takes the purge for done, and Helm renders a cluster without a snapshot. */
  lemma RendersBare(c: Setting, t: Tape) returns (t': Tape)
    requires Ok(c, t) && NeverOurs(t) && Lost(t.now)
    ensures Ok(c, t') && NeverOurs(t') && t'.now.pc.Idle? && !Terminal(t'.now.job) && t'.now.job.startedAt.Some?
    ensures t'.now.job.purged && t'.now.cluster.Some? && t'.now.cluster.value.available
  {
    t' := Extend(c, t, Begin);
    t' := Extend(c, t', Looked);
    t' := Extend(c, t', WritePurged);
    t' := Extend(c, t', HelmRender(map[]));
    t' := Extend(c, t', Report(true));
  }

  ghost predicate SuccessRestores(c: Setting, ws: seq<World>, es: seq<Event>) {
    forall i: nat | i < |ws| && |ws| == |es| + 1 && ws[i].job.phase.Succeeded? :: SawOursAvailable(c, ws, es, i)
  }

  /** Its availability then passes for the restored cluster's. */
  lemma SucceedsFalsely(c: Setting, t: Tape) returns (ws: seq<World>, es: seq<Event>)
    requires Ok(c, t) && NeverOurs(t) && Lost(t.now)
    ensures Run(c, ws, es) && !SuccessRestores(c, ws, es)
  {
    var t' := RendersBare(c, t);
    assert !HasOurs(t'.ws[|t'.ws| - 1]);
    t' := Extend(c, t', Begin);
    t' := Extend(c, t', Found);
    t' := Extend(c, t', Polled);
    t' := Extend(c, t', ResumeRelease);
    t' := Extend(c, t', WriteSucceeded);
    ws, es := t'.ws, t'.es;
    var i := |ws| - 1;
    assert !SawOursAvailable(c, ws, es, i);
  }

  // ---------------------------------------------------------------- false success

  /** The gone check fails, its error path resumes the release, and the deletion finishes. */
  lemma GoneErrorBreaksIt(c: Setting, s: Spec) returns (ws: seq<World>, es: seq<Event>)
    requires Sane(c) && Capturable(c, s) && c.goneErrors
    ensures Run(c, ws, es) && !SuccessRestores(c, ws, es)
  {
    var t := Captures(c, s);
    t := ReachesDelete(c, t);
    t := Extend(c, t, Delete);
    t := Extend(c, t, GoneError);
    t := Extend(c, t, LetGoResume(true));
    t := Extend(c, t, ClusterGone);
    ws, es := SucceedsFalsely(c, t);
  }

  /** A delete takes effect but reports an error; the release is resumed and the Failed write is lost. */
  lemma DeleteErrorBreaksIt(c: Setting, s: Spec) returns (ws: seq<World>, es: seq<Event>)
    requires Sane(c) && Capturable(c, s) && c.deleteErrors
    ensures Run(c, ws, es) && !SuccessRestores(c, ws, es)
  {
    var t := Captures(c, s);
    t := ReachesDelete(c, t);
    t := Extend(c, t, DeleteError(true));
    t := Extend(c, t, AbortResume(true));
    t := Extend(c, t, Crash);
    t := Extend(c, t, ClusterGone);
    ws, es := SucceedsFalsely(c, t);
  }

  /** Somebody else deletes the cluster after the capture, before the release is suspended. */
  lemma OtherDeleteBreaksIt(c: Setting, s: Spec) returns (ws: seq<World>, es: seq<Event>)
    requires Sane(c) && Capturable(c, s) && c.othersDelete
    ensures Run(c, ws, es) && !SuccessRestores(c, ws, es)
  {
    var t := Captures(c, s);
    t := Extend(c, t, OthersDelete);
    t := Extend(c, t, ClusterGone);
    ws, es := SucceedsFalsely(c, t);
  }

  /** Success means the restored cluster was available, in every run, exactly when the delete
      and the gone check cannot fail and nobody else deletes the cluster. */
  lemma SuccessRestoresExactly(c: Setting)
    requires Sane(c)
    ensures (forall ws: seq<World>, es: seq<Event> | Run(c, ws, es) :: SuccessRestores(c, ws, es))
       <==> !c.deleteErrors && !c.goneErrors && !c.othersDelete
  {
    if Faultless(c) {
      forall ws: seq<World>, es: seq<Event> | Run(c, ws, es) ensures SuccessRestores(c, ws, es) {
        forall i: nat | i < |ws| && ws[i].job.phase.Succeeded? ensures SawOursAvailable(c, ws, es, i) {
          SuccessMeansRestored(c, ws, es, i);
        }
      }
    } else {
      var s :| Capturable(c, s);
      var ws, es;
      if c.goneErrors {
        ws, es := GoneErrorBreaksIt(c, s);
      } else if c.deleteErrors {
        ws, es := DeleteErrorBreaksIt(c, s);
      } else {
        ws, es := OtherDeleteBreaksIt(c, s);
      }
    }
  }

  // ---------------------------------------------------------------- the window

  ghost predicate WindowShut(ws: seq<World>, es: seq<Event>) {
    forall i: nat, j: nat | i < j < |ws| && j <= |es| && Deletes(es[i]) && HelmActive(ws[j]) ::
      exists k: nat | i <= k < j :: Decides(es[k])
  }

  lemma GoneErrorOpensTheWindow(c: Setting, s: Spec) returns (ws: seq<World>, es: seq<Event>)
    requires Sane(c) && Capturable(c, s) && c.goneErrors
    ensures Run(c, ws, es) && !WindowShut(ws, es)
  {
    var t := Captures(c, s);
    t := ReachesDelete(c, t);
    var i := |t.es|;
    t := Extend(c, t, Delete);
    t := Extend(c, t, GoneError);
    t := Extend(c, t, LetGoResume(true));
    ws, es := t.ws, t.es;
    assert es[i].Delete? && HelmActive(ws[i + 3]);
  }

  /** Helm is kept out from a delete until the outcome is decided, in every run, exactly when the
      gone check cannot fail. */
  lemma WindowShutExactly(c: Setting)
    requires Sane(c)
    ensures (forall ws: seq<World>, es: seq<Event> | Run(c, ws, es) :: WindowShut(ws, es)) <==> !c.goneErrors
  {
    if c.goneErrors {
      var s :| Capturable(c, s);
      var ws, es := GoneErrorOpensTheWindow(c, s);
    } else {
      forall ws: seq<World>, es: seq<Event>, i: nat, j: nat
        | Run(c, ws, es) && i < j < |ws| && Deletes(es[i]) && HelmActive(ws[j])
        ensures exists k: nat | i <= k < j :: Decides(es[k])
      {
        if forall k: nat | i <= k < j :: !Decides(es[k]) {
          WindowStaysShut(c, ws, es, i, j);
        }
      }
    }
  }

  // ---------------------------------------------------------------- a release left suspended

  ghost predicate AlwaysReleased(ws: seq<World>) {
    forall i: nat | i < |ws| && Terminal(ws[i].job) :: ws[i].release != Release(true)
  }

  /** An input that turns invalid inside the window fails the job without a resume. */
  lemma InvalidInputLeavesItSuspended(c: Setting, s: Spec) returns (ws: seq<World>, es: seq<Event>)
    requires Sane(c) && Capturable(c, s) && c.inputErrors
    ensures Run(c, ws, es) && !AlwaysReleased(ws)
  {
    var t := Captures(c, s);
    t := ReachesDelete(c, t);
    t := Extend(c, t, Crash);
    t := Extend(c, t, RejectInput);
    t := Extend(c, t, WriteFailed);
    ws, es := t.ws, t.es;
    assert ws[|ws| - 1].release == Release(true);
  }

  lemma Purges(c: Setting, s: Spec) returns (t: Tape)
    requires Sane(c) && Capturable(c, s)
    ensures Ok(c, t)
    ensures t.now == World(Job(Running, Some(0), Some(c.enc(s)), true), Release(true), None, false, 0, Idle)
  {
    t := Captures(c, s);
    t := ReachesDelete(c, t);
    t := Extend(c, t, Delete);
    t := Extend(c, t, ClusterGone);
    t := Extend(c, t, ClusterChecked);
    t := Extend(c, t, VolumesChecked);
    t := Extend(c, t, WritePurged);
  }

  lemma Recreates(c: Setting, s: Spec) returns (t: Tape)
    requires Sane(c) && Capturable(c, s)
    ensures Ok(c, t) && t.now.pc.Idle? && t.now.job == Job(Running, Some(0), Some(c.enc(s)), true)
    ensures t.now.release == Release(true) && HasOurs(t.now) && !t.now.cluster.value.available && t.now.clock == 0
  {
    t := Purges(c, s);
    t := Extend(c, t, Begin);
    t := Extend(c, t, Found);
    t := Extend(c, t, Create);
  }

  lemma MissesDeadline(c: Setting, s: Spec) returns (t: Tape)
    requires Sane(c) && Capturable(c, s)
    ensures Ok(c, t) && t.now.pc.Abort? && t.now.release == Release(true)
  {
    t := Recreates(c, s);
    t := Extend(c, t, Tick(c.deadline + 1));
    t := Extend(c, t, Begin);
    t := Extend(c, t, Found);
    t := Extend(c, t, Polled);
  }

  /** The deadline passes, and the resume on the way out fails and is ignored. */
  lemma ResumeErrorLeavesItSuspended(c: Setting, s: Spec) returns (ws: seq<World>, es: seq<Event>)
    requires Sane(c) && Capturable(c, s) && c.resumeErrors
    ensures Run(c, ws, es) && !AlwaysReleased(ws)
  {
    var t := MissesDeadline(c, s);
    t := Extend(c, t, AbortResume(false));
    t := Extend(c, t, WriteFailed);
    ws, es := t.ws, t.es;
    assert ws[|ws| - 1].release == Release(true);
  }

  /** A restore that fails before it captures anything leaves a suspension it found. */
  lemma EarlierSuspensionStays(c: Setting) returns (ws: seq<World>, es: seq<Event>)
    requires c.startsSuspended
    ensures Run(c, ws, es) && !AlwaysReleased(ws)
  {
    var t := Begins(c, World(Job(Running, None, None, false), Release(true), None, false, 0, Idle));
    t := Extend(c, t, Start);
    t := Extend(c, t, Begin);
    t := Extend(c, t, Looked);
    t := Extend(c, t, WriteFailed);
    ws, es := t.ws, t.es;
    assert ws[|ws| - 1].release == Release(true);
  }

  /** A finished restore leaves the release running, in every run, exactly when its inputs stay
      valid, resume calls succeed and the release was not suspended to begin with. */
  lemma ReleasedExactly(c: Setting)
    requires Sane(c)
    ensures (forall ws: seq<World>, es: seq<Event> | Run(c, ws, es) :: AlwaysReleased(ws))
       <==> !c.inputErrors && !c.resumeErrors && !c.startsSuspended
  {
    if !c.inputErrors && !c.resumeErrors && !c.startsSuspended {
      forall ws: seq<World>, es: seq<Event> | Run(c, ws, es) ensures AlwaysReleased(ws) {
        forall i: nat | i < |ws| && Terminal(ws[i].job) ensures ws[i].release != Release(true) {
          TerminalMeansReleased(c, ws, es, i);
        }
      }
    } else {
      var s :| Capturable(c, s);
      var ws, es;
      if c.inputErrors {
        ws, es := InvalidInputLeavesItSuspended(c, s);
      } else if c.resumeErrors {
        ws, es := ResumeErrorLeavesItSuspended(c, s);
      } else {
        ws, es := EarlierSuspensionStays(c);
      }
    }
  }
}
