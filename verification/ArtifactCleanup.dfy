/** Deleting the object a RabbitMQ or Kafka Backup owns before the Backup itself goes. */
module ArtifactCleanup {
  import opened Basics

  datatype JobState = Active | Complete | Broken

  /** The cleanup Job; `ours` tells one this controller rendered from anybody else's of that name. */
  datatype Job = Job(uri: string, state: JobState, deleting: bool, ours: bool)

  /** Why the Backup is let go. */
  datatype Why = Skipped | NoArtifact | ObjectDeleted | GaveUp

  datatype Pc = Idle | Annotated | Cleaning | LookForJob | Spawn | Collect(done: bool) | Release(why: Why)

  /** `bucket` holds the objects that exist; `warnings` the objects some Warning event named. */
  datatype World = World(
    deleting: bool, held: bool, released: Option<Why>, skip: bool, job: Option<Job>,
    bucket: set<string>, warnings: set<string>, pc: Pc)

  /** One Backup: its recorded object ("" for none), and for Kafka the client image it recorded.
      `recorder`: events can be recorded. `foreignJobs`: others may create a Job of that name. */
  datatype Setting = Setting(uri: string, kafka: bool, image: string, recorder: bool, foreignJobs: bool)

  datatype Event =
    // controller
    | Begin | ReapSkipped(ok: bool) | NoObject | NoImage | StrategyGone | StrategyFound | JobLooked | CannotSpawn
    | Create | Collected(ok: bool) | RemoveFinalizer | Crash
    // environment
    | Annotate(skip: bool) | RequestDelete | JobCompletes | JobFails | JobGone | ForeignJob(state: JobState)

  predicate IsEnvironment(e: Event) {
    e.Annotate? || e.RequestDelete? || e.JobCompletes? || e.JobFails? || e.JobGone? || e.ForeignJob?
  }

  predicate Enabled(c: Setting, w: World, e: Event) {
    match e
    case Begin => w.pc.Idle? && w.deleting && w.held
    case ReapSkipped(_) => w.pc.Annotated?
    case NoObject => w.pc.Cleaning? && c.uri == ""
    case NoImage => w.pc.Cleaning? && c.uri != "" && c.kafka && c.image == ""
    case StrategyGone | StrategyFound => w.pc.Cleaning? && c.uri != "" && !(c.kafka && c.image == "")
    case JobLooked => w.pc.LookForJob?
    // The namespace is going, credentials or template fail, or the API refuses the Job for good.
    case CannotSpawn => w.pc.Spawn?
    case Create => w.pc.Spawn?
    case Collected(_) => w.pc.Collect?
    case RemoveFinalizer => w.pc.Release? && w.held
    case Crash => true
    case Annotate(_) => true
    case RequestDelete => true
    case JobCompletes => w.job.Some? && w.job.value.state.Active?
    case JobFails => w.job.Some? && w.job.value.state.Active?
    // A Job asked to go, or finished and past its TTL.
    case JobGone => w.job.Some? && (w.job.value.deleting || !w.job.value.state.Active?)
    case ForeignJob(_) => c.foreignJobs && w.job.None?
  }

  function Reaped(job: Option<Job>): Option<Job> {
    if job.None? then None else Some(job.value.(deleting := true))
  }

  function Warn(c: Setting, w: World): World {
    w.(warnings := if c.recorder then w.warnings + {c.uri} else w.warnings, pc := Release(GaveUp))
  }

  function AfterLook(w: World): Pc {
    if w.job.None? then Spawn
    else if w.job.value.deleting || w.job.value.state.Active? then Idle
    else Collect(w.job.value.state.Complete?)
  }

  function Apply(c: Setting, w: World, e: Event): World
    requires Enabled(c, w, e)
  {
    match e
    case Begin => w.(pc := if w.skip then Annotated else Cleaning)
    case ReapSkipped(ok) => w.(job := if ok then Reaped(w.job) else w.job, pc := Release(Skipped))
    case NoObject => w.(pc := Release(NoArtifact))
    case NoImage => Warn(c, w)
    case StrategyGone => Warn(c, w)
    case StrategyFound => w.(pc := LookForJob)
    case JobLooked => w.(pc := AfterLook(w))
    case CannotSpawn => Warn(c, w)
    case Create => w.(job := if w.job.None? then Some(Job(c.uri, Active, false, true)) else w.job, pc := Idle)
    case Collected(ok) =>
      w.(job := if ok then Reaped(w.job) else w.job, pc := if w.pc.done then Release(ObjectDeleted) else Idle)
    case RemoveFinalizer => w.(held := false, released := Some(w.pc.why), pc := Idle)
    case Crash => w.(pc := Idle)
    case Annotate(skip) => w.(skip := skip)
    case RequestDelete => w.(deleting := true)
    // The script deletes the object it was rendered for; one already gone is a success.
    case JobCompletes =>
      w.(bucket := if w.job.value.ours then w.bucket - {w.job.value.uri} else w.bucket,
         job := Some(w.job.value.(state := Complete)))
    case JobFails => w.(job := Some(w.job.value.(state := Broken)))
    case JobGone => w.(job := None)
    case ForeignJob(state) => w.(job := Some(Job("", state, false, false)))
  }

  /** A Backup holding its finalizer, with no cleanup Job yet. */
  ghost predicate Init(c: Setting, w: World) {
    w.held && w.released.None? && w.job.None? && w.pc.Idle?
  }

  ghost predicate Run(c: Setting, ws: seq<World>, es: seq<Event>) {
    && |ws| == |es| + 1 && Init(c, ws[0])
    && forall i :: 0 <= i < |es| ==> Enabled(c, ws[i], es[i]) && ws[i + 1] == Apply(c, ws[i], es[i])
  }

  // ---------------------------------------------------------------- no silent orphan

  /** The Backup is gone, its object is not, and nobody was told or had asked for it. */
  predicate SilentOrphan(c: Setting, w: World) {
    && !w.held && c.uri != "" && c.uri in w.bucket
    && c.uri !in w.warnings && w.released != Some(Skipped)
  }

  ghost predicate NoSilentOrphan(c: Setting, ws: seq<World>) {
    forall i | 0 <= i < |ws| :: !SilentOrphan(c, ws[i])
  }

  /** What each reason for letting go guarantees. */
  predicate Justified(c: Setting, w: World, why: Why) {
    match why
    case Skipped => true
    case NoArtifact => c.uri == ""
    case ObjectDeleted => c.uri !in w.bucket
    case GaveUp => c.uri in w.warnings
  }

  predicate Inv(c: Setting, w: World) {
    && (w.held <==> w.released.None?)
    && (w.released.Some? ==> Justified(c, w, w.released.value))
    && (w.pc.Release? ==> Justified(c, w, w.pc.why))
    && (w.pc.Collect? && w.pc.done ==> c.uri !in w.bucket)
    && (w.job.Some? ==> w.job.value.ours && w.job.value.uri == c.uri)
    && (w.job.Some? && w.job.value.state.Complete? ==> c.uri !in w.bucket)
  }

  predicate Watched(c: Setting) {
    c.recorder && !c.foreignJobs
  }

  lemma InvStep(c: Setting, w: World, e: Event)
    requires Watched(c) && Inv(c, w) && Enabled(c, w, e)
    ensures Inv(c, Apply(c, w, e))
  {
  }

  lemma {:induction false} InvThroughout(c: Setting, ws: seq<World>, es: seq<Event>, i: nat)
    requires Watched(c) && Run(c, ws, es) && i < |ws|
    ensures Inv(c, ws[i])
  {
    if i > 0 {
      InvThroughout(c, ws, es, i - 1);
      InvStep(c, ws[i - 1], es[i - 1]);
    }
  }

  predicate Skipping(w: World) {
    w.released == Some(Skipped) || w.pc == Release(Skipped) || w.pc.Annotated?
  }

  lemma SkippingStep(c: Setting, w: World, e: Event)
    requires Enabled(c, w, e) && !Skipping(w) && Skipping(Apply(c, w, e))
    ensures e.Begin? && w.skip
  {
  }

  /** Skipping happens only to a Backup whose annotation a pass has seen. */
  lemma {:induction false} SkippedOnRequest(c: Setting, ws: seq<World>, es: seq<Event>, i: nat)
    requires Run(c, ws, es) && i < |ws| && Skipping(ws[i])
    ensures exists k: nat | k < i :: es[k].Begin? && ws[k].skip
  {
    if Skipping(ws[i - 1]) {
      SkippedOnRequest(c, ws, es, i - 1);
    } else {
      SkippingStep(c, ws[i - 1], es[i - 1]);
    }
  }

  // ---------------------------------------------------------------- exactly when it holds

  datatype Tape = Tape(ws: seq<World>, es: seq<Event>, now: World)

  ghost predicate Reached(c: Setting, t: Tape) {
    Run(c, t.ws, t.es) && t.now == t.ws[|t.ws| - 1]
  }

  lemma Extend(c: Setting, t: Tape, e: Event) returns (t': Tape)
    requires Reached(c, t) && Enabled(c, t.now, e)
    ensures Reached(c, t') && t'.now == Apply(c, t.now, e)
  {
    var w := Apply(c, t.now, e);
    t' := Tape(t.ws + [w], t.es + [e], w);
  }

  lemma Starts(c: Setting) returns (t: Tape)
    ensures Reached(c, t) && t.now == World(true, true, None, false, None, {c.uri}, {}, Idle)
  {
    var w := World(true, true, None, false, None, {c.uri}, {}, Idle);
    t := Tape([w], [], w);
  }

  /** Without a recorder the give-up leaves no trace but a log line. */
  lemma MissingRecorderBreaksIt(c: Setting) returns (ws: seq<World>, es: seq<Event>)
    requires c.uri != "" && !c.recorder
    ensures Run(c, ws, es) && !NoSilentOrphan(c, ws)
  {
    var t := Starts(c);
    t := Extend(c, t, Begin);
    t := Extend(c, t, if c.kafka && c.image == "" then NoImage else StrategyGone);
    t := Extend(c, t, RemoveFinalizer);
    ws, es := t.ws, t.es;
    assert SilentOrphan(c, ws[|ws| - 1]);
  }

  /** Somebody else's finished Job of that name passes for the deletion. */
  lemma ForeignJobBreaksIt(c: Setting) returns (ws: seq<World>, es: seq<Event>)
    requires c.uri != "" && c.foreignJobs && !(c.kafka && c.image == "")
    ensures Run(c, ws, es) && !NoSilentOrphan(c, ws)
  {
    var t := Starts(c);
    t := Extend(c, t, ForeignJob(Complete));
    t := Extend(c, t, Begin);
    t := Extend(c, t, StrategyFound);
    t := Extend(c, t, JobLooked);
    t := Extend(c, t, Collected(true));
    t := Extend(c, t, RemoveFinalizer);
    ws, es := t.ws, t.es;
    assert SilentOrphan(c, ws[|ws| - 1]);
  }

  /** A Kafka Backup that recorded no client image never looks at a Job. */
  predicate NeverLooks(c: Setting) {
    c.kafka && c.image == ""
  }

  predicate InvWithoutImage(c: Setting, w: World) {
    && (w.held <==> w.released.None?)
    && (w.released.Some? ==> w.released.value.Skipped? || w.released.value.GaveUp?)
    && (w.released == Some(GaveUp) || w.pc == Release(GaveUp) ==> c.uri in w.warnings)
    && (w.pc.Idle? || w.pc.Annotated? || w.pc.Cleaning? || w.pc == Release(Skipped) || w.pc == Release(GaveUp))
  }

  lemma {:induction false} WithoutImageThroughout(c: Setting, ws: seq<World>, es: seq<Event>, i: nat)
    requires c.uri != "" && c.recorder && NeverLooks(c) && Run(c, ws, es) && i < |ws|
    ensures InvWithoutImage(c, ws[i])
  {
    if i > 0 {
      WithoutImageThroughout(c, ws, es, i - 1);
      var w, e := ws[i - 1], es[i - 1];
      assert InvWithoutImage(c, Apply(c, w, e));
    }
  }

  /** No run orphans a recorded object silently exactly when events can be recorded and no other
      Job may take the cleanup Job's name, unless Jobs are never looked at. */
  lemma NoSilentOrphanExactly(c: Setting)
    requires c.uri != ""
    ensures (forall ws: seq<World>, es: seq<Event> | Run(c, ws, es) :: NoSilentOrphan(c, ws))
       <==> c.recorder && (!c.foreignJobs || NeverLooks(c))
  {
    if !c.recorder {
      var ws, es := MissingRecorderBreaksIt(c);
    } else if c.foreignJobs && !NeverLooks(c) {
      var ws, es := ForeignJobBreaksIt(c);
    } else {
      forall ws: seq<World>, es: seq<Event>, i: nat | Run(c, ws, es) && i < |ws| ensures !SilentOrphan(c, ws[i]) {
        if NeverLooks(c) {
          WithoutImageThroughout(c, ws, es, i);
        } else {
          InvThroughout(c, ws, es, i);
        }
      }
    }
  }
}
