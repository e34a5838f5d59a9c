/** The etcd RestoreJob as a state machine over single API calls.

    As with CNPG, a pass is a sequence of controller events that `Crash` may cut short
    between any two of them; Helm, the operator, other users and time act in between. */
module EtcdProtocol {
  import opened Basics
  import opened Helm

  /** A top-level value of an EtcdCluster spec. */
  datatype Value = Plain(json: string) | Restore(source: string)

  type Spec = map<string, Value>

  /** `bornWith` is the spec the object was created with; `ours` says this restore created it. */
  datatype Cluster = Cluster(spec: Spec, bornWith: Spec, ours: bool, terminating: bool, available: bool)

  datatype Phase = Running | Succeeded | Failed

  /** `captured` is the message of EtcdClusterSpecCaptured, `purged` is TargetPurged. */
  datatype Job = Job(phase: Phase, startedAt: Option<nat>, captured: Option<string>, purged: bool)

  datatype Pc =
    | Idle | Look | Capture(payload: string) | Suspend | DeleteCluster | CheckCluster | CheckVolumes
    | LetGo | RecordPurged | Recreate | Rebuild | Poll | Resume | RecordSucceeded | Abort | RecordFailed

  datatype World = World(
    job: Job, release: HelmRelease, cluster: Option<Cluster>, volumes: bool, clock: nat, pc: Pc)

  /** One restore: the destination its Backup resolves to, the JSON encoder and decoder, its
      deadline, and the faults its environment may show. */
  datatype Setting = Setting(
    dest: string, enc: Spec -> string, dec: string -> Option<Spec>, deadline: nat,
    deleteErrors: bool, goneErrors: bool, othersDelete: bool, inputErrors: bool, resumeErrors: bool,
    startsSuspended: bool)

  const CAPTURE_LIMIT := 24 * 1024

  /** JSON round-trips, and some spec is worth capturing. */
  ghost predicate Sane(c: Setting) {
    (forall s :: c.enc(s) != "" && c.dec(c.enc(s)) == Some(s)) && exists s :: Capturable(c, s)
  }

  predicate Capturable(c: Setting, s: Spec) {
    s != map[] && |c.enc(s)| <= CAPTURE_LIMIT
  }

  predicate HelmActive(w: World) {
    w.release == Release(false)
  }

  predicate Terminal(job: Job) {
    !job.phase.Running?
  }

  /** readCapturedEtcdClusterSpec. */
  function ReadCaptured(c: Setting, job: Job): Option<Spec> {
    if job.captured.None? || job.captured.value == "" then None
    else
      var spec := c.dec(job.captured.value);
      if spec.None? || spec.value == map[] then None else spec
  }

  function WithRestore(c: Setting, s: Spec): Spec {
    s["bootstrap" := Restore(c.dest)]
  }

  datatype Event =
    // controller
    | Start | Begin | RejectInput | Looked | WriteCaptured | SuspendRelease | Delete
    | DeleteError(applied: bool) | ClusterChecked | VolumesChecked | GoneError | LetGoResume(ok: bool)
    | WritePurged | Found | Create | Polled | ResumeRelease | WriteSucceeded
    | AbortResume(ok: bool) | WriteFailed | Crash
    // environment
    | HelmRender(spec: Spec) | HelmUpgrade(spec: Spec) | ClusterGone | VolumesMade | VolumesGone
    | Report(available: bool) | OthersDelete | Tick(seconds: nat)

  predicate IsEnvironment(e: Event) {
    || e.HelmRender? || e.HelmUpgrade? || e.ClusterGone? || e.VolumesMade? || e.VolumesGone?
    || e.Report? || e.OthersDelete? || e.Tick?
  }

  predicate Enabled(c: Setting, w: World, e: Event) {
    match e
    case Start => w.pc.Idle? && !Terminal(w.job) && w.job.startedAt.None?
    case Begin => w.pc.Idle? && !Terminal(w.job) && w.job.startedAt.Some?
    case RejectInput => w.pc.Idle? && !Terminal(w.job) && c.inputErrors
    case Looked => w.pc.Look?
    case WriteCaptured => w.pc.Capture?
    case SuspendRelease => w.pc.Suspend?
    case Delete => w.pc.DeleteCluster?
    case DeleteError(_) => w.pc.DeleteCluster? && c.deleteErrors
    case ClusterChecked => w.pc.CheckCluster?
    case VolumesChecked => w.pc.CheckVolumes?
    case GoneError => (w.pc.CheckCluster? || w.pc.CheckVolumes?) && c.goneErrors
    case LetGoResume(ok) => w.pc.LetGo? && (ok || c.resumeErrors)
    case WritePurged => w.pc.RecordPurged?
    case Found => w.pc.Recreate?
    case Create => w.pc.Rebuild?
    case Polled => w.pc.Poll? && w.job.startedAt.Some?
    case ResumeRelease => w.pc.Resume?
    case WriteSucceeded => w.pc.RecordSucceeded?
    case AbortResume(ok) => w.pc.Abort? && (ok || c.resumeErrors)
    case WriteFailed => w.pc.RecordFailed?
    case Crash => true
    case HelmRender(_) => HelmActive(w) && w.cluster.None?
    case HelmUpgrade(_) => HelmActive(w) && w.cluster.Some?
    case ClusterGone => w.cluster.Some? && w.cluster.value.terminating
    case VolumesMade => w.cluster.Some?
    case VolumesGone => true
    case Report(_) => w.cluster.Some?
    case OthersDelete => w.cluster.Some? && c.othersDelete
    case Tick(_) => true
  }

  function MarkTerminating(cluster: Option<Cluster>): Option<Cluster> {
    if cluster.None? then None else Some(cluster.value.(terminating := true))
  }

  /** The read at the top of the destructive window, and everything decided from it. */
  function AfterLook(c: Setting, w: World): Pc {
    if w.cluster.None? then if w.job.captured.Some? then RecordPurged else RecordFailed
    else if w.job.captured.Some? then Suspend
    else if !Capturable(c, w.cluster.value.spec) then RecordFailed
    else Capture(c.enc(w.cluster.value.spec))
  }

  function AfterPoll(c: Setting, w: World): Pc
    requires w.job.startedAt.Some?
  {
    if w.cluster.None? then Idle
    else if w.cluster.value.available then Resume
    else if w.clock > w.job.startedAt.value + c.deadline then Abort
    else Idle
  }

  function Apply(c: Setting, w: World, e: Event): World
    requires Enabled(c, w, e)
  {
    match e
    case Start => w.(job := w.job.(startedAt := Some(w.clock)))
    case Begin => w.(pc := if w.job.purged then Recreate else Look)
    case RejectInput => w.(pc := RecordFailed)
    case Looked => w.(pc := AfterLook(c, w))
    case WriteCaptured => w.(job := w.job.(captured := Some(w.pc.payload)), pc := Idle)
    case SuspendRelease => w.(release := SetSuspended(w.release, true), pc := DeleteCluster)
    case Delete => w.(cluster := MarkTerminating(w.cluster), pc := CheckCluster)
    case DeleteError(applied) =>
      w.(cluster := if applied then MarkTerminating(w.cluster) else w.cluster, pc := Abort)
    case ClusterChecked => w.(pc := if w.cluster.None? then CheckVolumes else Idle)
    case VolumesChecked => w.(pc := if w.volumes then Idle else RecordPurged)
    case GoneError => w.(pc := LetGo)
    case LetGoResume(ok) => w.(release := if ok then SetSuspended(w.release, false) else w.release, pc := Idle)
    case WritePurged => w.(job := w.job.(purged := true), pc := Idle)
    case Found => w.(pc := if w.cluster.None? then Rebuild else Poll)
    case Create =>
      var spec := ReadCaptured(c, w.job);
      if spec.None? then w.(pc := Abort)
      else if w.cluster.Some? then w.(pc := Idle)
      else
        var restored := WithRestore(c, spec.value);
        w.(cluster := Some(Cluster(restored, restored, true, false, false)), pc := Idle)
    case Polled => w.(pc := AfterPoll(c, w))
    case ResumeRelease => w.(release := SetSuspended(w.release, false), pc := RecordSucceeded)
    case WriteSucceeded => w.(job := w.job.(phase := Succeeded), pc := Idle)
    case AbortResume(ok) =>
      w.(release := if ok then SetSuspended(w.release, false) else w.release, pc := RecordFailed)
    case WriteFailed => w.(job := w.job.(phase := Failed), pc := Idle)
    case Crash => w.(pc := Idle)
    case HelmRender(spec) => w.(cluster := Some(Cluster(spec, spec, false, false, false)))
    case HelmUpgrade(spec) => w.(cluster := Some(w.cluster.value.(spec := spec)))
    case ClusterGone => w.(cluster := None)
    case VolumesMade => w.(volumes := true)
    case VolumesGone => w.(volumes := false)
    case Report(available) => w.(cluster := Some(w.cluster.value.(available := available)))
    case OthersDelete => w.(cluster := MarkTerminating(w.cluster))
    case Tick(seconds) => w.(clock := w.clock + seconds)
  }

  ghost predicate Init(c: Setting, w: World) {
    && w.job == Job(Running, None, None, false) && w.pc == Idle
    && (w.release == Release(true) ==> c.startsSuspended)
    && (w.cluster.Some? ==> !w.cluster.value.ours && (w.cluster.value.terminating ==> c.othersDelete))
  }

  ghost predicate Execution(c: Setting, ws: seq<World>, es: seq<Event>) {
    && |ws| == |es| + 1
    && forall i :: 0 <= i < |es| ==> Enabled(c, ws[i], es[i]) && ws[i + 1] == Apply(c, ws[i], es[i])
  }

  /** Every run from an initial world, with any interleaving of the events. */
  ghost predicate Run(c: Setting, ws: seq<World>, es: seq<Event>) {
    Execution(c, ws, es) && Init(c, ws[0])
  }
}
