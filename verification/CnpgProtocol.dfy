/** The CNPG RestoreJob as a state machine over single API calls.

    One `World` holds everything a restore of one Postgres application reads or
    writes: the RestoreJob's status, the application's bootstrap values, the
    HelmRelease, the live cnpg.io Cluster, its PVCs and the clock, together with the
    point the controller's current pass has reached. A pass is a sequence of
    controller events; `Crash` ends it between any two of them and stands for a
    controller restart, an API error that is returned, and a lost status write.
    The other events are Helm, the CNPG operator, the tenant and time. */
module CnpgProtocol {
  import opened Basics
  import opened Helm

  /** What a data directory was initialised from. */
  datatype Origin = InitDb | RecoveredFor(mark: string)

  datatype App = App(bootstrapEnabled: bool, newServerName: string)

  datatype Cluster = Cluster(
    uid: nat, hasRecovery: bool, annotation: string, createdAt: nat,
    terminating: bool, healthy: bool, origin: Origin)

  datatype Pvc = Pvc(origin: Origin, terminating: bool)

  datatype Reason =
    | InvalidInput | MajorVersionMismatch | WalArchiveTimeout | PatchFailed | PurgeFailed
    | DeadlineExceeded | BootstrapDisableFailed

  datatype Phase = Running | Succeeded | Failed(reason: Reason)

  /** The persisted status; `converged` and `walPending` carry the transition time of
      RecoveryConverged=True and WALArchiveReady=False. */
  datatype Job = Job(
    phase: Phase, startedAt: Option<nat>, targetPurged: bool, converged: Option<nat>,
    walPending: Option<nat>, disablePending: bool)

  /** What the purge decision reads off the live Cluster. */
  datatype Seen = Seen(hasRecovery: bool, createdAt: Option<nat>, restoreMark: string)

  /** Where the current pass stands, with the locals it still needs. */
  datatype Pc =
    | Idle
    | Decide(seen: Seen, appMark: string, purged: bool)
    | AwaitWal
    | Suspend
    | PatchApp
    | DeleteCluster
    | ListPvcs
    | DeletePvcs(todo: set<nat>)
    | CheckCluster
    | CheckPvcs
    | Resume(wasPurged: bool, sawRecovery: bool)
    | RecordPurged
    | CheckHealth
    | LatchConverged
    | Settle
    | DisableBootstrap
    | RecordSucceeded
    | Abort(why: Reason)
    | RecordFailed(reason: Reason)

  datatype World = World(
    job: Job, app: App, release: HelmRelease, cluster: Option<Cluster>,
    pvcs: map<nat, Pvc>, nextUid: nat, clock: nat, pc: Pc)

  /** One restore and the faults its environment may show.
      `mark` is restoredServerName of this RestoreJob, `epoch` the first object UID not
      yet handed out when the job appears. `annotated` says recovery Clusters carry the
      chart annotation; `patchErrors` that the patch of the app may report an error, applied or
      not; `purgeErrors` that a call of the purge may fail;
      `inputErrors` that the Backup, strategy, app or options may turn invalid;
      `helmInsidePass` that Helm may act while a pass is under way. */
  datatype Setting = Setting(
    mark: string, epoch: nat, annotated: bool, patchErrors: bool, purgeErrors: bool,
    inputErrors: bool, helmInsidePass: bool, restoreDeadline: nat, walDeadline: nat, grace: nat)

  predicate CallsSucceed(c: Setting) {
    !c.patchErrors && !c.purgeErrors
  }

  // ---------------------------------------------------------------- pure decisions

  function RecoveryState(cluster: Option<Cluster>): Seen {
    if cluster.None? || cluster.value.terminating || !cluster.value.hasRecovery
    then Seen(false, None, "")
    else Seen(true, Some(cluster.value.createdAt), cluster.value.annotation)
  }

  predicate FreshlyRecovered(seen: Seen, wantMark: string, appMark: string, startedAt: Option<nat>) {
    if !seen.hasRecovery then false
    else if seen.restoreMark != "" then seen.restoreMark == wantMark
    else appMark == wantMark && seen.createdAt.Some? && startedAt.Some?
         && seen.createdAt.value > startedAt.value
  }

  predicate PurgeNeeded(purged: bool, freshlyRecovered: bool) {
    !purged && !freshlyRecovered
  }

  predicate Exceeded(since: nat, now: nat, window: nat) {
    now > since + window
  }

  predicate HelmActive(w: World) {
    w.release == Release(false)
  }

  predicate Terminal(job: Job) {
    !job.phase.Running?
  }

  // ---------------------------------------------------------------- events

  datatype Event =
    // controller
    | Start | Begin | RejectInput | NeedPurge(walReady: bool, majorMismatch: bool) | SkipPurge
    | WaitForWal | SuspendRelease | Patch | PatchError(applied: bool) | Delete | PurgeError
    | ListedPvcs | DeletedPvc(id: nat) | PvcsRequested | ClusterChecked | PvcsChecked
    | ResumeRelease | WritePurged | HealthChecked | WriteConverged | Settled
    | Disable | DisableError | WriteSucceeded | AbortResume(ok: bool) | WriteFailed | Crash
    // environment
    | HelmRender | HelmUpgrade | ClusterGone | ProvisionPvc | PvcGone(id: nat)
    | ReportHealth(healthy: bool) | TenantDeletes | TenantDeletesPvc(id: nat) | Tick

  predicate IsHelm(e: Event) {
    e.HelmRender? || e.HelmUpgrade?
  }

  predicate IsEnvironment(e: Event) {
    IsHelm(e) || e.ClusterGone? || e.ProvisionPvc? || e.PvcGone? || e.ReportHealth?
    || e.TenantDeletes? || e.TenantDeletesPvc? || e.Tick?
  }

  predicate NeedsPurge(c: Setting, w: World)
    requires w.pc.Decide?
  {
    PurgeNeeded(w.pc.purged, FreshlyRecovered(w.pc.seen, c.mark, w.pc.appMark, w.job.startedAt))
  }

  predicate Purging(pc: Pc) {
    pc.DeleteCluster? || pc.ListPvcs? || pc.DeletePvcs?
  }

  predicate Enabled(c: Setting, w: World, e: Event) {
    match e
    case Start => w.pc.Idle? && !Terminal(w.job) && w.job.startedAt.None?
    case Begin => w.pc.Idle? && !Terminal(w.job) && w.job.startedAt.Some?
    case RejectInput => w.pc.Decide? && c.inputErrors
    case NeedPurge(_, _) => w.pc.Decide? && NeedsPurge(c, w)
    case SkipPurge => w.pc.Decide? && !NeedsPurge(c, w)
    case WaitForWal => w.pc.AwaitWal?
    case SuspendRelease => w.pc.Suspend?
    case Patch => w.pc.PatchApp?
    case PatchError(_) => w.pc.PatchApp? && c.patchErrors
    case Delete => w.pc.DeleteCluster?
    case PurgeError => Purging(w.pc) && c.purgeErrors
    case ListedPvcs => w.pc.ListPvcs?
    case DeletedPvc(id) => w.pc.DeletePvcs? && id in w.pc.todo
    case PvcsRequested => w.pc.DeletePvcs? && w.pc.todo == {}
    case ClusterChecked => w.pc.CheckCluster?
    case PvcsChecked => w.pc.CheckPvcs?
    case ResumeRelease => w.pc.Resume?
    case WritePurged => w.pc.RecordPurged?
    case HealthChecked => w.pc.CheckHealth?
    case WriteConverged => w.pc.LatchConverged?
    case Settled => w.pc.Settle? && w.job.startedAt.Some?
    case Disable => w.pc.DisableBootstrap?
    case DisableError => w.pc.DisableBootstrap? && w.job.converged.Some?
    case WriteSucceeded => w.pc.RecordSucceeded?
    case AbortResume(_) => w.pc.Abort?
    case WriteFailed => w.pc.RecordFailed?
    case Crash => true
    case HelmRender => HelmActive(w) && w.cluster.None? && (w.pc.Idle? || c.helmInsidePass)
    // CNPG admission refuses bootstrap.recovery on a Cluster bootstrapped otherwise.
    case HelmUpgrade =>
      && HelmActive(w) && w.cluster.Some? && (w.pc.Idle? || c.helmInsidePass)
      && (w.app.bootstrapEnabled ==> w.cluster.value.hasRecovery)
    case ClusterGone => w.cluster.Some? && w.cluster.value.terminating
    case ProvisionPvc => w.cluster.Some?
    case PvcGone(id) => id in w.pvcs && w.pvcs[id].terminating
    case ReportHealth(_) => w.cluster.Some?
    case TenantDeletes => w.cluster.Some?
    case TenantDeletesPvc(id) => id in w.pvcs
    case Tick => true
  }

  // ---------------------------------------------------------------- effects

  function Annotation(c: Setting, app: App): string {
    if c.annotated then app.newServerName else ""
  }

  function Rendered(c: Setting, w: World): Cluster {
    Cluster(w.nextUid, w.app.bootstrapEnabled, Annotation(c, w.app), w.clock, false, false,
            if w.app.bootstrapEnabled then RecoveredFor(w.app.newServerName) else InitDb)
  }

  function MarkTerminating(cluster: Option<Cluster>): Option<Cluster> {
    if cluster.None? then None else Some(cluster.value.(terminating := true))
  }

  function MarkPvcTerminating(pvcs: map<nat, Pvc>, id: nat): map<nat, Pvc> {
    if id in pvcs then pvcs[id := pvcs[id].(terminating := true)] else pvcs
  }

  function Since(pending: Option<nat>, now: nat): nat {
    if pending.Some? then pending.value else now
  }

  function Apply(c: Setting, w: World, e: Event): World
    requires Enabled(c, w, e)
  {
    match e
    case Start => w.(job := w.job.(startedAt := Some(w.clock)))
    case Begin =>
      w.(pc := Decide(RecoveryState(w.cluster), w.app.newServerName, w.job.targetPurged))
    case RejectInput => w.(pc := RecordFailed(InvalidInput))
    case NeedPurge(walReady, majorMismatch) =>
      w.(pc := if majorMismatch then RecordFailed(MajorVersionMismatch)
               else if !walReady then AwaitWal else Suspend)
    case SkipPurge => w.(pc := Resume(w.pc.purged, w.pc.seen.hasRecovery))
    case WaitForWal =>
      var since := Since(w.job.walPending, w.clock);
      w.(job := w.job.(walPending := Some(since)),
         pc := if Exceeded(since, w.clock, c.walDeadline) then RecordFailed(WalArchiveTimeout) else Idle)
    // The WALArchiveReady=True set in memory just before is persisted by a later write or not at all.
    case SuspendRelease => w.(release := SetSuspended(w.release, true), pc := PatchApp)
    case Patch => w.(app := App(true, c.mark), pc := DeleteCluster)
    case PatchError(applied) =>
      w.(app := if applied then App(true, c.mark) else w.app, pc := Abort(PatchFailed))
    case Delete => w.(cluster := MarkTerminating(w.cluster), pc := ListPvcs)
    case PurgeError => w.(pc := Abort(PurgeFailed))
    case ListedPvcs => w.(pc := DeletePvcs(w.pvcs.Keys))
    case DeletedPvc(id) => w.(pvcs := MarkPvcTerminating(w.pvcs, id), pc := DeletePvcs(w.pc.todo - {id}))
    case PvcsRequested => w.(pc := CheckCluster)
    case ClusterChecked => w.(pc := if w.cluster.None? then CheckPvcs else Idle)
    case PvcsChecked => w.(pc := if w.pvcs == map[] then Resume(false, false) else Idle)
    case ResumeRelease =>
      w.(release := SetSuspended(w.release, false),
         pc := if !w.pc.wasPurged then RecordPurged else if w.pc.sawRecovery then CheckHealth else Settle)
    case WritePurged => w.(job := w.job.(targetPurged := true), pc := Idle)
    case HealthChecked =>
      w.(pc := if w.cluster.Some? && w.cluster.value.healthy && w.job.converged.None?
               then LatchConverged else Settle)
    case WriteConverged => w.(job := w.job.(converged := Some(w.clock)), pc := Idle)
    case Settled =>
      w.(pc := if w.job.converged.Some? then DisableBootstrap
               else if Exceeded(w.job.startedAt.value, w.clock, c.restoreDeadline)
               then RecordFailed(DeadlineExceeded) else Idle)
    case Disable => w.(app := w.app.(bootstrapEnabled := false), pc := RecordSucceeded)
    case DisableError =>
      if Exceeded(w.job.converged.value, w.clock, c.grace)
      then w.(pc := RecordFailed(BootstrapDisableFailed))
      else w.(job := w.job.(disablePending := true), pc := Idle)
    case WriteSucceeded => w.(job := w.job.(phase := Succeeded, disablePending := false), pc := Idle)
    case AbortResume(ok) =>
      w.(release := if ok then SetSuspended(w.release, false) else w.release,
         pc := RecordFailed(w.pc.why))
    case WriteFailed => w.(job := w.job.(phase := Failed(w.pc.reason)), pc := Idle)
    case Crash => w.(pc := Idle)
    case HelmRender => w.(cluster := Some(Rendered(c, w)), nextUid := w.nextUid + 1)
    case HelmUpgrade =>
      w.(cluster := Some(w.cluster.value.(hasRecovery := w.app.bootstrapEnabled,
                                          annotation := Annotation(c, w.app))))
    case ClusterGone => w.(cluster := None)
    case ProvisionPvc =>
      w.(pvcs := w.pvcs[w.nextUid := Pvc(w.cluster.value.origin, false)], nextUid := w.nextUid + 1)
    case PvcGone(id) => w.(pvcs := w.pvcs - {id})
    case ReportHealth(healthy) => w.(cluster := Some(w.cluster.value.(healthy := healthy)))
    case TenantDeletes => w.(cluster := MarkTerminating(w.cluster))
    case TenantDeletesPvc(id) => w.(pvcs := MarkPvcTerminating(w.pvcs, id))
    case Tick => w.(clock := w.clock + 1)
  }

  // ---------------------------------------------------------------- runs

  /** A restore may start over anything: an initdb Cluster, one an earlier restore
      recovered, leftovers of either, a suspended release. Only this restore's own mark
      is new. */
  ghost predicate Init(c: Setting, w: World) {
    && c.mark != ""
    && w.job == Job(Running, None, false, None, None, false)
    && w.pc == Idle
    && w.nextUid == c.epoch
    && w.app.newServerName != c.mark
    && (w.cluster.Some? ==>
          && w.cluster.value.uid < c.epoch
          && w.cluster.value.annotation != c.mark
          && w.cluster.value.origin != RecoveredFor(c.mark))
    && (forall id <- w.pvcs :: id < c.epoch && w.pvcs[id].origin != RecoveredFor(c.mark))
    && (c.annotated ==>
          && (w.app.bootstrapEnabled ==> w.app.newServerName != "")
          && (w.cluster.Some? && w.cluster.value.hasRecovery ==> w.cluster.value.annotation != ""))
  }

  ghost predicate Execution(c: Setting, ws: seq<World>, es: seq<Event>) {
    && |ws| == |es| + 1
    && forall i :: 0 <= i < |es| ==> Enabled(c, ws[i], es[i]) && ws[i + 1] == Apply(c, ws[i], es[i])
  }

  /** Every run from an initial world, with any interleaving of the events. */
  ghost predicate Run(c: Setting, ws: seq<World>, es: seq<Event>) {
    Execution(c, ws, es) && Init(c, ws[0])
  }
}
