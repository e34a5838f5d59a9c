/** One running FoundationDBBackup for each cluster of a namespace. */
module FdbBackup {

  datatype State = Running | Paused | Stopped

  /** A FoundationDBBackup. `driver`: it carries the driver's labels, and `job` names the BackupJob
      that created it; otherwise the chart rendered it. */
  datatype Cr = Cr(cluster: string, driver: bool, job: string, state: State)

  datatype Pc =
    | Idle
    | Find(job: string, cluster: string)
    | ListOthers(job: string, cluster: string)
    | Stop(job: string, cluster: string, todo: set<string>)
    | CreateNew(job: string, cluster: string)

  datatype World = World(store: map<string, Cr>, pc: Pc)

  /** `othersRestart`: somebody else may bring a stopped backup of the driver's back to life.
      `chartInsidePass`: the chart's own backups may change while a pass is under way. */
  datatype Setting = Setting(othersRestart: bool, chartInsidePass: bool)

  datatype Event =
    // driver
    | Begin(job: string, cluster: string) | Found | Listed | PatchOk(name: string) | StopSeen(name: string)
    | AllStopped | Create(name: string) | Return
    // environment
    | Remove(name: string) | Settle(name: string, state: State) | Chart(name: string, cr: Cr) | Restart(name: string)

  predicate IsEnvironment(e: Event) {
    e.Remove? || e.Settle? || e.Chart? || e.Restart?
  }

  /** findConflictingInChartBackup finds something. */
  predicate Conflicting(w: World, cluster: string) {
    exists n <- w.store :: w.store[n].cluster == cluster && w.store[n].state.Running? && !w.store[n].driver
  }

  predicate HasOwn(w: World, job: string) {
    exists n <- w.store :: w.store[n].driver && w.store[n].job == job
  }

  /** What stopOtherFoundationDBBackups has to stop. */
  predicate Other(cr: Cr, job: string, cluster: string) {
    cr.driver && cr.cluster == cluster && !cr.state.Stopped? && cr.job != job
  }

  predicate Enabled(c: Setting, w: World, e: Event) {
    match e
    case Begin(_, _) => w.pc.Idle?
    case Found => w.pc.Find?
    case Listed => w.pc.ListOthers?
    case PatchOk(n) => w.pc.Stop? && n in w.pc.todo && n in w.store
    case StopSeen(n) => w.pc.Stop? && n in w.pc.todo && (n !in w.store || w.store[n].state.Stopped?)
    case AllStopped => w.pc.Stop? && w.pc.todo == {}
    case Create(n) => w.pc.CreateNew? && n !in w.store
    case Return => true
    case Remove(n) => n in w.store
    // The operator and users pause, resume or stop the driver's backups, but only Restart unstops one.
    case Settle(n, state) => n in w.store && w.store[n].driver && (w.store[n].state.Stopped? ==> state.Stopped?)
    case Chart(n, cr) => (n in w.store ==> !w.store[n].driver) && !cr.driver && (w.pc.Idle? || c.chartInsidePass)
    case Restart(n) => c.othersRestart && n in w.store && w.store[n].driver
  }

  function SetState(w: World, n: string, state: State): World
    requires n in w.store
  {
    w.(store := w.store[n := w.store[n].(state := state)])
  }

  function Apply(c: Setting, w: World, e: Event): World
    requires Enabled(c, w, e)
  {
    match e
    case Begin(job, cluster) => w.(pc := if Conflicting(w, cluster) then Idle else Find(job, cluster))
    case Found => w.(pc := if HasOwn(w, w.pc.job) then Idle else ListOthers(w.pc.job, w.pc.cluster))
    case Listed =>
      w.(pc := Stop(w.pc.job, w.pc.cluster, set n | n in w.store && Other(w.store[n], w.pc.job, w.pc.cluster)))
    case PatchOk(n) => SetState(w, n, Stopped).(pc := w.pc.(todo := w.pc.todo - {n}))
    case StopSeen(n) => w.(pc := w.pc.(todo := w.pc.todo - {n}))
    case AllStopped => w.(pc := CreateNew(w.pc.job, w.pc.cluster))
    case Create(n) => w.(store := w.store[n := Cr(w.pc.cluster, true, w.pc.job, Running)], pc := Idle)
    case Return => w.(pc := Idle)
    case Remove(n) => w.(store := w.store - {n})
    case Settle(n, state) => SetState(w, n, state)
    case Chart(n, cr) => w.(store := w.store[n := cr])
    case Restart(n) => SetState(w, n, Running)
  }

  predicate Live(cr: Cr, cluster: string) {
    cr.driver && cr.cluster == cluster && !cr.state.Stopped?
  }

  /** At most one live backup of the driver's for each cluster. */
  predicate AtMostOne(w: World) {
    forall a <- w.store, b <- w.store ::
        Live(w.store[a], w.store[b].cluster) && Live(w.store[b], w.store[b].cluster) ==> a == b
  }

  /** A backup is created only where nothing else of the cluster runs. */
  predicate CreatedAlone(w: World, e: Event) {
    e.Create? && w.pc.CreateNew? ==>
      forall n <- w.store :: w.store[n].cluster == w.pc.cluster ==> !w.store[n].state.Running?
  }

  ghost predicate Run(c: Setting, ws: seq<World>, es: seq<Event>) {
    && |ws| == |es| + 1 && ws[0].pc.Idle? && AtMostOne(ws[0])
    && forall i :: 0 <= i < |es| ==> Enabled(c, ws[i], es[i]) && ws[i + 1] == Apply(c, ws[i], es[i])
  }

  // ---------------------------------------------------------------- invariants

  /** How far the pass has stopped the others. */
  predicate Progress(w: World) {
    && (w.pc.ListOthers? || w.pc.Stop? || w.pc.CreateNew? ==> !HasOwn(w, w.pc.job))
    && (w.pc.Stop? ==> forall n <- w.store :: Live(w.store[n], w.pc.cluster) ==> n in w.pc.todo)
    && (w.pc.CreateNew? ==> forall n <- w.store :: !Live(w.store[n], w.pc.cluster))
  }

  predicate Inv(w: World) {
    AtMostOne(w) && Progress(w)
  }

  lemma DriverStep(c: Setting, w: World, e: Event)
    requires Inv(w) && Enabled(c, w, e) && !IsEnvironment(e)
    ensures Inv(Apply(c, w, e))
  {
  }

  lemma EnvironmentStep(c: Setting, w: World, e: Event)
    requires !c.othersRestart && Inv(w) && Enabled(c, w, e) && IsEnvironment(e)
    ensures Inv(Apply(c, w, e))
  {
  }

  lemma {:induction false} InvThroughout(c: Setting, ws: seq<World>, es: seq<Event>, i: nat)
    requires !c.othersRestart && Run(c, ws, es) && i < |ws|
    ensures Inv(ws[i])
  {
    if i > 0 {
      InvThroughout(c, ws, es, i - 1);
      if IsEnvironment(es[i - 1]) {
        EnvironmentStep(c, ws[i - 1], es[i - 1]);
      } else {
        DriverStep(c, ws[i - 1], es[i - 1]);
      }
    }
  }

  /** While the chart keeps still, the check at the start of the pass stays true. */
  predicate NoChartRunning(w: World) {
    !w.pc.Idle? ==> !Conflicting(w, w.pc.cluster)
  }

  lemma NoChartRunningStep(c: Setting, w: World, e: Event)
    requires !c.chartInsidePass && NoChartRunning(w) && Enabled(c, w, e)
    ensures NoChartRunning(Apply(c, w, e))
  {
  }

  lemma {:induction false} NoChartRunningThroughout(c: Setting, ws: seq<World>, es: seq<Event>, i: nat)
    requires !c.chartInsidePass && Run(c, ws, es) && i < |ws|
    ensures NoChartRunning(ws[i])
  {
    if i > 0 {
      NoChartRunningThroughout(c, ws, es, i - 1);
      NoChartRunningStep(c, ws[i - 1], es[i - 1]);
    }
  }

  lemma CreatesAlone(c: Setting, ws: seq<World>, es: seq<Event>, i: nat)
    requires !c.othersRestart && !c.chartInsidePass && Run(c, ws, es) && i < |es|
    ensures CreatedAlone(ws[i], es[i])
  {
    InvThroughout(c, ws, es, i);
    NoChartRunningThroughout(c, ws, es, i);
  }

  // ---------------------------------------------------------------- exactly when they hold

  datatype Tape = Tape(ws: seq<World>, es: seq<Event>, now: World)

  ghost predicate Reached(c: Setting, t: Tape) {
    Run(c, t.ws, t.es) && t.now == t.ws[|t.ws| - 1]
  }

  lemma Extend(c: Setting, t: Tape, e: Event, w: World) returns (t': Tape)
    requires Reached(c, t) && Enabled(c, t.now, e) && w == Apply(c, t.now, e)
    ensures Reached(c, t') && t'.now == w
    ensures t'.ws == t.ws + [w] && t'.es == t.es + [e]
  {
    t' := Tape(t.ws + [w], t.es + [e], w);
  }

  const OLD := Cr("fdb", true, "a", Running)

  /** The second BackupJob has stopped the first one's backup and is about to create its own. */
  lemma StopsTheFirst(c: Setting) returns (t: Tape)
    ensures Reached(c, t) && t.now == World(map["x" := OLD.(state := Stopped)], CreateNew("b", "fdb"))
  {
    var store := map["x" := OLD];
    var w := World(store, Idle);
    t := Tape([w], [], w);
    assert "a" != "b" by { assert "a"[0] != "b"[0]; }
    assert (set n | n in store && Other(store[n], "b", "fdb")) == {"x"};
    t := Extend(c, t, Begin("b", "fdb"), World(store, Find("b", "fdb")));
    t := Extend(c, t, Found, World(store, ListOthers("b", "fdb")));
    t := Extend(c, t, Listed, World(store, Stop("b", "fdb", {"x"})));
    assert {"x"} - {"x"} == {} && store["x" := OLD.(state := Stopped)] == map["x" := OLD.(state := Stopped)];
    t := Extend(c, t, PatchOk("x"), World(map["x" := OLD.(state := Stopped)], Stop("b", "fdb", {})));
    t := Extend(c, t, AllStopped, World(map["x" := OLD.(state := Stopped)], CreateNew("b", "fdb")));
  }

  lemma RestartBreaksAtMostOne(c: Setting) returns (ws: seq<World>, es: seq<Event>)
    requires c.othersRestart
    ensures Run(c, ws, es) && exists i: nat | i < |ws| :: !AtMostOne(ws[i])
  {
    var t := StopsTheFirst(c);
    var created := Cr("fdb", true, "b", Running);
    t := Extend(c, t, Create("y"), World(map["x" := OLD.(state := Stopped), "y" := created], Idle));
    t := Extend(c, t, Restart("x"), World(map["x" := OLD, "y" := created], Idle));
    ws, es := t.ws, t.es;
    assert Live(t.now.store["x"], "fdb") && Live(t.now.store["y"], "fdb");
    assert !AtMostOne(ws[|ws| - 1]);
  }

  lemma RestartBreaksCreatedAlone(c: Setting) returns (ws: seq<World>, es: seq<Event>)
    requires c.othersRestart
    ensures Run(c, ws, es) && exists i: nat | i < |es| :: !CreatedAlone(ws[i], es[i])
  {
    var t := StopsTheFirst(c);
    t := Extend(c, t, Restart("x"), World(map["x" := OLD], CreateNew("b", "fdb")));
    ws, es := CreatesBeside(c, t, "x");
  }

  lemma ChartBreaksCreatedAlone(c: Setting) returns (ws: seq<World>, es: seq<Event>)
    requires c.chartInsidePass
    ensures Run(c, ws, es) && exists i: nat | i < |es| :: !CreatedAlone(ws[i], es[i])
  {
    var t := StopsTheFirst(c);
    var chart := Cr("fdb", false, "", Running);
    t := Extend(c, t, Chart("z", chart),
        World(map["x" := OLD.(state := Stopped), "z" := chart], CreateNew("b", "fdb")));
    ws, es := CreatesBeside(c, t, "z");
  }

  lemma CreatesBeside(c: Setting, t: Tape, n: string) returns (ws: seq<World>, es: seq<Event>)
    requires Reached(c, t) && t.now.pc == CreateNew("b", "fdb") && "y" !in t.now.store
    requires n in t.now.store && t.now.store[n].cluster == "fdb" && t.now.store[n].state.Running?
    ensures Run(c, ws, es) && exists i: nat | i < |es| :: !CreatedAlone(ws[i], es[i])
  {
    var t' := Extend(c, t, Create("y"), Apply(c, t.now, Create("y")));
    ws, es := t'.ws, t'.es;
    assert !CreatedAlone(ws[|es| - 1], es[|es| - 1]);
  }

  /** Both rules hold in every run exactly when nobody else restarts a stopped backup and, for the
      second, the chart's backups keep still while a pass creates one. */
  lemma OneRunningExactly(c: Setting)
    ensures (forall ws: seq<World>, es: seq<Event> | Run(c, ws, es) :: forall i: nat | i < |ws| :: AtMostOne(ws[i]))
       <==> !c.othersRestart
    ensures (forall ws: seq<World>, es: seq<Event> | Run(c, ws, es) ::
               forall i: nat | i < |es| :: CreatedAlone(ws[i], es[i]))
       <==> !c.othersRestart && !c.chartInsidePass
  {
    if c.othersRestart {
      var ws, es := RestartBreaksAtMostOne(c);
      var ws', es' := RestartBreaksCreatedAlone(c);
    } else {
      forall ws: seq<World>, es: seq<Event>, i: nat | Run(c, ws, es) && i < |ws| ensures AtMostOne(ws[i]) {
        InvThroughout(c, ws, es, i);
      }
      if c.chartInsidePass {
        var ws, es := ChartBreaksCreatedAlone(c);
      } else {
        forall ws: seq<World>, es: seq<Event>, i: nat | Run(c, ws, es) && i < |es| ensures CreatedAlone(ws[i], es[i]) {
          CreatesAlone(c, ws, es, i);
        }
      }
    }
  }
}
