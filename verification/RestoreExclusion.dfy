/** Restores of one namespace run one at a time per application. */
module RestoreExclusion {
  import opened Basics
  import opened Ordering
  import opened RestoreLock

  /** `into` records what each started job's driver last set out to write; `cleared` is the job
      the single worker has let past restoreAhead in its current pass, with what its driver,
      holding the job and the Backup as that pass read them, will write. */
  datatype World = World(
    jobs: map<string, Job>, into: map<string, Option<Ref>>, backups: map<string, Backup>,
    cleared: Option<(string, Option<Ref>)>)

  /** `backupsVanish`: Backups may be deleted while restores of them run. `incompleteRefs`: a
      target may leave its kind or its name empty. `specsEdited`: the specs of RestoreJobs and
      Backups may be edited; nothing in the CRDs makes them immutable. */
  datatype Setting = Setting(backupsVanish: bool, incompleteRefs: bool, specsEdited: bool)

  datatype Event =
    | Check(name: string) | Stamp | Again(name: string) | Leave | Finish(name: string, ok: bool)
    | Create(job: Job) | Delete(name: string) | Remove(name: string) | Edit(job: Job)
    | AddBackup(name: string, backup: Backup) | LoseBackup(name: string) | EditBackup(name: string, backup: Backup)

  function ReaderOf(backups: map<string, Backup>): Reader {
    (name: string) => if name in backups then Found(backups[name]) else NotFound
  }

  /** What a pass over the job, now, has its driver write into. */
  function Target(w: World, j: Job): Option<Ref>
    requires j.backup in w.backups
  {
    WritesInto(w.backups[j.backup], j)
  }

  predicate Refused(w: World, j: Job) {
    j.backup !in w.backups || exists n <- w.jobs :: Ahead(ReaderOf(w.backups), w.jobs[n], j)
  }

  predicate Full(target: Option<Ref>) {
    target.Some? ==> target.value.kind != "" && target.value.name != ""
  }

  predicate SameButSpec(a: Job, b: Job) {
    a.(backup := b.backup, target := b.target, elsewhere := b.elsewhere) == b
  }

  /** A name is not used again while a pass over it lasts. */
  predicate Enabled(c: Setting, w: World, e: Event) {
    match e
    case Check(n) => w.cleared.None? && n in w.jobs && Competes(w.jobs[n]) && !Started(w.jobs[n])
    case Stamp => w.cleared.Some?
    // A later pass over a started job; without its Backup it fails the job instead.
    case Again(n) =>
      && w.cleared.None? && n in w.jobs && Competes(w.jobs[n]) && Started(w.jobs[n])
      && w.jobs[n].backup in w.backups
    case Leave => true
    case Finish(n, _) => n in w.jobs && !Terminal(w.jobs[n]) && w.cleared.None?
    case Create(j) =>
      && j.name !in w.jobs && j.phase.Empty? && !j.stamped && !j.deleting && (Full(j.target) || c.incompleteRefs)
      && (w.cleared.Some? ==> w.cleared.value.0 != j.name)
    case Delete(n) => n in w.jobs
    case Remove(n) => n in w.jobs && w.jobs[n].deleting
    case Edit(j) =>
      && c.specsEdited && j.name in w.jobs && SameButSpec(w.jobs[j.name], j) && (Full(j.target) || c.incompleteRefs)
    case AddBackup(n, _) => n !in w.backups
    case LoseBackup(n) => c.backupsVanish
    case EditBackup(n, _) => c.specsEdited && n in w.backups
  }

  function Apply(c: Setting, w: World, e: Event): World
    requires Enabled(c, w, e)
  {
    match e
    case Check(n) =>
      if Refused(w, w.jobs[n]) then w.(jobs := w.jobs[n := w.jobs[n].(phase := Failed)])
      else w.(cleared := Some((n, Target(w, w.jobs[n]))))
    case Stamp =>
      var (n, target) := w.cleared.value;
      if n in w.jobs && !Terminal(w.jobs[n])
      then w.(jobs := w.jobs[n := w.jobs[n].(stamped := true, phase := Running)],
              into := w.into[n := target], cleared := None)
      else w.(cleared := None)
    case Again(n) => w.(into := w.into[n := Target(w, w.jobs[n])])
    case Leave => w.(cleared := None)
    case Finish(n, ok) => w.(jobs := w.jobs[n := w.jobs[n].(phase := if ok then Succeeded else Failed)])
    case Create(j) => w.(jobs := w.jobs[j.name := j])
    case Delete(n) => w.(jobs := w.jobs[n := w.jobs[n].(deleting := true)])
    case Remove(n) => w.(jobs := w.jobs - {n})
    case Edit(j) => w.(jobs := w.jobs[j.name := j])
    case AddBackup(n, b) => w.(backups := w.backups[n := b])
    case LoseBackup(n) => w.(backups := w.backups - {n})
    case EditBackup(n, b) => w.(backups := w.backups[n := b])
  }

  predicate Init(c: Setting, w: World) {
    && w.cleared.None?
    && forall n <- w.jobs ::
         w.jobs[n].name == n && !Started(w.jobs[n]) && (Full(w.jobs[n].target) || c.incompleteRefs)
  }

  ghost predicate Run(c: Setting, ws: seq<World>, es: seq<Event>) {
    && |ws| == |es| + 1 && Init(c, ws[0])
    && forall i :: 0 <= i < |es| ==> Enabled(c, ws[i], es[i]) && ws[i + 1] == Apply(c, ws[i], es[i])
  }

  predicate Active(w: World, n: string) {
    n in w.jobs && n in w.into && Started(w.jobs[n]) && Competes(w.jobs[n])
  }

  predicate Clash(a: Option<Ref>, b: Option<Ref>) {
    a.Some? && b.Some? && SameApplication(a.value, b.value)
  }

  /** No two running restores have drivers writing into one application. */
  predicate Exclusive(w: World) {
    forall a <- w.jobs, b <- w.jobs :: a != b && Active(w, a) && Active(w, b) ==> !Clash(w.into[a], w.into[b])
  }

  // ---------------------------------------------------------------- the invariant

  /** Nothing outside the lock's reach happens. */
  predicate Orderly(c: Setting) {
    !c.backupsVanish && !c.incompleteRefs && !c.specsEdited
  }

  predicate Tracked(w: World) {
    && (forall n <- w.jobs :: w.jobs[n].name == n && Full(w.jobs[n].target))
    && (forall n <- w.jobs :: Started(w.jobs[n]) ==>
          n in w.into && w.jobs[n].backup in w.backups && w.into[n] == Target(w, w.jobs[n]))
  }

  /** The cleared job is still unstarted, still has that target, and clashes with nobody running. */
  predicate ClearedIsFree(w: World) {
    w.cleared.Some? ==>
      var (n, target) := w.cleared.value;
      && (n in w.jobs ==> !Started(w.jobs[n]) && w.jobs[n].backup in w.backups && target == Target(w, w.jobs[n]))
      && forall m <- w.jobs :: Active(w, m) ==> !Clash(w.into[m], target)
  }

  predicate Inv(w: World) {
    Tracked(w) && ClearedIsFree(w) && Exclusive(w)
  }

  lemma ClashSymmetric(a: Option<Ref>, b: Option<Ref>)
    ensures Clash(a, b) <==> Clash(b, a)
  {
  }

  /** On full targets what the lock compares is what the drivers write. */
  lemma LockSeesWrites(w: World, j: Job)
    requires j.backup in w.backups && Full(j.target)
    ensures LockTarget(ReaderOf(w.backups), j) == Ok(Target(w, j))
  {
    TargetsAgree(ReaderOf(w.backups), j);
  }

  lemma CheckStep(c: Setting, w: World, n: string)
    requires Inv(w) && Enabled(c, w, Check(n))
    ensures Inv(Apply(c, w, Check(n)))
  {
    var j := w.jobs[n];
    if !Refused(w, j) {
      LockSeesWrites(w, j);
      forall m | m in w.jobs && Active(w, m) ensures !Clash(w.into[m], Target(w, j)) {
        LockSeesWrites(w, w.jobs[m]);
        assert !Ahead(ReaderOf(w.backups), w.jobs[m], j);
        assert Counts(w.jobs[m], j);
      }
    }
  }

  lemma StampStep(c: Setting, w: World)
    requires Inv(w) && Enabled(c, w, Stamp)
    ensures Inv(Apply(c, w, Stamp))
  {
    var (n, target) := w.cleared.value;
    var w' := Apply(c, w, Stamp);
    if n in w.jobs && !Terminal(w.jobs[n]) {
      forall m | m in w'.jobs && m != n && Active(w', m)
        ensures !Clash(w'.into[m], target) && !Clash(target, w'.into[m])
      {
        assert Active(w, m);
        ClashSymmetric(w'.into[m], target);
      }
      forall a, b | a in w'.jobs && b in w'.jobs && a != b && Active(w', a) && Active(w', b)
        ensures !Clash(w'.into[a], w'.into[b])
      {
        if a != n && b != n {
          assert Active(w, a) && Active(w, b);
        }
      }
    }
  }

  lemma AgainStep(c: Setting, w: World, n: string)
    requires Inv(w) && Enabled(c, w, Again(n))
    ensures Inv(Apply(c, w, Again(n)))
  {
    assert Apply(c, w, Again(n)).into == w.into;
  }

  lemma OtherStep(c: Setting, w: World, e: Event)
    requires Orderly(c) && Inv(w) && Enabled(c, w, e) && !e.Check? && !e.Stamp? && !e.Again?
    ensures Inv(Apply(c, w, e))
  {
    var w' := Apply(c, w, e);
    forall m | m in w'.jobs && Active(w', m) ensures m in w.jobs && Active(w, m) && w'.into[m] == w.into[m] {
    }
  }

  lemma {:induction false} InvThroughout(c: Setting, ws: seq<World>, es: seq<Event>, i: nat)
    requires Orderly(c) && Run(c, ws, es) && i < |ws|
    ensures Inv(ws[i])
  {
    if i > 0 {
      InvThroughout(c, ws, es, i - 1);
      var w, e := ws[i - 1], es[i - 1];
      match e
      case Check(n) => CheckStep(c, w, n);
      case Stamp => StampStep(c, w);
      case Again(n) => AgainStep(c, w, n);
      case _ => OtherStep(c, w, e);
    }
  }

  // ---------------------------------------------------------------- exactly when it holds

  datatype Tape = Tape(ws: seq<World>, es: seq<Event>, now: World)

  ghost predicate Reached(c: Setting, t: Tape) {
    Run(c, t.ws, t.es) && t.now == t.ws[|t.ws| - 1]
  }

  ghost predicate Breaks(c: Setting, ws: seq<World>, es: seq<Event>) {
    Run(c, ws, es) && exists i: nat | i < |ws| :: !Exclusive(ws[i])
  }

  lemma Extend(c: Setting, t: Tape, e: Event, w: World) returns (t': Tape)
    requires Reached(c, t) && Enabled(c, t.now, e) && w == Apply(c, t.now, e)
    ensures Reached(c, t') && t'.now == w
  {
    t' := Tape(t.ws + [w], t.es + [e], w);
  }

  const APP := Ref("Postgres", "db", Some(DEFAULT_GROUP))
  const STORED := Backup(APP, false)

  function NewJob(name: string, backup: string, target: Option<Ref>): Job {
    Job(name, 0, backup, target, false, Empty, false, false)
  }

  function Launched(j: Job): Job {
    j.(stamped := true, phase := Running)
  }

  /** A job nobody is ahead of starts. */
  lemma Starts(c: Setting, t: Tape, j: Job) returns (t': Tape)
    requires Reached(c, t) && t.now.cleared.None? && j.name in t.now.jobs && t.now.jobs[j.name] == j
    requires j == NewJob(j.name, j.backup, j.target) && !Refused(t.now, j)
    ensures Reached(c, t')
    ensures t'.now == t.now.(jobs := t.now.jobs[j.name := Launched(j)], into := t.now.into[j.name := Target(t.now, j)])
  {
    t' := Extend(c, t, Check(j.name), t.now.(cleared := Some((j.name, Target(t.now, j)))));
    t' := Extend(c, t', Stamp, Apply(c, t'.now, Stamp));
  }

  /** One restore of the application runs. */
  lemma FirstRuns(c: Setting) returns (t: Tape)
    ensures Reached(c, t)
    ensures t.now == World(map["a" := Launched(NewJob("a", "k1", None))], map["a" := Some(APP)],
                           map["k1" := STORED, "k2" := STORED], None)
  {
    var a := NewJob("a", "k1", None);
    var w := World(map["a" := a], map[], map["k1" := STORED, "k2" := STORED], None);
    t := Starts(c, Tape([w], [], w), a);
  }

  lemma BothRun(c: Setting, t: Tape) returns (ws: seq<World>, es: seq<Event>)
    requires Reached(c, t) && Active(t.now, "a") && Active(t.now, "b")
    requires t.now.into["a"] == t.now.into["b"] == Some(APP)
    ensures Breaks(c, ws, es)
  {
    ws, es := t.ws, t.es;
    assert "a" != "b" by { assert "a"[0] != "b"[0]; }
    assert !Exclusive(ws[|ws| - 1]);
  }

  /** A second job, created next to the first, that the lock does not relate to it. */
  lemma SecondStarts(c: Setting, t: Tape, b: Job) returns (t': Tape)
    requires Reached(c, t) && t.now.cleared.None? && t.now.jobs.Keys == {"a"} && (Full(b.target) || c.incompleteRefs)
    requires b == NewJob("b", b.backup, b.target) && b.backup in t.now.backups
    requires !Ahead(ReaderOf(t.now.backups), t.now.jobs["a"], b)
    ensures Reached(c, t')
    ensures t'.now == t.now.(jobs := t.now.jobs["b" := Launched(b)], into := t.now.into["b" := Target(t.now, b)])
  {
    assert "a" != "b" by { assert "a"[0] != "b"[0]; }
    var w := t.now.(jobs := t.now.jobs["b" := b]);
    t' := Extend(c, t, Create(b), w);
    assert !Refused(w, b);
    t' := Starts(c, t', b);
  }

  /** A started restore whose Backup is deleted drops out of its peers' sight before it fails. */
  lemma VanishingBackupBreaksIt(c: Setting) returns (ws: seq<World>, es: seq<Event>)
    requires c.backupsVanish
    ensures Breaks(c, ws, es)
  {
    var t := FirstRuns(c);
    t := Extend(c, t, LoseBackup("k1"), Apply(c, t.now, LoseBackup("k1")));
    assert "k1" != "k2" by { assert "k1"[1] != "k2"[1]; }
    t := SecondStarts(c, t, NewJob("b", "k2", None));
    ws, es := BothRun(c, t);
  }

  /** A target with an empty kind is another application to the lock and the same to the driver. */
  lemma IncompleteRefBreaksIt(c: Setting) returns (ws: seq<World>, es: seq<Event>)
    requires c.incompleteRefs
    ensures Breaks(c, ws, es)
  {
    var t := FirstRuns(c);
    t := SecondStarts(c, t, NewJob("b", "k2", Some(Ref("", "db", None))));
    ws, es := BothRun(c, t);
  }

  /** A running restore is pointed at the application of another. */
  lemma EditBreaksIt(c: Setting) returns (ws: seq<World>, es: seq<Event>)
    requires c.specsEdited
    ensures Breaks(c, ws, es)
  {
    var t := FirstRuns(c);
    assert "copy" != "db";
    t := SecondStarts(c, t, NewJob("b", "k2", Some(Ref("Postgres", "copy", None))));
    t := RunsEdited(c, t);
    ws, es := BothRun(c, t);
  }

  lemma RunsEdited(c: Setting, t: Tape) returns (t': Tape)
    requires Reached(c, t) && c.specsEdited && t.now.cleared.None? && Active(t.now, "b") && t.now.jobs["b"].name == "b"
    requires t.now.jobs["b"].backup in t.now.backups && t.now.backups[t.now.jobs["b"].backup] == STORED
    ensures Reached(c, t') && t'.now.into == t.now.into["b" := Some(APP)]
    ensures t'.now.jobs == t.now.jobs["b" := t.now.jobs["b"].(target := None)]
  {
    var b := t.now.jobs["b"].(target := None);
    t' := Extend(c, t, Edit(b), t.now.(jobs := t.now.jobs["b" := b]));
    t' := Extend(c, t', Again("b"), t'.now.(into := t.now.into["b" := Some(APP)]));
  }

  /** Restores exclude each other, in every run and in what their drivers write, exactly when
      Backups stay while restores run, targets name both kind and name, and specs are not edited. */
  lemma ExclusiveExactly(c: Setting)
    ensures (forall ws: seq<World>, es: seq<Event> | Run(c, ws, es) :: forall i: nat | i < |ws| :: Exclusive(ws[i]))
       <==> !c.backupsVanish && !c.incompleteRefs && !c.specsEdited
  {
    if Orderly(c) {
      forall ws: seq<World>, es: seq<Event>, i: nat | Run(c, ws, es) && i < |ws| ensures Exclusive(ws[i]) {
        InvThroughout(c, ws, es, i);
      }
    } else {
      var ws, es;
      if c.backupsVanish {
        ws, es := VanishingBackupBreaksIt(c);
      } else if c.incompleteRefs {
        ws, es := IncompleteRefBreaksIt(c);
      } else {
        ws, es := EditBreaksIt(c);
      }
    }
  }

  // ---------------------------------------------------------------- fairness and the gate itself

  /** The least of the jobs waiting for an application is never refused. */
  lemma LeastIsNotRefused(w: World, j: Job)
    requires j.name in w.jobs && w.jobs[j.name] == j && j.backup in w.backups
    requires forall n <- w.jobs :: w.jobs[n].name == n
    requires forall n <- w.jobs ::
      n != j.name && Competes(w.jobs[n]) && LockClash(w, w.jobs[n], j) ==> GoesFirst(j, w.jobs[n])
    ensures !Refused(w, j)
  {
    forall n | n in w.jobs ensures !Ahead(ReaderOf(w.backups), w.jobs[n], j) {
      GoesFirstIsStrictTotal(j, w.jobs[n]);
    }
  }

  predicate LockClash(w: World, a: Job, b: Job) {
    Clash(LockTarget(ReaderOf(w.backups), a).value, LockTarget(ReaderOf(w.backups), b).value)
  }

  /** A restore created in a later second never turns away one that would have been admitted. */
  lemma NewcomersRefuseNobody(c: Setting, w: World, j: Job, newcomer: Job)
    requires !Refused(w, j) && newcomer.created > j.created && Enabled(c, w, Create(newcomer))
    ensures !Refused(Apply(c, w, Create(newcomer)), j)
  {
    var w' := Apply(c, w, Create(newcomer));
    forall n | n in w'.jobs ensures !Ahead(ReaderOf(w.backups), w'.jobs[n], j) {
      if n != newcomer.name {
        assert n in w.jobs && w'.jobs[n] == w.jobs[n];
      }
    }
  }

  /** Within one second the name decides, and a newcomer can turn away a job that was there. */
  lemma SameSecondNewcomerRefuses(c: Setting)
    ensures var w := World(map["b" := NewJob("b", "k", None)], map[], map["k" := STORED], None);
            var newcomer := NewJob("a", "k", None);
            && Enabled(c, w, Create(newcomer)) && !Refused(w, w.jobs["b"])
            && Refused(Apply(c, w, Create(newcomer)), w.jobs["b"])
  {
    var w := World(map["b" := NewJob("b", "k", None)], map[], map["k" := STORED], None);
    var newcomer := NewJob("a", "k", None);
    assert "a" != "b" && Less("a", "b") by { assert "a"[0] < "b"[0]; }
    assert Ahead(ReaderOf(w.backups), newcomer, w.jobs["b"]);
    assert Apply(c, w, Create(newcomer)).jobs["a"] == newcomer;
  }

  /** The gate as RestoreJobReconciler.Reconcile runs it, over the listed jobs. */
  method Admit(c: Setting, w: World, name: string, list: seq<Job>) returns (w': World)
    requires Enabled(c, w, Check(name)) && forall n <- w.jobs :: w.jobs[n].name == n
    requires forall j :: j in list <==> j.name in w.jobs && w.jobs[j.name] == j
    ensures w' == Apply(c, w, Check(name))
  {
    var rj := w.jobs[name];
    if rj.backup !in w.backups {
      return w.(jobs := w.jobs[name := rj.(phase := Failed)]);
    }
    var ahead := RestoreAhead(list, ReaderOf(w.backups), rj);
    assert forall n <- w.jobs :: w.jobs[n] in list;
    if ahead.value.Some? {
      return w.(jobs := w.jobs[name := rj.(phase := Failed)]);
    }
    return w.(cleared := Some((name, Target(w, rj))));
  }
}
