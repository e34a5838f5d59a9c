/** Which restore of an application goes first, and which application a restore writes into. */
module RestoreLock {
  import opened Basics
  import opened Ordering

  datatype Ref = Ref(kind: string, name: string, group: Option<string>)

  datatype Backup = Backup(app: Ref, velero: bool)

  datatype Phase = Empty | Pending | Running | Succeeded | Failed

  /** `elsewhere`: the options name a namespace other than the Backup's. */
  datatype Job = Job(
    name: string, created: int, backup: string, target: Option<Ref>, elsewhere: bool,
    phase: Phase, stamped: bool, deleting: bool)

  /** Reading a Backup. */
  datatype Got = Found(backup: Backup) | NotFound | Unreadable

  type Reader = string -> Got

  const DEFAULT_GROUP := "apps.cozystack.io"

  // ---------------------------------------------------------------- the target

  function Normalize(r: Ref): Ref {
    if r.group.None? || r.group.value == "" then r.(group := Some(DEFAULT_GROUP)) else r
  }

  function GroupOf(r: Ref): string {
    if r.group.None? then "" else r.group.value
  }

  predicate SameApplication(a: Ref, b: Ref) {
    a.kind == b.kind && a.name == b.name && GroupOf(a) == GroupOf(b)
  }

  /** No group, an empty one and the default one are the same application's. */
  lemma NormalizedMeans(a: Ref, b: Ref)
    ensures SameApplication(Normalize(a), Normalize(b)) <==>
              && a.kind == b.kind && a.name == b.name
              && (if a.group.None? || a.group.value == "" then "apps.cozystack.io" else a.group.value)
                 == (if b.group.None? || b.group.value == "" then "apps.cozystack.io" else b.group.value)
  {
  }

  /** restoreJobTarget: None for a restore that writes nothing in its own namespace. */
  function LockTarget(get: Reader, j: Job): Result<Option<Ref>> {
    match get(j.backup)
    case Unreadable => Err
    case NotFound => Ok(None)
    case Found(b) =>
      if b.velero && j.elsewhere then Ok(None)
      else Ok(Some(Normalize(Overridden(b, j.target))))
  }

  function Overridden(b: Backup, target: Option<Ref>): Ref {
    if target.None? then b.app
    else Ref(target.value.kind, target.value.name,
             if target.value.group.Some? && !b.velero then target.value.group else b.app.group)
  }

  /** The target the CNPG, MariaDB, FoundationDB and Kafka drivers resolve, field by field. */
  method ResolveRestoreTarget(target: Option<Ref>, app: Ref) returns (kind: string, name: string, group: string)
    ensures Ref(kind, name, Some(group)) == DriverTarget(Backup(app, false), target)
  {
    name, kind, group := app.name, app.kind, "";
    if app.group.Some? {
      group := app.group.value;
    }
    if target.Some? {
      if target.value.name != "" { name := target.value.name; }
      if target.value.kind != "" { kind := target.value.kind; }
      if target.value.group.Some? { group := target.value.group.value; }
    }
  }

  /** The Velero driver's: the same, but the Backup's group stays. */
  method ResolveVeleroTarget(target: Option<Ref>, app: Ref) returns (kind: string, name: string)
    ensures Ref(kind, name, Some(GroupOf(app))) == DriverTarget(Backup(app, true), target)
  {
    name := app.name;
    if target.Some? && target.value.name != "" { name := target.value.name; }
    kind := app.kind;
    if target.Some? && target.value.kind != "" { kind := target.value.kind; }
  }

  function DriverTarget(b: Backup, target: Option<Ref>): Ref {
    var t := if target.Some? then target.value else Ref("", "", None);
    Ref(if t.kind != "" then t.kind else b.app.kind,
        if t.name != "" then t.name else b.app.name,
        Some(if t.group.Some? && !b.velero then t.group.value else GroupOf(b.app)))
  }

  /** The application in its own namespace a restore writes into, as its driver resolves it. */
  function WritesInto(b: Backup, j: Job): Option<Ref> {
    if b.velero && j.elsewhere then None else Some(Normalize(DriverTarget(b, j.target)))
  }

  /** The target, if there is one, leaves neither kind nor name for the driver to fill in. */
  predicate Complete(target: Option<Ref>, app: Ref) {
    target.Some? ==> (target.value.kind != "" || app.kind == "") && (target.value.name != "" || app.name == "")
  }

  /** Lock and driver mean the same application exactly on complete targets. */
  lemma TargetsAgree(get: Reader, j: Job)
    requires get(j.backup).Found?
    ensures var b := get(j.backup).backup;
            LockTarget(get, j) == Ok(WritesInto(b, j)) <==> (b.velero && j.elsewhere) || Complete(j.target, b.app)
  {
  }

  // ---------------------------------------------------------------- the order

  predicate Started(j: Job) {
    j.stamped || j.phase.Running?
  }

  predicate Terminal(j: Job) {
    j.phase.Succeeded? || j.phase.Failed?
  }

  predicate GoesFirst(a: Job, b: Job) {
    if Started(a) != Started(b) then Started(a)
    else if a.created != b.created then a.created < b.created
    else Less(a.name, b.name)
  }

  /** A strict order, total on distinct names. */
  lemma GoesFirstIsStrictTotal(a: Job, b: Job)
    ensures !GoesFirst(a, a)
    ensures a.name != b.name ==> (GoesFirst(a, b) <==> !GoesFirst(b, a))
  {
    LessIrreflexive(a.name);
    LessTotal(a.name, b.name);
    if Less(a.name, b.name) {
      LessAsymmetric(a.name, b.name);
    }
  }

  lemma GoesFirstTransitive(a: Job, b: Job, c: Job)
    requires GoesFirst(a, b) && GoesFirst(b, c)
    ensures GoesFirst(a, c)
  {
    if Less(a.name, b.name) && Less(b.name, c.name) {
      LessTransitive(a.name, b.name, c.name);
    }
  }

  // ---------------------------------------------------------------- restoreAhead

  predicate Competes(j: Job) {
    !Terminal(j) && !j.deleting
  }

  /** The peers restoreAhead looks at. */
  predicate Counts(other: Job, rj: Job) {
    other.name != rj.name && Competes(other) && GoesFirst(other, rj)
  }

  predicate IsAhead(get: Reader, other: Job, rj: Job, target: Ref) {
    && Counts(other, rj) && LockTarget(get, other).Ok? && LockTarget(get, other).value.Some?
    && SameApplication(LockTarget(get, other).value.value, target)
  }

  /** Both targets known: other writes into the application rj writes into, and goes before it. */
  predicate Ahead(get: Reader, other: Job, rj: Job) {
    LockTarget(get, rj).Ok? && LockTarget(get, rj).value.Some?
        && IsAhead(get, other, rj, LockTarget(get, rj).value.value)
  }

  /** In plain words: another job, neither over nor being deleted, that writes into the same
      application and has started while this one has not, or is older, or as old and first by name. */
  lemma AheadMeans(get: Reader, other: Job, rj: Job)
    ensures Ahead(get, other, rj) <==>
              && other.name != rj.name && !other.deleting
              && other.phase != Succeeded && other.phase != Failed
              && LockTarget(get, rj).Ok? && LockTarget(get, rj).value.Some?
              && LockTarget(get, other).Ok? && LockTarget(get, other).value.Some?
              && SameApplication(LockTarget(get, other).value.value, LockTarget(get, rj).value.value)
              && (var mine, theirs := rj.stamped || rj.phase == Running, other.stamped || other.phase == Running;
                  if theirs != mine then theirs
                  else other.created < rj.created || (other.created == rj.created && Less(other.name, rj.name)))
  {
  }

  predicate Undecided(get: Reader, list: seq<Job>, rj: Job) {
    || LockTarget(get, rj).Err?
    || (LockTarget(get, rj).value.Some? && exists other <- list :: Counts(other, rj) && LockTarget(get, other).Err?)
  }

  predicate UniqueNames(list: seq<Job>) {
    forall a <- list, b <- list :: a.name == b.name ==> a == b
  }

  /** The first of those ahead. */
  method RestoreAhead(list: seq<Job>, get: Reader, rj: Job) returns (r: Result<Option<string>>)
    requires UniqueNames(list)
    ensures r.Err? <==> Undecided(get, list, rj)
    ensures r == Ok(None) <==> !Undecided(get, list, rj) && forall other <- list :: !Ahead(get, other, rj)
    ensures r.Ok? && r.value.Some? ==> exists first <- list ::
      && first.name == r.value.value && Ahead(get, first, rj)
      && forall other <- list :: Ahead(get, other, rj) && other.name != first.name ==> GoesFirst(first, other)
  {
    var target := LockTarget(get, rj);
    if target.Err? { return Err; }
    if target.value.None? { return Ok(None); }
    var first: Option<Job> := None;
    for i := 0 to |list|
      invariant forall k | 0 <= k < i :: Counts(list[k], rj) ==> LockTarget(get, list[k]).Ok?
      invariant first.None? ==> forall k | 0 <= k < i :: !Ahead(get, list[k], rj)
      invariant first.Some? ==> first.value in list && Ahead(get, first.value, rj)
      invariant first.Some? ==> forall k | 0 <= k < i && Ahead(get, list[k], rj) && list[k].name != first.value.name ::
        GoesFirst(first.value, list[k])
    {
      var other := list[i];
      if Counts(other, rj) {
        var theirs := LockTarget(get, other);
        if theirs.Err? { return Err; }
        if theirs.value.Some? && SameApplication(theirs.value.value, target.value.value)
           && (first.None? || GoesFirst(other, first.value)) {
          if first.Some? {
            NewFirst(get, list[..i], rj, first.value, other);
          }
          first := Some(other);
        } else if first.Some? {
          GoesFirstIsStrictTotal(other, first.value);
        }
      }
    }
    if first.None? { return Ok(None); }
    return Ok(Some(first.value.name));
  }

  lemma NewFirst(get: Reader, seen: seq<Job>, rj: Job, first: Job, other: Job)
    requires GoesFirst(other, first)
    requires forall k | 0 <= k < |seen| && Ahead(get, seen[k], rj) && seen[k].name != first.name ::
        GoesFirst(first, seen[k])
    requires forall k | 0 <= k < |seen| && seen[k].name == first.name :: seen[k] == first
    ensures forall k | 0 <= k < |seen| && Ahead(get, seen[k], rj) && seen[k].name != other.name ::
        GoesFirst(other, seen[k])
  {
    forall k | 0 <= k < |seen| && Ahead(get, seen[k], rj) && seen[k].name != other.name
      ensures GoesFirst(other, seen[k])
    {
      if seen[k].name != first.name {
        GoesFirstTransitive(other, first, seen[k]);
      }
    }
  }

  /** Peers cannot all refuse each other: among the jobs competing for an application one has
      nobody ahead. */
  lemma {:induction false} SomeoneIsFirst(get: Reader, peers: set<Job>) returns (first: Job)
    requires peers != {} && forall a <- peers, b <- peers :: a.name == b.name ==> a == b
    ensures first in peers && forall other <- peers :: !Ahead(get, other, first)
    ensures forall other <- peers :: other.name != first.name ==> GoesFirst(first, other)
    decreases peers
  {
    var j :| j in peers;
    if peers == {j} {
      first := j;
    } else {
      var least := SomeoneIsFirst(get, peers - {j});
      GoesFirstIsStrictTotal(j, least);
      first := if GoesFirst(j, least) then j else least;
      forall other | other in peers && other.name != first.name ensures GoesFirst(first, other) {
        if first == j && other != least {
          GoesFirstTransitive(j, least, other);
        }
      }
    }
    forall other | other in peers ensures !Ahead(get, other, first) {
      GoesFirstIsStrictTotal(first, other);
    }
  }

  // ---------------------------------------------------------------- activeRestoreTargeting

  /** A restore that keeps backups of the application waiting. */
  predicate Holds(get: Reader, rj: Job, app: Ref) {
    && !Terminal(rj) && LockTarget(get, rj).Ok? && LockTarget(get, rj).value.Some?
    && SameApplication(LockTarget(get, rj).value.value, Normalize(app))
  }

  /** In plain words: a restore that is not over, deleted or not, started or not. */
  lemma HoldsMeans(get: Reader, rj: Job, app: Ref)
    ensures Holds(get, rj, app) <==>
              && rj.phase != Succeeded && rj.phase != Failed
              && LockTarget(get, rj).Ok? && LockTarget(get, rj).value.Some?
              && SameApplication(LockTarget(get, rj).value.value, Normalize(app))
  {
  }

  /** The holding restore of the least name, unless a Backup could not be read. */
  method ActiveRestoreTargeting(list: seq<Job>, get: Reader, app: Ref) returns (r: Result<Option<string>>)
    ensures r.Err? <==> exists rj <- list :: !Terminal(rj) && LockTarget(get, rj).Err?
    ensures r == Ok(None) <==> r.Ok? && forall rj <- list :: !Holds(get, rj, app)
    ensures r.Ok? && r.value.Some? ==>
      && (exists rj <- list :: Holds(get, rj, app) && rj.name == r.value.value)
      && (forall rj <- list :: Holds(get, rj, app) ==> rj.name == r.value.value || Less(r.value.value, rj.name))
  {
    var least: Option<string> := None;
    for i := 0 to |list|
      invariant forall k | 0 <= k < i :: Terminal(list[k]) || LockTarget(get, list[k]).Ok?
      invariant least.None? ==> forall k | 0 <= k < i :: !Holds(get, list[k], app)
      invariant least.Some? ==> exists k | 0 <= k < i :: Holds(get, list[k], app) && list[k].name == least.value
      invariant least.Some? ==>
          forall k | 0 <= k < i && Holds(get, list[k], app) ::
              list[k].name == least.value || Less(least.value, list[k].name)
    {
      var rj := list[i];
      if !Terminal(rj) {
        var target := LockTarget(get, rj);
        if target.Err? { return Err; }
        if target.value.Some? && SameApplication(target.value.value, Normalize(app)) {
          if least.Some? {
            LessTotal(rj.name, least.value);
            forall k | 0 <= k < i && Holds(get, list[k], app) && Less(rj.name, least.value)
              ensures Less(rj.name, list[k].name)
            {
              if list[k].name != least.value {
                LessTransitive(rj.name, least.value, list[k].name);
              }
            }
          }
          least := if least.None? || Less(rj.name, least.value) then Some(rj.name) else least;
        }
      }
    }
    return Ok(least);
  }

  /** Its driver, at work on the Backup as read, writes into the application. */
  predicate DriverWrites(get: Reader, rj: Job, app: Ref) {
    && !Terminal(rj) && get(rj.backup).Found? && WritesInto(get(rj.backup).backup, rj).Some?
    && SameApplication(WritesInto(get(rj.backup).backup, rj).value, Normalize(app))
  }

  /** Whatever a restore's driver writes into is held exactly when its target is complete. */
  lemma HeldWhereItWritesExactly(get: Reader, rj: Job)
    requires !Terminal(rj) && get(rj.backup).Found? && WritesInto(get(rj.backup).backup, rj).Some?
    ensures (forall app :: DriverWrites(get, rj, app) ==> Holds(get, rj, app))
       <==> Complete(rj.target, get(rj.backup).backup.app)
  {
    TargetsAgree(get, rj);
    var written := WritesInto(get(rj.backup).backup, rj).value;
    assert Normalize(written) == written && DriverWrites(get, rj, written);
  }

  /** An empty kind hides a restore from the gate while its driver fills the kind in. */
  lemma IncompleteTargetIsNotHeld(get: Reader, app: Ref)
    requires app.kind != "" && get("k") == Found(Backup(app, false))
    ensures var rj := Job("r", 0, "k", Some(Ref("", app.name, None)), false, Running, true, false);
            DriverWrites(get, rj, app) && !Holds(get, rj, app)
  {
  }
}
