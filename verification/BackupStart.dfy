/** BackupJobReconciler.Reconcile up to the driver: a backup starts only while nothing restores
    its application. */
module BackupStart {
  import opened Basics
  import opened RestoreLock

  /** What the BackupClass resolves to. */
  datatype Binding = Supported | NoStrategy | ClassMissing | ClassUnreadable | NotOurs | UnsupportedKind

  /** Projecting the credentials. */
  datatype Projection = Projected | Transient | Broken

  /** What the driver's first pass does: it refuses the application, its stamp is lost, or it
      stamps StartedAt. */
  datatype Driver = Refuses | StampLost | Stamps

  const HELD := "RestoreInProgress"
  const FAILED := "BackupFailed"

  class BackupJob {
    const app: Ref
    var phase: Phase
    var startedAt: Option<nat>
    /** The reason of the Ready condition. */
    var ready: Option<string>
    /** What the pass that stamped StartedAt had read. */
    ghost var seen: seq<Job>
    ghost var read: Reader

    /** In every run: a started backup was started when no restore held its application, and no
        restore with a complete target had a driver writing into it. */
    ghost predicate Valid()
      reads this
    {
      startedAt.Some? ==> forall rj <- seen :: Clear(read, rj) && DriverClear(read, rj)
    }

    ghost predicate DriverClear(get: Reader, rj: Job) {
      get(rj.backup).Found? && Complete(rj.target, get(rj.backup).backup.app) ==> !DriverWrites(get, rj, app)
    }

    lemma ClearOfDrivers(get: Reader, rj: Job)
      requires Clear(get, rj)
      ensures DriverClear(get, rj)
    {
      if DriverWrites(get, rj, app) {
        HeldWhereItWritesExactly(get, rj);
      }
    }

    ghost predicate Clear(get: Reader, rj: Job) {
      (Terminal(rj) || LockTarget(get, rj).Ok?) && !Holds(get, rj, app)
    }

    constructor (app: Ref, get: Reader)
      ensures Valid() && this.app == app && phase == Empty && startedAt == None && ready == None
    {
      this.app, phase, startedAt, ready := app, Empty, None, None;
      seen, read := [], get;
    }

    predicate Over()
      reads this
    {
      phase.Succeeded? || phase.Failed?
    }

    /** holdForRestore: visible, and still to run. */
    method HoldForRestore(writeFails: bool)
      modifies this`phase, this`ready
      ensures writeFails ==> phase == old(phase) && ready == old(ready)
      ensures !writeFails ==> ready == Some(HELD) && phase == if old(phase).Empty? then Pending else old(phase)
    {
      if writeFails { return; }
      if phase.Empty? {
        phase := Pending;
      }
      ready := Some(HELD);
    }

    /** releaseRestoreHold: takes back that condition and no other. */
    method ReleaseRestoreHold(writeFails: bool) returns (ok: bool)
      modifies this`ready
      ensures ok <==> !(old(ready) == Some(HELD) && writeFails)
      ensures ready == if ok && old(ready) == Some(HELD) then None else old(ready)
    {
      if ready != Some(HELD) { return true; }
      if writeFails { return false; }
      ready := None;
      return true;
    }

    /** markBackupJobFailed. */
    method MarkFailed(writeFails: bool)
      modifies this`phase, this`ready
      ensures writeFails ==> phase == old(phase) && ready == old(ready)
      ensures !writeFails ==> phase == Failed && ready == Some(FAILED)
    {
      if !writeFails {
        phase, ready := Failed, Some(FAILED);
      }
    }

    method Reconcile(binding: Binding, list: seq<Job>, get: Reader, projection: Projection, driver: Driver, now: nat,
        writeFails: bool)
      requires Valid()
      modifies this
      ensures Valid()
      ensures old(Over()) ==> phase == old(phase) && startedAt == old(startedAt) && ready == old(ready)
      ensures old(startedAt).Some? ==> startedAt == old(startedAt)
      // Started exactly when the class is ours, every restore could be placed, none holds, the
      // credentials are there and the driver takes the job.
      ensures !old(Over()) && old(startedAt).None? ==>
        (startedAt.Some? <==> && binding.Supported? && (forall rj <- list :: Clear(get, rj))
                              && !(writeFails && old(ready) == Some(HELD))
                              && projection.Projected? && driver.Stamps?)
      ensures old(startedAt).None? && startedAt.Some? ==> seen == list && read == get && ready != Some(HELD)
      ensures old(startedAt).None? && startedAt.Some? ==> forall rj <- list :: DriverClear(get, rj)
      // Held, visibly, and able to run later.
      ensures !old(Over()) && old(startedAt).None? && binding.Supported? && !writeFails
              && (forall rj <- list :: Terminal(rj) || LockTarget(get, rj).Ok?)
              && (exists rj <- list :: Holds(get, rj, app))
              ==> ready == Some(HELD) && !Over()
      // Failed only by a class that binds nothing, credentials that cannot be had, or the driver.
      ensures !old(Over()) && Over() ==>
        !writeFails && (binding.NoStrategy? || binding.UnsupportedKind?
                        || (binding.Supported? && (projection.Broken? || (projection.Projected? && driver.Refuses?))))
    {
      if Over() { return; }
      match binding
      case NoStrategy | UnsupportedKind =>
        MarkFailed(writeFails);
      case ClassMissing =>
        if !writeFails {
          ready := Some("BackupClassNotFound");
        }
      case ClassUnreadable | NotOurs =>
      case Supported =>
        if startedAt.None? {
          var restore := ActiveRestoreTargeting(list, get, app);
          if restore.Err? { return; }
          if restore.value.Some? {
            HoldForRestore(writeFails);
            return;
          }
          var released := ReleaseRestoreHold(writeFails);
          if !released { return; }
        }
        Dispatch(projection, driver, list, get, now, writeFails);
    }

    /** Credentials, then the driver: it refuses an application that is not its kind before anything
        else, and stamps StartedAt on the first pass that gets past that. */
    method Dispatch(projection: Projection, driver: Driver, list: seq<Job>, get: Reader, now: nat, writeFails: bool)
      requires Valid() && !Over() && (startedAt.None? ==> forall rj <- list :: Clear(get, rj))
      modifies this
      ensures Valid()
      ensures startedAt == if old(startedAt).None? && projection.Projected? && driver.Stamps? then Some(now)
                           else old(startedAt)
      ensures old(startedAt).None? && startedAt.Some? ==> seen == list && read == get && ready == old(ready)
      ensures Over() ==> !writeFails && (projection.Broken? || (projection.Projected? && driver.Refuses?))
    {
      match projection
      case Transient =>
        if !writeFails {
          ready := Some("CredentialsProjectionPending");
        }
      case Broken => MarkFailed(writeFails);
      case Projected =>
        if driver.Refuses? {
          MarkFailed(writeFails);
        } else if startedAt.None? && driver.Stamps? {
          startedAt := Some(now);
          seen, read := list, get;
          forall rj | rj in list ensures DriverClear(get, rj) {
            ClearOfDrivers(get, rj);
          }
        }
    }
  }
}
