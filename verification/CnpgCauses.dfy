/** Why a CNPG restore may destroy, and why it may fail: laws of every run, under every fault. */
module CnpgCauses {
  import opened Basics
  import opened CnpgProtocol
  import opened CnpgProofs

  // ---------------------------------------------------------------- the gates before the purge

  /** A call that touches the target. */
  predicate Destructive(e: Event) {
    e.SuspendRelease? || e.Patch? || e.PatchError? || e.Delete? || e.DeletedPvc?
  }

  predicate PastGates(pc: Pc) {
    pc.Suspend? || pc.PatchApp? || InPurge(pc)
  }

  lemma GateStep(c: Setting, w: World, e: Event)
    requires Enabled(c, w, e) && !PastGates(w.pc) && PastGates(Apply(c, w, e).pc)
    ensures e == NeedPurge(true, false)
  {
  }

  /** The decision that opened the gates of the pass that is at step i. */
  ghost predicate Opened(ws: seq<World>, es: seq<Event>, j: nat, i: nat) {
    j < i < |ws| && j < |es| && es[j] == NeedPurge(true, false) && forall k: nat | j < k <= i :: PastGates(ws[k].pc)
  }

  lemma {:induction false} GatesWereOpened(c: Setting, ws: seq<World>, es: seq<Event>, i: nat) returns (j: nat)
    requires Run(c, ws, es) && i < |ws| && PastGates(ws[i].pc)
    ensures Opened(ws, es, j, i)
  {
    if PastGates(ws[i - 1].pc) {
      j := GatesWereOpened(c, ws, es, i - 1);
    } else {
      GateStep(c, ws[i - 1], es[i - 1]);
      j := i - 1;
    }
  }

  /** The target is touched only in a pass that found a purge necessary, the majors equal and the
      WAL archived. */
  lemma DestroysOnlyPastTheGates(c: Setting, ws: seq<World>, es: seq<Event>, i: nat) returns (j: nat)
    requires Run(c, ws, es) && i < |es| && Destructive(es[i])
    ensures Opened(ws, es, j, i)
  {
    j := GatesWereOpened(c, ws, es, i);
  }

  // ---------------------------------------------------------------- what a closed gate leads to

  lemma {:induction false} MismatchFails(c: Setting, ws: seq<World>, es: seq<Event>, j: nat, n: nat)
    requires Run(c, ws, es) && j < n < |ws| && es[j].NeedPurge? && es[j].majorMismatch
    requires forall k: nat | j < k < n :: !es[k].Crash?
    ensures ws[n].pc == RecordFailed(MajorVersionMismatch) || ws[n].job.phase == Failed(MajorVersionMismatch)
    decreases n
  {
    if j + 1 < n {
      MismatchFails(c, ws, es, j, n - 1);
      ShapeThroughout(c, ws, es, n - 1);
      MismatchStep(c, ws[n - 1], es[n - 1]);
    }
  }

  lemma MismatchStep(c: Setting, w: World, e: Event)
    requires Enabled(c, w, e) && !e.Crash? && Shape(c, w)
    requires w.pc == RecordFailed(MajorVersionMismatch) || w.job.phase == Failed(MajorVersionMismatch)
    ensures var w' := Apply(c, w, e);
            w'.pc == RecordFailed(MajorVersionMismatch) || w'.job.phase == Failed(MajorVersionMismatch)
  {
  }

  /** The WAL wait was recorded, and failed the job exactly if it had lasted too long. */
  predicate Waited(c: Setting, w: World) {
    && w.job.walPending.Some?
    && ((w.pc == RecordFailed(WalArchiveTimeout) || w.job.phase == Failed(WalArchiveTimeout))
        <==> w.clock > w.job.walPending.value + c.walDeadline)
  }

  lemma WaitStep(c: Setting, w: World)
    requires Enabled(c, w, WaitForWal) && Shape(c, w)
    ensures Waited(c, Apply(c, w, WaitForWal))
  {
  }

  // ---------------------------------------------------------------- why a restore fails

  /** What each reason for failing rests on. */
  predicate Grounded(c: Setting, w: World, r: Reason) {
    match r
    case InvalidInput => c.inputErrors
    case MajorVersionMismatch => true
    case WalArchiveTimeout => w.job.walPending.Some? && w.clock > w.job.walPending.value + c.walDeadline
    case PatchFailed => c.patchErrors
    case PurgeFailed => c.purgeErrors
    case DeadlineExceeded =>
      w.job.startedAt.Some? && w.clock > w.job.startedAt.value + c.restoreDeadline && w.job.converged.None?
    case BootstrapDisableFailed => w.job.converged.Some? && w.clock > w.job.converged.value + c.grace
  }

  predicate Caused(c: Setting, w: World) {
    && (w.pc.RecordFailed? ==> Grounded(c, w, w.pc.reason))
    && (w.pc.Abort? ==> (w.pc.why.PatchFailed? || w.pc.why.PurgeFailed?) && Grounded(c, w, w.pc.why))
    && (w.job.phase.Failed? ==> Grounded(c, w, w.job.phase.reason))
  }

  lemma OthersLeaveThePass(c: Setting, w: World, e: Event)
    requires Enabled(c, w, e) && IsEnvironment(e)
    ensures var w' := Apply(c, w, e); w'.job == w.job && w'.pc == w.pc && w'.clock >= w.clock
  {
  }

  lemma CausesLast(c: Setting, w: World, later: World)
    requires Caused(c, w) && later.job == w.job && later.pc == w.pc && later.clock >= w.clock
    ensures Caused(c, later)
  {
  }

  lemma CausedStep(c: Setting, w: World, e: Event)
    requires Caused(c, w) && Shape(c, w) && Enabled(c, w, e)
    ensures Caused(c, Apply(c, w, e))
  {
    if IsEnvironment(e) {
      OthersLeaveThePass(c, w, e);
      CausesLast(c, w, Apply(c, w, e));
    }
  }

  /** No restore fails for lateness before it is late, or for a fault there was not. */
  lemma {:induction false} FailsForCause(c: Setting, ws: seq<World>, es: seq<Event>, i: nat)
    requires Run(c, ws, es) && i < |ws|
    ensures Caused(c, ws[i])
  {
    if i > 0 {
      FailsForCause(c, ws, es, i - 1);
      ShapeThroughout(c, ws, es, i - 1);
      CausedStep(c, ws[i - 1], es[i - 1]);
    }
  }

  predicate Mismatched(w: World) {
    w.pc == RecordFailed(MajorVersionMismatch) || w.job.phase == Failed(MajorVersionMismatch)
  }

  lemma MismatchedStep(c: Setting, w: World, e: Event)
    requires Enabled(c, w, e) && Caused(c, w) && !Mismatched(w) && Mismatched(Apply(c, w, e))
    ensures e.NeedPurge? && e.majorMismatch
  {
  }

  /** A mismatch is reported only after a pass met one. */
  lemma {:induction false} MismatchWasMet(c: Setting, ws: seq<World>, es: seq<Event>, i: nat)
    requires Run(c, ws, es) && i < |ws| && Mismatched(ws[i])
    ensures exists j: nat :: j < i && es[j].NeedPurge? && es[j].majorMismatch
  {
    if Mismatched(ws[i - 1]) {
      MismatchWasMet(c, ws, es, i - 1);
    } else {
      FailsForCause(c, ws, es, i - 1);
      MismatchedStep(c, ws[i - 1], es[i - 1]);
    }
  }

  lemma WalClockStep(c: Setting, w: World, e: Event)
    requires Enabled(c, w, e)
    ensures w.job.walPending.Some? ==> Apply(c, w, e).job.walPending == w.job.walPending
    ensures w.job.walPending.None? && Apply(c, w, e).job.walPending.Some? ==>
              e.WaitForWal? && Apply(c, w, e).job.walPending.value == w.clock
  {
  }

  /** The WAL clock starts at the first wait and is never set back. */
  lemma WalClockKept(c: Setting, ws: seq<World>, es: seq<Event>, i: nat, j: nat)
    requires Run(c, ws, es) && i <= j < |ws| && ws[i].job.walPending.Some?
    ensures ws[j].job.walPending == ws[i].job.walPending
  {
    var clocks := seq(|ws|, k requires 0 <= k < |ws| => ws[k].job.walPending);
    forall k | 0 <= k < |clocks| - 1 && clocks[k].Some? ensures clocks[k + 1] == clocks[k] {
      WalClockStep(c, ws[k], es[k]);
    }
    OnceSet(clocks, i, j);
  }
}
