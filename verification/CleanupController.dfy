/** BackupReconciler.Reconcile on a Backup being deleted, with the RabbitMQ and Kafka cleanups. */
module CleanupController {
  import opened Basics
  import opened ArtifactCleanup

  /** What happens around one API call. */
  datatype Luck = Luck(others: seq<Event>, crash: bool, ok: bool)

  /** What a pass learns from the strategy, the namespace, the credentials and the template. */
  datatype Inputs = Inputs(strategyGone: bool, spawnable: bool)

  /** Nobody acts before the call, and it succeeds. */
  predicate Calm(luck: Luck) {
    luck.others == [] && !luck.crash && luck.ok
  }

  ghost predicate AllCalm(luck: nat -> Luck) {
    forall n: nat :: Calm(luck(n))
  }

  function LetGo(w: World, why: Why): World {
    w.(held := false, released := Some(why), pc := Idle)
  }

  function GivenUp(c: Setting, w: World): World {
    LetGo(Warn(c, w), GaveUp)
  }

  /** The whole pass, with nobody else acting and no call failing. */
  function CalmPass(c: Setting, w: World, inputs: Inputs): World {
    if !w.deleting || !w.held then w
    else if w.skip then LetGo(w.(job := Reaped(w.job)), Skipped)
    else if c.uri == "" then LetGo(w, NoArtifact)
    else if (c.kafka && c.image == "") || inputs.strategyGone then GivenUp(c, w)
    else if w.job.None? then
      if inputs.spawnable then w.(job := Some(Job(c.uri, Active, false, true)), pc := Idle) else GivenUp(c, w)
    else if w.job.value.deleting || w.job.value.state.Active? then w.(pc := Idle)
    else if w.job.value.state.Complete? then LetGo(w.(job := Reaped(w.job)), ObjectDeleted)
    else w.(job := Reaped(w.job), pc := Idle)
  }

  /** A Backup being deleted whose object can be cleaned up. */
  predicate Cleanable(c: Setting, w: World) {
    && w.pc.Idle? && w.deleting && w.held && w.released.None? && !w.skip
    && c.uri != "" && !(c.kafka && c.image == "")
  }

  /** The deletion is tried, waited for, and tried again; the Backup is held meanwhile. */
  lemma CalmTries(c: Setting, w: World)
    requires Cleanable(c, w) && (w.job.None? || !w.job.value.state.Complete? || w.job.value.deleting)
    ensures var w' := CalmPass(c, w, Inputs(false, true));
            && w'.held && w'.warnings == w.warnings
            && (w.job.None? ==> w'.job == Some(Job(c.uri, Active, false, true)))
            && (w.job.Some? && w.job.value.state.Broken? ==> w'.job.Some? && w'.job.value.deleting)
  {
  }

  /** What a cooperative cluster does: the Job runs, or goes if it was asked to. */
  function Cooperate(w: World): World {
    if w.job.None? then w
    else if w.job.value.deleting then w.(job := None)
    else if w.job.value.state.Active? && w.job.value.ours
    then w.(bucket := w.bucket - {w.job.value.uri}, job := Some(w.job.value.(state := Complete)))
    else w
  }

  function Round(c: Setting, w: World): World {
    Cooperate(CalmPass(c, w, Inputs(false, true)))
  }

  /** Two rounds delete the object and let the Backup go. */
  lemma CooperativeCleanupFinishes(c: Setting, w: World)
    requires Cleanable(c, w) && w.job.None?
    ensures var w' := Round(c, Round(c, w));
            !w'.held && w'.released == Some(ObjectDeleted) && c.uri !in w'.bucket && w'.warnings == w.warnings
  {
  }

  predicate IsGiveUp(e: Event) {
    e.CannotSpawn? || e.StrategyGone?
  }

  ghost predicate NoGiveUp(es: seq<Event>, from: nat) {
    forall k: nat :: from <= k < |es| ==> !IsGiveUp(es[k])
  }

  /** Giving up has a cause. */
  ghost predicate GaveUpBy(inputs: Inputs, es: seq<Event>, from: nat) {
    forall k: nat :: from <= k < |es| && IsGiveUp(es[k]) ==>
      if es[k].CannotSpawn? then !inputs.spawnable else inputs.strategyGone
  }

  class Cleanup {
    const c: Setting
    var w: World
    ghost var ws: seq<World>
    ghost var es: seq<Event>

    ghost predicate Valid()
      reads this
    {
      Run(c, ws, es) && w == ws[|ws| - 1]
    }

    constructor (c: Setting, w: World)
      requires Init(c, w)
      ensures Valid() && this.c == c && this.w == w && ws == [w] && es == []
    {
      this.c, this.w := c, w;
      ws, es := [w], [];
    }

    method Do(e: Event)
      requires Valid() && Enabled(c, w, e)
      modifies this
      ensures Valid() && w == Apply(c, old(w), e)
      ensures ws == old(ws) + [w] && es == old(es) + [e]
    {
      w := Apply(c, w, e);
      ws, es := ws + [w], es + [e];
    }

    /** Everything up to the next API call: others act, and the pass may die. */
    method Await(luck: Luck) returns (alive: bool)
      requires Valid()
      modifies this
      ensures Valid() && old(ws) <= ws && old(es) <= es && w.held == old(w.held)
      ensures alive == !luck.crash && w.pc == if alive then old(w.pc) else Idle
      ensures (Calm(luck) ==> w == old(w)) && NoGiveUp(es, old(|es|))
    {
      for i := 0 to |luck.others|
        invariant Valid() && old(ws) <= ws && old(es) <= es && w.held == old(w.held) && w.pc == old(w.pc)
        invariant (luck.others == [] ==> w == old(w)) && NoGiveUp(es, old(|es|))
      {
        if IsEnvironment(luck.others[i]) && Enabled(c, w, luck.others[i]) {
          Do(luck.others[i]);
        }
      }
      alive := !luck.crash;
      if luck.crash {
        Do(Crash);
      }
    }

    /** cleanupRabbitmqBackup and cleanupKafkaBackup: true when the Backup may be let go. */
    method CleanupOnDelete(inputs: Inputs, luck: nat -> Luck) returns (done: bool)
      requires Valid() && w.held && (w.pc.Annotated? || w.pc.Cleaning?)
      modifies this
      ensures Valid() && old(ws) <= ws && old(es) <= es && w.held
      ensures if done then w.pc.Release? else w.pc.Idle?
      ensures GaveUpBy(inputs, es, old(|es|))
      ensures AllCalm(luck) && old(w.deleting) && (old(w.pc.Annotated?) <==> old(w.skip)) ==>
                CalmPass(c, old(w), inputs) == if done then LetGo(w, w.pc.why) else w
    {
      if w.pc.Annotated? {
        done := Await(luck(0));
        if !done { return; }
        Do(ReapSkipped(luck(0).ok));
      } else if c.uri == "" {
        Do(NoObject);
        done := true;
      } else if c.kafka && c.image == "" {
        Do(NoImage);
        done := true;
      } else {
        done := Await(luck(0));
        if !done { return; }
        if inputs.strategyGone {
          Do(StrategyGone);
        } else {
          Do(StrategyFound);
          done := DriveJob(inputs, luck);
        }
      }
    }

    /** Create, wait for, retry or collect the cleanup Job. */
    method DriveJob(inputs: Inputs, luck: nat -> Luck) returns (done: bool)
      requires Valid() && w.held && w.pc.LookForJob?
      modifies this
      ensures Valid() && old(ws) <= ws && old(es) <= es && w.held
      ensures if done then w.pc.Release? else w.pc.Idle?
      ensures GaveUpBy(inputs, es, old(|es|))
      ensures && AllCalm(luck) && old(w.deleting) && !old(w.skip)
              && c.uri != "" && !(c.kafka && c.image == "") && !inputs.strategyGone ==>
                CalmPass(c, old(w), inputs) == if done then LetGo(w, w.pc.why) else w
    {
      done := Await(luck(1));
      if !done { return; }
      if w.job.None? {
        done := SpawnJob(inputs.spawnable, luck(2));
      } else if w.job.value.deleting || w.job.value.state.Active? {
        Do(JobLooked);
        done := false;
      } else {
        done := CollectJob(luck(2));
      }
    }

    method SpawnJob(spawnable: bool, luck: Luck) returns (done: bool)
      requires Valid() && w.held && w.pc.LookForJob? && w.job.None?
      modifies this
      ensures Valid() && old(ws) <= ws && old(es) <= es && w.held
      ensures if done then w.pc.Release? else w.pc.Idle?
      ensures spawnable ==> NoGiveUp(es, old(|es|))
      ensures forall k: nat :: old(|es|) <= k < |es| ==> !es[k].StrategyGone?
      ensures Calm(luck) ==> done == !spawnable
      ensures Calm(luck) ==>
                w == if done then Warn(c, old(w)) else old(w).(job := Some(Job(c.uri, Active, false, true)), pc := Idle)
    {
      Do(JobLooked);
      done := Await(luck);
      if !done { return; }
      done := !spawnable;
      Do(if spawnable then Create else CannotSpawn);
    }

    /** A finished Job is dropped: done if it completed, tried again if it failed. */
    method CollectJob(luck: Luck) returns (done: bool)
      requires Valid() && w.held && w.pc.LookForJob? && w.job.Some?
      requires !w.job.value.deleting && !w.job.value.state.Active?
      modifies this
      ensures Valid() && old(ws) <= ws && old(es) <= es && w.held && NoGiveUp(es, old(|es|))
      ensures if done then w.pc.Release? else w.pc.Idle?
      ensures Calm(luck) ==> done == old(w.job).value.state.Complete?
      ensures Calm(luck) ==>
                w == old(w).(job := Reaped(old(w.job)), pc := if done then Release(ObjectDeleted) else Idle)
    {
      var complete := w.job.value.state.Complete?;
      Do(JobLooked);
      done := Await(luck);
      if !done { return; }
      done := complete;
      Do(Collected(luck.ok));
    }

    /** One pass over the Backup. However often Jobs fail and passes die, the object is not lost
        from sight: gone, named in a Warning, or left on request. */
    method Reconcile(inputs: Inputs, luck: nat -> Luck)
      requires Valid() && w.pc.Idle?
      modifies this
      ensures Valid() && old(ws) <= ws && old(es) <= es && w.pc.Idle?
      ensures c.recorder && !c.foreignJobs ==> !SilentOrphan(c, w)
      ensures GaveUpBy(inputs, es, old(|es|))
      ensures AllCalm(luck) ==> w == CalmPass(c, old(w), inputs)
    {
      Pass(inputs, luck);
      if c.recorder && !c.foreignJobs {
        InvThroughout(c, ws, es, |ws| - 1);
      }
    }

    method Finish(luck: Luck)
      requires Valid() && w.pc.Release? && w.held
      modifies this
      ensures Valid() && old(ws) <= ws && old(es) <= es && w.pc.Idle? && NoGiveUp(es, old(|es|))
      ensures Calm(luck) ==> w == LetGo(old(w), old(w.pc.why))
    {
      var alive := Await(luck);
      if alive {
        Do(RemoveFinalizer);
      }
    }

    method Pass(inputs: Inputs, luck: nat -> Luck)
      requires Valid() && w.pc.Idle?
      modifies this
      ensures Valid() && old(ws) <= ws && old(es) <= es && w.pc.Idle?
      ensures GaveUpBy(inputs, es, old(|es|))
      ensures AllCalm(luck) ==> w == CalmPass(c, old(w), inputs)
    {
      var alive := Await(luck(0));
      if !alive || !w.deleting || !w.held { return; }
      Do(Begin);
      var done := CleanupOnDelete(inputs, (n: nat) => luck(n + 2));
      if done {
        Finish(luck(1));
      }
    }
  }
}
