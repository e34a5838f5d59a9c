/** The FoundationDB driver's ensure step as code. */
module FdbController {
  import opened FdbBackup

  /** What a patch or a read comes back with. */
  datatype Answer = Fine | Conflict | Error

  /** What happens around one API call. */
  datatype Luck = Luck(others: seq<Event>, answer: Answer)

  const STOP_CONFLICT_RETRIES := 5

  predicate StoppedOrGone(w: World, name: string) {
    name !in w.store || w.store[name].state.Stopped?
  }

  /** At some point of a history from there on, the backup was stopped or gone. */
  ghost predicate WasStopped(ws: seq<World>, from: nat, name: string) {
    exists k: nat :: from <= k < |ws| && StoppedOrGone(ws[k], name)
  }

  lemma StillStopped(ws: seq<World>, later: seq<World>, from: nat, name: string)
    requires WasStopped(ws, from, name) && ws <= later
    ensures WasStopped(later, from, name)
  {
    var k: nat :| from <= k < |ws| && StoppedOrGone(ws[k], name);
    assert later[k] == ws[k];
  }

  predicate Calm(luck: Luck) {
    luck.others == [] && luck.answer.Fine?
  }

  ghost predicate AllCalm(luck: nat -> Luck) {
    forall n: nat :: Calm(luck(n))
  }

  /** The store with some backups stopped. */
  function StoppedAll(store: map<string, Cr>, names: set<string>): map<string, Cr> {
    map n | n in store :: if n in names then store[n].(state := Stopped) else store[n]
  }

  /** The chart's own backup of the cluster is running. */
  predicate ChartRuns(store: map<string, Cr>, cluster: string) {
    exists n <- store :: !store[n].driver && store[n].cluster == cluster && store[n].state == Running
  }

  /** The BackupJob has its backup already. */
  predicate JobHasOne(store: map<string, Cr>, job: string) {
    exists n <- store :: store[n].driver && store[n].job == job
  }

  /** The driver's backups of the cluster for other jobs that are not stopped. */
  function Others(store: map<string, Cr>, job: string, cluster: string): set<string> {
    set n | n in store && store[n].driver && store[n].cluster == cluster && store[n].job != job
        && store[n].state != Stopped
  }

  lemma OneMoreStopped(store: map<string, Cr>, names: set<string>, name: string)
    requires name in store
    ensures var s := StoppedAll(store, names);
            s[name := s[name].(state := Stopped)] == StoppedAll(store, names + {name})
  {
  }

  class Driver {
    const c: Setting
    var w: World
    ghost var ws: seq<World>
    ghost var es: seq<Event>

    ghost predicate Valid()
      reads this
    {
      Run(c, ws, es) && w == ws[|ws| - 1]
    }

    constructor (c: Setting, w: World)
      requires w.pc.Idle? && AtMostOne(w)
      ensures Valid() && this.c == c && this.w == w
    {
      this.c, this.w := c, w;
      ws, es := [w], [];
    }

    method Do(e: Event)
      requires Valid() && Enabled(c, w, e)
      modifies this
      ensures Valid() && w == Apply(c, old(w), e) && ws == old(ws) + [w] && es == old(es) + [e]
    {
      w := Apply(c, w, e);
      ws, es := ws + [w], es + [e];
    }

    /** What others do before the next call. A stopped backup stays stopped unless others restart it. */
    method Await(luck: Luck)
      requires Valid()
      modifies this
      ensures Valid() && old(ws) <= ws && old(es) <= es && w.pc == old(w.pc)
      ensures Calm(luck) ==> w == old(w)
    {
      for i := 0 to |luck.others|
        invariant Valid() && old(ws) <= ws && old(es) <= es && w.pc == old(w.pc) && (luck.others == [] ==> w == old(w))
      {
        if IsEnvironment(luck.others[i]) && Enabled(c, w, luck.others[i]) {
          Do(luck.others[i]);
        }
      }
    }

    /** patchStopWithRetry: success only when the object is stopped or gone. */
    method PatchStopWithRetry(name: string, luck: nat -> Luck) returns (ok: bool)
      requires Valid() && w.pc.Stop? && name in w.pc.todo
      modifies this
      ensures Valid() && old(ws) <= ws && old(es) <= es
      ensures w.pc == if ok then old(w.pc).(todo := old(w.pc.todo) - {name}) else old(w.pc)
      ensures ok ==> |ws| > old(|ws|) && StoppedOrGone(w, name)
      ensures AllCalm(luck) && name in old(w.store) ==>
                ok && w.store == old(w.store)[name := old(w.store)[name].(state := Stopped)]
    {
      for attempt := 0 to STOP_CONFLICT_RETRIES
        invariant Valid() && old(ws) <= ws && old(es) <= es && w.pc == old(w.pc)
        invariant AllCalm(luck) && name in old(w.store) ==> attempt == 0 && w == old(w)
      {
        Await(luck(2 * attempt));
        if name !in w.store {
          Do(StopSeen(name));
          return true;
        }
        match luck(2 * attempt).answer
        case Fine =>
          Do(PatchOk(name));
          return true;
        case Error =>
          return false;
        case Conflict =>
          if attempt == STOP_CONFLICT_RETRIES - 1 { return false; }
          Await(luck(2 * attempt + 1));
          if name in w.store && !luck(2 * attempt + 1).answer.Fine? { return false; }
          if name !in w.store || w.store[name].state.Stopped? {
            Do(StopSeen(name));
            return true;
          }
      }
      return false;
    }

    /** stopOtherFoundationDBBackups, after the list: every listed backup is stopped or gone. */
    method StopOthers(luck: nat -> Luck) returns (ok: bool)
      requires Valid() && w.pc.Stop?
      modifies this
      ensures Valid() && old(ws) <= ws && old(es) <= es
      ensures ok ==> w.pc == CreateNew(old(w.pc.job), old(w.pc.cluster))
      ensures ok ==> forall name <- old(w.pc.todo) :: WasStopped(ws, old(|ws|), name)
      ensures !ok ==> w.pc.Idle?
      ensures AllCalm(luck) && old(w.pc.todo) <= old(w.store).Keys ==>
          ok && w.store == StoppedAll(old(w.store), old(w.pc.todo))
    {
      var n: nat := 0;
      while w.pc.todo != {}
        invariant Valid() && old(ws) <= ws && old(es) <= es && w.pc.Stop?
        invariant w.pc.job == old(w.pc.job) && w.pc.cluster == old(w.pc.cluster)
        invariant forall name <- old(w.pc.todo) :: name in w.pc.todo || WasStopped(ws, old(|ws|), name)
        invariant w.pc.todo <= old(w.pc.todo)
        invariant AllCalm(luck) && old(w.pc.todo) <= old(w.store).Keys ==>
          w.store == StoppedAll(old(w.store), old(w.pc.todo) - w.pc.todo)
        decreases w.pc.todo
      {
        var name :| name in w.pc.todo;
        var base: nat := n;
        ghost var stopped := old(w.pc.todo) - w.pc.todo;
        assert stopped + {name} == old(w.pc.todo) - (w.pc.todo - {name});
        if name in old(w.store) {
          OneMoreStopped(old(w.store), stopped, name);
        }
        ok := PatchStopWithRetry(name, (k: nat) => luck(base + k));
        if !ok {
          Do(Return);
          return;
        }
        assert StoppedOrGone(ws[|ws| - 1], name);
        n := n + 2 * STOP_CONFLICT_RETRIES;
      }
      ghost var stopped := ws;
      Do(AllStopped);
      forall name | name in old(w.pc.todo) ensures WasStopped(ws, old(|ws|), name) {
        StillStopped(stopped, ws, old(|ws|), name);
      }
      ok := true;
    }

    /** The step that created the backup, from that point of the history on. */
    ghost predicate WasCreated(from: nat, name: string, cluster: string)
      requires Valid()
      reads this
    {
      exists k: nat :: from <= k < |es| && es[k] == Create(name) && ws[k].pc.CreateNew? && ws[k].pc.cluster == cluster
    }

    /** And nothing else of the cluster ran at that step. */
    ghost predicate WasCreatedAlone(from: nat, name: string, cluster: string)
      requires Valid()
      reads this
    {
      exists k: nat :: from <= k < |es| && es[k] == Create(name)
        && forall n <- ws[k].store :: ws[k].store[n].cluster == cluster ==> !ws[k].store[n].state.Running?
    }

    lemma CreatedAloneIndeed(from: nat, name: string, cluster: string)
      requires Valid() && WasCreated(from, name, cluster) && !c.othersRestart && !c.chartInsidePass
      ensures WasCreatedAlone(from, name, cluster)
    {
      var k: nat :| from <= k < |es| && es[k] == Create(name) && ws[k].pc.CreateNew? && ws[k].pc.cluster == cluster;
      CreatesAlone(c, ws, es, k);
    }

    /** The conflict check and ensureFoundationDBBackup. A backup it creates is the cluster's only
        live one of the driver's, and nothing else of the cluster ran when it was created. */
    method Ensure(job: string, cluster: string, name: string, luck: nat -> Luck) returns (created: bool)
      requires Valid() && w.pc.Idle?
      modifies this
      ensures Valid() && old(ws) <= ws && old(es) <= es && w.pc.Idle?
      ensures created ==> name in w.store && w.store[name] == Cr(cluster, true, job, Running)
      ensures !c.othersRestart ==> AtMostOne(w)
      ensures created && !c.othersRestart && !c.chartInsidePass ==> WasCreatedAlone(old(|es|), name, cluster)
      // Undisturbed, it creates the backup exactly when no chart backup runs and the job has none,
      // with every other one stopped.
      ensures AllCalm(luck) && name !in old(w.store) ==>
                created == (!ChartRuns(old(w.store), cluster) && !JobHasOne(old(w.store), job))
      ensures AllCalm(luck) && name !in old(w.store) && created ==>
                w.store == StoppedAll(old(w.store), Others(old(w.store), job, cluster))[
                             name := Cr(cluster, true, job, Running)]
    {
      created := EnsurePass(job, cluster, name, luck);
      if !c.othersRestart {
        InvThroughout(c, ws, es, |ws| - 1);
      }
      if created && !c.othersRestart && !c.chartInsidePass {
        CreatedAloneIndeed(old(|es|), name, cluster);
      }
    }

    method EnsurePass(job: string, cluster: string, name: string, luck: nat -> Luck) returns (created: bool)
      requires Valid() && w.pc.Idle?
      modifies this
      ensures Valid() && old(ws) <= ws && old(es) <= es && w.pc.Idle?
      ensures created ==> name in w.store && w.store[name] == Cr(cluster, true, job, Running)
      ensures created ==> WasCreated(old(|es|), name, cluster)
      ensures AllCalm(luck) && name !in old(w.store) ==>
                created == (!ChartRuns(old(w.store), cluster) && !JobHasOne(old(w.store), job))
      ensures AllCalm(luck) && name !in old(w.store) && created ==>
                w.store == StoppedAll(old(w.store), Others(old(w.store), job, cluster))[
                             name := Cr(cluster, true, job, Running)]
    {
      created := false;
      Await(luck(0));
      var blocked := Conflicting(w, cluster);
      Do(Begin(job, cluster));
      if blocked { return; }
      Await(luck(1));
      var found := HasOwn(w, job);
      Do(Found);
      if !found {
        created := Replace(name, luck);
      }
    }

    method Replace(name: string, luck: nat -> Luck) returns (created: bool)
      requires Valid() && w.pc.ListOthers?
      modifies this
      ensures Valid() && old(ws) <= ws && old(es) <= es && w.pc.Idle?
      ensures created ==> name in w.store && w.store[name] == Cr(old(w.pc.cluster), true, old(w.pc.job), Running)
      ensures created ==> WasCreated(old(|es|), name, old(w.pc.cluster))
      ensures AllCalm(luck) && name !in old(w.store) ==>
                && created
                && w.store == StoppedAll(old(w.store), Others(old(w.store), old(w.pc.job), old(w.pc.cluster)))[
                                name := Cr(old(w.pc.cluster), true, old(w.pc.job), Running)]
    {
      Await(luck(2));
      Do(Listed);
      created := StopOthers((k: nat) => luck(k + 4));
      if created {
        created := CreateBackup(name, luck(3), old(|es|));
      }
    }

    method CreateBackup(name: string, luck: Luck, ghost from: nat) returns (created: bool)
      requires Valid() && w.pc.CreateNew? && from <= |es|
      modifies this
      ensures Valid() && old(ws) <= ws && old(es) <= es && w.pc.Idle?
      ensures created ==> name in w.store && w.store[name] == Cr(old(w.pc.cluster), true, old(w.pc.job), Running)
      ensures created ==> WasCreated(from, name, old(w.pc.cluster))
      ensures Calm(luck) && name !in old(w.store) ==>
                created && w.store == old(w.store)[name := Cr(old(w.pc.cluster), true, old(w.pc.job), Running)]
    {
      Await(luck);
      created := luck.answer.Fine? && name !in w.store;
      ghost var at := |es|;
      Do(if created then Create(name) else Return);
      assert created ==> es[at] == Create(name) && ws[at].pc.CreateNew? && ws[at].pc.cluster == old(w.pc.cluster);
    }
  }
}
