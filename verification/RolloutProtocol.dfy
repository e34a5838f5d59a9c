/** debouncedRestart against a watch that interrupts it anywhere. */
module RolloutProtocol {
  import opened Basics
  import opened ConfigRollout

  /** The pass: the two times snapped under the mutex, then the hash, then what is left to write. */
  datatype Pc =
    | Idle | Snapped(le: nat, lh: nat) | Compute(le: nat) | Read(le: nat, hash: string)
    | Patch(le: nat, hash: string) | Handle(le: nat)

  /** `pending` counts changes the watch has not delivered yet; 0 is the zero time; `workload` is
      the config-hash annotation of the Deployment, if there is one. */
  datatype World = World(
    defs: set<Def>, pending: nat, clock: nat, lastEvent: nat, lastHandled: nat,
    workload: Option<string>, pc: Pc)

  /** `debounce` as configured; `digest` is the JSON and SHA-256 of the views, `hash` what it comes
      to for a set of definitions; `othersPatch`: somebody else may rewrite the annotation. */
  datatype Setting = Setting(debounce: int, digest: seq<View> -> string, hash: set<Def> -> string, othersPatch: bool)

  const DEFAULT_DEBOUNCE := 5

  ghost predicate Sane(c: Setting) {
    forall defs: set<Def>, views: seq<View> | IsViews(defs, views) :: c.hash(defs) == c.digest(views)
  }

  function Debounce(c: Setting): (d: int)
    ensures d > 0
  {
    if c.debounce <= 0 then DEFAULT_DEBOUNCE else c.debounce
  }

  datatype Event =
    // the reconciler
    | Snap | Checked | Computed | WorkloadRead | Patched | Handled | Return
    // the watch, users, time, a restart
    | Notify(delivered: nat) | Change(defs: set<Def>) | Overwrite(workload: Option<string>) | Tick(seconds: nat)
    | Restart

  predicate Enabled(c: Setting, w: World, e: Event) {
    match e
    case Snap => w.pc.Idle?
    case Checked => w.pc.Snapped?
    case Computed => w.pc.Compute?
    case WorkloadRead => w.pc.Read?
    case Patched => w.pc.Patch? && w.workload.Some?
    case Handled => w.pc.Handle?
    case Return => true
    // One notification may stand for several changes, or for none.
    case Notify(delivered) => delivered <= w.pending
    case Change(defs) => UniqueNames(defs)
    case Overwrite(_) => c.othersPatch
    case Tick(_) => true
    case Restart => true
  }

  predicate Due(c: Setting, w: World, le: nat, lh: nat) {
    le != 0 && w.clock - le >= Debounce(c) && lh < le
  }

  function Apply(c: Setting, w: World, e: Event): World
    requires Enabled(c, w, e)
  {
    match e
    case Snap => w.(pc := Snapped(w.lastEvent, w.lastHandled))
    case Checked => w.(pc := if Due(c, w, w.pc.le, w.pc.lh) then Compute(w.pc.le) else Idle)
    case Computed => w.(pc := Read(w.pc.le, c.hash(w.defs)))
    case WorkloadRead =>
      w.(pc := if w.workload.None? then Idle
               else if w.workload.value == w.pc.hash && w.pc.hash != "" then Handle(w.pc.le)
               else Patch(w.pc.le, w.pc.hash))
    case Patched => w.(workload := Some(w.pc.hash), pc := Handle(w.pc.le))
    case Handled => w.(lastHandled := w.pc.le, pc := Idle)
    case Return => w.(pc := Idle)
    case Notify(delivered) => w.(lastEvent := w.clock, pending := w.pending - delivered)
    case Change(defs) => w.(defs := defs, pending := w.pending + 1)
    case Overwrite(workload) => w.(workload := workload)
    case Tick(seconds) => w.(clock := w.clock + seconds)
    case Restart => w.(lastEvent := 0, lastHandled := 0, pc := Idle)
  }

  ghost predicate Run(c: Setting, ws: seq<World>, es: seq<Event>) {
    && |ws| == |es| + 1
    && ws[0].clock > 0 && ws[0].lastEvent == 0 && ws[0].lastHandled == 0 && ws[0].pc.Idle?
    && forall i :: 0 <= i < |es| ==> Enabled(c, ws[i], es[i]) && ws[i + 1] == Apply(c, ws[i], es[i])
  }

  // ---------------------------------------------------------------- no update is lost

  /** What the reconciler believes is rolled out, is. */
  predicate UpToDate(c: Setting, w: World) {
    w.lastEvent != 0 && w.lastHandled == w.lastEvent && w.pending == 0 ==> w.workload == Some(c.hash(w.defs))
  }

  /** Nothing has happened since the event the pass answers. */
  predicate Quiet(w: World, le: nat) {
    w.pending == 0 && w.lastEvent == le
  }

  predicate Inv(c: Setting, w: World) {
    && w.lastHandled < w.clock && w.lastHandled <= w.lastEvent <= w.clock && UpToDate(c, w)
    && (w.pc.Snapped? ==> w.pc.le <= w.lastEvent && w.pc.lh == w.lastHandled)
    // Any later event is stamped strictly after le: this is what a positive debounce buys.
    && (!w.pc.Idle? && !w.pc.Snapped? ==> 0 < w.pc.le && w.pc.le < w.clock && w.lastHandled < w.pc.le <= w.lastEvent)
    && ((w.pc.Read? || w.pc.Patch?) && Quiet(w, w.pc.le) ==> w.pc.hash == c.hash(w.defs))
    && (w.pc.Handle? && Quiet(w, w.pc.le) ==> w.workload == Some(c.hash(w.defs)))
  }

  lemma InvStep(c: Setting, w: World, e: Event)
    requires !c.othersPatch && Inv(c, w) && Enabled(c, w, e)
    ensures Inv(c, Apply(c, w, e))
  {
  }

  lemma {:induction false} NoUpdateLost(c: Setting, ws: seq<World>, es: seq<Event>, i: nat)
    requires !c.othersPatch && Run(c, ws, es) && i < |ws|
    ensures Inv(c, ws[i])
  {
    if i > 0 {
      NoUpdateLost(c, ws, es, i - 1);
      InvStep(c, ws[i - 1], es[i - 1]);
    }
  }

  // ---------------------------------------------------------------- exactly when it holds

  datatype Tape = Tape(ws: seq<World>, es: seq<Event>, now: World)

  ghost predicate Reached(c: Setting, t: Tape) {
    Run(c, t.ws, t.es) && t.now == t.ws[|t.ws| - 1]
  }

  lemma Extend(c: Setting, t: Tape, e: Event) returns (t': Tape)
    requires Reached(c, t) && Enabled(c, t.now, e)
    ensures Reached(c, t') && t'.now == Apply(c, t.now, e)
  {
    var w := Apply(c, t.now, e);
    t' := Tape(t.ws + [w], t.es + [e], w);
  }

  lemma RollsOut(c: Setting) returns (t: Tape)
    ensures Reached(c, t) && t.now.lastEvent != 0 && t.now.lastHandled == t.now.lastEvent && t.now.pending == 0
  {
    var w := World({}, 0, 1, 0, 0, Some(""), Idle);
    t := Tape([w], [], w);
    t := Extend(c, t, Notify(0));
    t := Extend(c, t, Tick(Debounce(c)));
    t := Extend(c, t, Snap);
    t := Extend(c, t, Checked);
    t := Extend(c, t, Computed);
    t := Extend(c, t, WorkloadRead);
    t := Extend(c, t, Patched);
    t := Extend(c, t, Handled);
  }

  lemma OverwriteBreaksIt(c: Setting) returns (ws: seq<World>, es: seq<Event>)
    requires c.othersPatch
    ensures Run(c, ws, es) && exists i: nat | i < |ws| :: !UpToDate(c, ws[i])
  {
    var t := RollsOut(c);
    t := Extend(c, t, Overwrite(None));
    ws, es := t.ws, t.es;
    assert !UpToDate(c, ws[|ws| - 1]);
  }

  /** Handled means rolled out, in every run and at every point of it, exactly when nobody else
      rewrites the annotation; whatever debounce is configured. */
  lemma NoUpdateLostExactly(c: Setting)
    ensures (forall ws: seq<World>, es: seq<Event> | Run(c, ws, es) :: forall i: nat | i < |ws| :: UpToDate(c, ws[i]))
       <==> !c.othersPatch
  {
    if c.othersPatch {
      var ws, es := OverwriteBreaksIt(c);
    } else {
      forall ws: seq<World>, es: seq<Event>, i: nat | Run(c, ws, es) && i < |ws| ensures UpToDate(c, ws[i]) {
        NoUpdateLost(c, ws, es, i);
      }
    }
  }

  // ---------------------------------------------------------------- the reconciler

  /** What happens around one step: what others do first, and whether the step fails. */
  datatype Luck = Luck(others: seq<Event>, fails: bool)

  predicate Calm(luck: Luck) {
    luck.others == [] && !luck.fails
  }

  ghost predicate AllCalm(luck: nat -> Luck) {
    forall n: nat :: Calm(luck(n))
  }

  /** The last event is old enough and not yet answered. */
  predicate Ripe(c: Setting, w: World) {
    && w.lastEvent != 0 && w.lastHandled < w.lastEvent
    && w.clock >= w.lastEvent + (if c.debounce <= 0 then 5 else c.debounce)
  }

  class Reconciler {
    const c: Setting
    var w: World
    ghost var ws: seq<World>
    ghost var es: seq<Event>

    ghost predicate Valid()
      reads this
    {
      Sane(c) && Run(c, ws, es) && w == ws[|ws| - 1] && UniqueNames(w.defs)
    }

    constructor (c: Setting, w: World)
      requires Sane(c) && UniqueNames(w.defs) && w.clock > 0 && w.lastEvent == 0 && w.lastHandled == 0 && w.pc.Idle?
      ensures Valid() && this.c == c && this.w == w
    {
      this.c, this.w := c, w;
      ws, es := [w], [];
    }

    method Do(e: Event)
      requires Valid() && Enabled(c, w, e)
      modifies this
      ensures Valid() && w == Apply(c, old(w), e) && old(ws) <= ws && old(es) <= es
    {
      w := Apply(c, w, e);
      ws, es := ws + [w], es + [e];
    }

    /** The watch, users and time act; then the step is taken or the pass ends. */
    method Await(luck: Luck) returns (alive: bool)
      requires Valid()
      modifies this
      ensures Valid() && old(ws) <= ws && old(es) <= es && w.lastHandled == old(w.lastHandled)
      ensures alive == !luck.fails && w.pc == if alive then old(w.pc) else Idle
      ensures Calm(luck) ==> w == old(w)
    {
      for i := 0 to |luck.others|
        invariant Valid() && old(ws) <= ws && old(es) <= es && w.lastHandled == old(w.lastHandled) && w.pc == old(w.pc)
        invariant luck.others == [] ==> w == old(w)
      {
        var e := luck.others[i];
        if (e.Notify? || e.Change? || e.Overwrite? || e.Tick?) && Enabled(c, w, e) {
          Do(e);
        }
      }
      alive := !luck.fails;
      if luck.fails {
        Do(Return);
      }
    }

    /** debouncedRestart. */
    method DebouncedRestart(luck: nat -> Luck)
      requires Valid() && w.pc.Idle?
      modifies this
      ensures Valid() && old(ws) <= ws && old(es) <= es && w.pc.Idle?
      ensures !c.othersPatch ==> UpToDate(c, w)
      // Undisturbed, a ripe event is answered with the hash of the definitions, and nothing else is.
      ensures AllCalm(luck) ==>
                w == if Ripe(c, old(w)) && old(w.workload).Some?
                     then old(w).(lastHandled := old(w.lastEvent), workload := Some(c.hash(old(w.defs)))) else old(w)
    {
      Pass(luck);
      if !c.othersPatch {
        NoUpdateLost(c, ws, es, |ws| - 1);
      }
    }

    method Pass(luck: nat -> Luck)
      requires Valid() && w.pc.Idle?
      modifies this
      ensures Valid() && old(ws) <= ws && old(es) <= es && w.pc.Idle?
      ensures AllCalm(luck) ==>
                w == if Ripe(c, old(w)) && old(w.workload).Some?
                     then old(w).(lastHandled := old(w.lastEvent), workload := Some(c.hash(old(w.defs)))) else old(w)
    {
      var alive := Await(luck(0));
      if !alive { return; }
      var le, lh := w.lastEvent, w.lastHandled;
      Do(Snap);
      alive := Await(luck(1));
      if !alive { return; }
      var debounce := if c.debounce <= 0 then DEFAULT_DEBOUNCE else c.debounce;
      var due := le != 0 && w.clock - le >= debounce && lh < le;
      Do(Checked);
      if due {
        RollOut(luck);
      }
    }

    method RollOut(luck: nat -> Luck)
      requires Valid() && w.pc.Compute?
      modifies this
      ensures Valid() && old(ws) <= ws && old(es) <= es && w.pc.Idle?
      ensures AllCalm(luck) ==>
                w == if old(w.workload).Some?
                     then old(w).(lastHandled := old(w.pc.le), workload := Some(c.hash(old(w.defs))), pc := Idle)
                     else old(w).(pc := Idle)
    {
      var alive := Await(luck(2));
      if !alive { return; }
      var newHash := ComputeConfigHash(w.defs);
      Do(Computed);
      alive := Await(luck(3));
      if alive {
        RollOutHash(newHash, luck);
      }
    }

    method RollOutHash(newHash: string, luck: nat -> Luck)
      requires Valid() && w.pc.Read? && w.pc.hash == newHash
      modifies this
      ensures Valid() && old(ws) <= ws && old(es) <= es && w.pc.Idle?
      ensures AllCalm(luck) ==>
                w == if old(w.workload).Some?
                     then old(w).(lastHandled := old(w.pc.le), workload := Some(newHash), pc := Idle)
                         else old(w).(pc := Idle)
    {
      var found := w.workload;
      Do(WorkloadRead);
      if found.None? { return; }
      if !(found.value == newHash && newHash != "") {
        var patched := PatchWorkload(luck(4));
        if !patched { return; }
      }
      var alive := Await(luck(5));
      if alive {
        Do(Handled);
      }
    }

    method PatchWorkload(luck: Luck) returns (patched: bool)
      requires Valid() && w.pc.Patch?
      modifies this
      ensures Valid() && old(ws) <= ws && old(es) <= es
      ensures if patched then w.pc == Handle(old(w.pc.le)) && w.workload == Some(old(w.pc.hash)) else w.pc.Idle?
      ensures Calm(luck) && old(w.workload).Some? ==>
                patched && w == old(w).(workload := Some(old(w.pc.hash)), pc := Handle(old(w.pc.le)))
    {
      patched := Await(luck);
      if !patched { return; }
      patched := w.workload.Some?;
      Do(if patched then Patched else Return);
    }

    method ComputeConfigHash(defs: set<Def>) returns (hash: string)
      requires Sane(c) && UniqueNames(defs)
      ensures hash == c.hash(defs)
    {
      var list := List(defs);
      var views := ComputeViews(list);
      hash := c.digest(views);
    }
  }
}
