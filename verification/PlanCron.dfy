/** PlanReconciler: backups at cron slots, from passes that each see only the clock. */
module PlanCron {

  /** startingDeadline, in seconds. */
  const DEADLINE := 300

  /** A cron schedule, by its Next function. */
  datatype Schedule = Schedule(next: int -> int)

  predicate IsSlot(s: Schedule, t: int) {
    s.next(t - 1) == t
  }

  /** Next is the least slot strictly later. */
  ghost predicate Good(s: Schedule) {
    forall t :: s.next(t) > t && IsSlot(s, s.next(t)) && forall u | t < u < s.next(t) :: !IsSlot(s, u)
  }

  /** Two slots with none in between. */
  ghost predicate Consecutive(s: Schedule, t: int, u: int) {
    IsSlot(s, t) && s.next(t) == u
  }

  ghost predicate Spaced(s: Schedule, gap: int) {
    forall t, u | Consecutive(s, t, u) :: u - t >= gap
  }

  // ---------------------------------------------------------------- one pass

  function Slot(s: Schedule, now: int): int {
    s.next(now - DEADLINE)
  }

  predicate Fires(s: Schedule, now: int) {
    now >= Slot(s, now)
  }

  function Wake(s: Schedule, now: int): int {
    if Fires(s, now) then now + DEADLINE else Slot(s, now)
  }

  /** The number in a BackupJob's name. */
  function JobName(slot: int): int {
    slot / 60
  }

  /** Passes in order, each at most `late` after the previous one asked to be woken; any number
      may come earlier. */
  ghost predicate Run(s: Schedule, late: nat, ps: seq<int>) {
    ps != [] && forall i | 0 < i < |ps| :: ps[i - 1] <= ps[i] <= Wake(s, ps[i - 1]) + late
  }

  ghost predicate Creates(s: Schedule, ps: seq<int>, t: int) {
    exists i | 0 <= i < |ps| :: Fires(s, ps[i]) && Slot(s, ps[i]) == t
  }

  /** The run saw the slot come, and went on for the starting deadline. */
  ghost predicate Covers(ps: seq<int>, t: int) {
    ps != [] && ps[0] < t && t + DEADLINE <= ps[|ps| - 1]
  }

  ghost predicate MeetsEverySlot(s: Schedule, ps: seq<int>) {
    forall t | IsSlot(s, t) && Covers(ps, t) :: Creates(s, ps, t)
  }

  // ---------------------------------------------------------------- slots

  /** The slot before t, when the one at or after some earlier moment is not t itself. */
  lemma SlotBefore(s: Schedule, from: int, t: int)
    requires Good(s) && IsSlot(s, t) && from < t
    ensures s.next(from) <= t
  {
  }

  lemma {:induction false} SlotsApart(s: Schedule, gap: int, a: int, b: int)
    requires Good(s) && Spaced(s, gap) && IsSlot(s, a) && IsSlot(s, b) && a < b
    ensures b - a >= gap
  {
    SlotBefore(s, a, b);
    assert Consecutive(s, a, s.next(a));
  }

  /** A job is created no earlier than its slot, and never once the deadline has passed. */
  lemma JobsAreTimely(s: Schedule, now: int)
    requires Good(s)
    ensures Fires(s, now) <==> exists t :: IsSlot(s, t) && t <= now < t + 300
    ensures Fires(s, now) ==> Slot(s, now) <= now < Slot(s, now) + 300
  {
    if t :| IsSlot(s, t) && t <= now < t + 300 {
      SlotBefore(s, now - DEADLINE, t);
    }
  }

  // ---------------------------------------------------------------- no slot is missed

  /** Before a slot there is a last pass, and the next one comes at or after it. */
  lemma {:induction false} LastBefore(ps: seq<int>, t: int, n: nat) returns (i: nat)
    requires 0 < n < |ps| && ps[0] < t <= ps[n]
    ensures i < n && ps[i] < t <= ps[i + 1]
    decreases n
  {
    if t <= ps[n - 1] {
      i := LastBefore(ps, t, n - 1);
    } else {
      i := n - 1;
    }
  }

  lemma PassAfterFires(s: Schedule, late: nat, q: int, p: int, t: int)
    requires Good(s) && late < DEADLINE && Spaced(s, DEADLINE + late)
    requires IsSlot(s, t) && q < t <= p <= Wake(s, q) + late
    ensures Fires(s, p) && Slot(s, p) == t
  {
    SlotBefore(s, q - DEADLINE, t);
    var seen := Slot(s, q);
    if seen < t {
      SlotsApart(s, DEADLINE + late, seen, t);
    }
    assert p - DEADLINE < t;
    SlotBefore(s, p - DEADLINE, t);
    if Slot(s, p) < t {
      SlotsApart(s, DEADLINE + late, Slot(s, p), t);
    }
  }

  /** Every slot after the first pass is met, whatever else reconciles in between. */
  lemma SlotsAreMet(s: Schedule, late: nat, ps: seq<int>)
    requires Good(s) && late < DEADLINE && Spaced(s, DEADLINE + late) && Run(s, late, ps)
    ensures MeetsEverySlot(s, ps)
  {
    forall t | IsSlot(s, t) && Covers(ps, t) ensures Creates(s, ps, t) {
      var i := LastBefore(ps, t, |ps| - 1);
      PassAfterFires(s, late, ps[i], ps[i + 1], t);
    }
  }

  // ---------------------------------------------------------------- and the bound is tight

  /** Slots too close: a late pass serves the first and wakes past the deadline of the second. */
  lemma CloseSlotsMissOne(s: Schedule, late: nat, a: int, t: int) returns (ps: seq<int>)
    requires Good(s) && Consecutive(s, a, t) && t - a < DEADLINE + late
    ensures Run(s, late, ps) && !MeetsEverySlot(s, ps)
  {
    var q := a + DEADLINE - 1;
    ps := [a, q, q + DEADLINE + late];
    SlotBefore(s, a - DEADLINE, a);
    assert Slot(s, q) == a && Wake(s, q) == q + DEADLINE;
    assert Run(s, late, ps);
    assert IsSlot(s, t) && Covers(ps, t);
    assert Slot(s, a) <= a < t && Slot(s, q) == a < t < Slot(s, ps[2]);
    assert !Creates(s, ps, t);
  }

  /** Passes as late as the deadline itself: one is simply slept through. */
  lemma LatenessMissesOne(s: Schedule, late: nat, a: int, t: int) returns (ps: seq<int>)
    requires Good(s) && Consecutive(s, a, t) && late >= DEADLINE && t - a >= DEADLINE + late
    ensures Run(s, late, ps) && !MeetsEverySlot(s, ps)
  {
    ps := [t - 1, t + late];
    SlotBefore(s, t - 1 - DEADLINE, t);
    assert Slot(s, t - 1) == t && Wake(s, t - 1) == t;
    assert Run(s, late, ps);
    assert Slot(s, t + late) > t;
    assert IsSlot(s, t) && Covers(ps, t) && !Creates(s, ps, t);
  }

  /** No slot is ever missed exactly when passes are less than the deadline late and slots are at
      least the deadline plus that lateness apart. */
  lemma NoSlotMissedExactly(s: Schedule, late: nat)
    requires Good(s)
    ensures (forall ps: seq<int> | Run(s, late, ps) :: MeetsEverySlot(s, ps))
        <==> late < DEADLINE && Spaced(s, DEADLINE + late)
  {
    if late < DEADLINE && Spaced(s, DEADLINE + late) {
      forall ps: seq<int> | Run(s, late, ps) ensures MeetsEverySlot(s, ps) {
        SlotsAreMet(s, late, ps);
      }
    } else {
      var a := s.next(0);
      var t := s.next(a);
      if !Spaced(s, DEADLINE + late) {
        a, t :| Consecutive(s, a, t) && t - a < DEADLINE + late;
      }
      assert Consecutive(s, a, t);
      var ps;
      if t - a < DEADLINE + late {
        ps := CloseSlotsMissOne(s, late, a, t);
      } else {
        ps := LatenessMissesOne(s, late, a, t);
      }
    }
  }

  // ---------------------------------------------------------------- no slot is doubled

  ghost function JobsOf(s: Schedule, ps: seq<int>): set<int> {
    set i | 0 <= i < |ps| && Fires(s, ps[i]) :: JobName(Slot(s, ps[i]))
  }

  /** Two slots never share a job name. */
  lemma NamesDiffer(s: Schedule, late: nat, a: int, b: int)
    requires Good(s) && Spaced(s, DEADLINE + late) && IsSlot(s, a) && IsSlot(s, b) && a < b
    ensures JobName(a) < JobName(b)
  {
    SlotsApart(s, DEADLINE + late, a, b);
  }

  /** One job for each slot, and no job that is not a slot's. */
  lemma OneJobPerSlot(s: Schedule, late: nat, ps: seq<int>)
    requires Good(s) && late < DEADLINE && Spaced(s, DEADLINE + late) && Run(s, late, ps)
    ensures forall t | IsSlot(s, t) && Covers(ps, t) :: JobName(t) in JobsOf(s, ps)
    ensures forall name <- JobsOf(s, ps) :: exists t :: IsSlot(s, t) && JobName(t) == name && Creates(s, ps, t)
    ensures forall t, u | IsSlot(s, t) && IsSlot(s, u) && JobName(t) == JobName(u) :: t == u
  {
    SlotsAreMet(s, late, ps);
    forall t, u | IsSlot(s, t) && IsSlot(s, u) && JobName(t) == JobName(u) ensures t == u {
      if t < u {
        NamesDiffer(s, late, t, u);
      } else if u < t {
        NamesDiffer(s, late, u, t);
      }
    }
  }

  // ---------------------------------------------------------------- the reconciler

  class Plan {
    const s: Schedule
    const late: nat
    var jobs: set<int>
    var wake: int
    ghost var passes: seq<int>

    ghost predicate Valid()
      reads this
    {
      && Good(s) && jobs == JobsOf(s, passes)
      && (passes != [] ==> Run(s, late, passes) && wake == Wake(s, passes[|passes| - 1]))
    }

    constructor (s: Schedule, late: nat)
      requires Good(s)
      ensures Valid() && this.s == s && this.late == late && passes == [] && jobs == {}
    {
      this.s, this.late := s, late;
      jobs, passes, wake := {}, [], 0;
    }

    /** One pass: create the job of the slot that is due, by name, and say when to come back. */
    method Reconcile(now: int)
      requires Valid() && (passes != [] ==> passes[|passes| - 1] <= now <= wake + late)
      modifies this
      ensures Valid() && passes == old(passes) + [now]
      ensures JobsMeetSlots(s, late, passes, jobs)
    {
      var tNext := s.next(now - DEADLINE);
      passes := passes + [now];
      if now < tNext {
        wake := tNext;
      } else {
        jobs := jobs + {JobName(tNext)};
        wake := now + DEADLINE;
      }
      JobsGrow(s, old(passes), now);
      RunGrows(s, late, old(passes), now);
      JobsMeet(s, late, passes);
    }
  }

  /** Every slot the passes covered has its job, if the bound is kept. */
  ghost predicate JobsMeetSlots(s: Schedule, late: nat, ps: seq<int>, jobs: set<int>) {
    late < DEADLINE && Spaced(s, DEADLINE + late) ==> forall t | IsSlot(s, t) && Covers(ps, t) :: JobName(t) in jobs
  }

  lemma JobsMeet(s: Schedule, late: nat, ps: seq<int>)
    requires Good(s) && Run(s, late, ps)
    ensures JobsMeetSlots(s, late, ps, JobsOf(s, ps))
  {
    if late < DEADLINE && Spaced(s, DEADLINE + late) {
      OneJobPerSlot(s, late, ps);
    }
  }

  lemma RunGrows(s: Schedule, late: nat, ps: seq<int>, now: int)
    requires ps != [] ==> Run(s, late, ps) && ps[|ps| - 1] <= now <= Wake(s, ps[|ps| - 1]) + late
    ensures Run(s, late, ps + [now])
  {
  }

  lemma JobsGrow(s: Schedule, ps: seq<int>, now: int)
    ensures JobsOf(s, ps + [now]) == JobsOf(s, ps) + if Fires(s, now) then {JobName(Slot(s, now))} else {}
  {
    var all := ps + [now];
    forall i | 0 <= i < |ps| ensures all[i] == ps[i] { }
    assert all[|ps|] == now;
  }
}
