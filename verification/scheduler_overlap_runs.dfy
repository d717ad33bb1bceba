/**
 Reachable runs in which more occurrences of a schedule are open than one would wish: callers of RunNow
 whose claims come in the reverse order of their clock readings, and an edit that writes back what it loaded
 before another edit. Neither reopens anything.
 */
module SchedulerOverlapRuns {
  import opened Basics
  import opened Slots
  import opened SchedulerStore
  import opened SchedulerWorld
  import opened SchedulerOverlap
  import opened SchedulerCrowding
  import opened SchedulerAhead
  import J = Journal
  import Inbound

  function Once(at: int): Spec { Spec(At, Instant(at), 0, NoCron, NoZone) }

  function Row(at: int, next: Option<int>): Schedule { Schedule(Once(at), true, next, None, None, 0) }

  function Open(slot: int, at: int): Occurrence { Occurrence(1, slot, Dispatching, None, None, None, at) }

  ghost function Calm(clock: int, t: Tables): World {
    World(clock, 30, t, J.EMPTY, map[], map[], map[], {}, [], map[])
  }

  lemma {:induction false} Extended(w: World, steps: seq<Step>, mid: World, s: Step)
    requires IsRun(w, steps, mid) && Enabled(mid, s)
    ensures IsRun(w, steps + [s], Next(mid, s))
    decreases |steps|
  {
    if steps != [] {
      Extended(Next(w, steps[0]), steps[1..], mid, s);
      assert (steps + [s])[1..] == steps[1..] + [s];
    }
  }

  /// Any number at once

  // After `n` calls: the one that read `top` has claimed first, then the one that read the instant before.
  ghost function ByHand(top: nat, n: nat): World
    requires n <= top
    decreases n
  {
    if n == 0 then Calm(top, Tables(map[1 := Row(top + 1, Some(top + 1))], map[])) else
    HandAdded(ByHand(top, n - 1), n - 1)
  }

  ghost predicate HandRows(w: World, n: nat) {
    && w.tables.schedules == map[1 := Row(w.clock + 1, Some(w.clock + 1))] && |w.order| == n
    && (forall o :: o in w.tables.occs <==> 20 <= o < 20 + n)
    && (forall o :: o in w.tables.occs ==> w.tables.occs[o] == Open(w.clock + 20 - o, w.clock + 20 - o))
    && (forall o :: o in w.order <==> 20 <= o < 20 + n)
    && (forall a :: a in w.agents ==> a <= 5 + n)
  }

  function HandAdded(w: World, n: nat): World {
    w.(tables := w.tables.(occs := w.tables.occs[20 + n := Open(w.clock - n, w.clock - n)]),
       agents := w.agents[6 + n := Agent([], Some(Dispatch(20 + n)))],
       order := w.order[20 + n := n], manual := w.manual + {20 + n})
  }

  lemma OneHandMore(w: World, n: nat)
    requires HandRows(w, n)
    ensures HandRows(HandAdded(w, n), n + 1)
  {
    var d := HandAdded(w, n);
    assert d.clock == w.clock && d.tables.schedules == w.tables.schedules && |d.order| == n + 1;
  }

  lemma {:induction false} ByHandRows(top: nat, n: nat)
    requires n <= top
    ensures HandRows(ByHand(top, n), n) && ByHand(top, n).clock == top
    decreases n
  {
    if n > 0 {
      ByHandRows(top, n - 1);
      OneHandMore(ByHand(top, n - 1), n - 1);
    }
  }

  lemma HandClaims(w: World, n: nat)
    requires HandRows(w, n)
    ensures ClaimManual(w.tables, 1, w.clock - n, 20 + n)
         == (w.tables.(occs := w.tables.occs[20 + n := Open(w.clock - n, w.clock - n)]), Claimed)
  {
    assert !SlotTaken(w.tables.occs, 1, w.clock - n) && !HasPreviousActive(w.tables.occs, 1, w.clock - n);
  }

  function HandStep(clock: int, n: nat): Step { RunNow(6 + n, 1, clock - n, 20 + n) }

  lemma HandEnabled(w: World, n: nat)
    requires HandRows(w, n)
    ensures AgentOf(w, 6 + n) == Agent([], None) && Enabled(w, HandStep(w.clock, n))
  {
  }

  lemma HandNext(w: World, s: Step, t: Tables)
    requires s.RunNow? && Enabled(w, s) && ClaimManual(w.tables, s.id, s.now, s.occ) == (t, Claimed) && s.occ in t.occs
    ensures Next(w, s) == Entered(w.(manual := w.manual + {s.occ}), s.agent, t, Claimed, s.occ)
  {
  }

  lemma NextHand(w: World, n: nat)
    requires HandRows(w, n)
    ensures Enabled(w, HandStep(w.clock, n)) && Next(w, HandStep(w.clock, n)) == HandAdded(w, n)
  {
    HandEnabled(w, n);
    HandClaims(w, n);
    var t, o := w.tables.(occs := w.tables.occs[20 + n := Open(w.clock - n, w.clock - n)]), 20 + n;
    HandNext(w, HandStep(w.clock, n), t);
    HandEntered(w.(manual := w.manual + {o}), 6 + n, t, o);
  }

  lemma HandEntered(w: World, a: Id, t: Tables, o: Id)
    requires AgentOf(w, a) == Agent([], None) && o in t.occs
    ensures Entered(w, a, t, Claimed, o)
         == w.(tables := t, agents := w.agents[a := Agent([], Some(Dispatch(o)))], order := w.order[o := |w.order|])
  {
  }

  lemma NextByHand(top: nat, n: nat)
    requires n < top
    ensures Enabled(ByHand(top, n), HandStep(top, n)) && Next(ByHand(top, n), HandStep(top, n)) == ByHand(top, n + 1)
  {
    ByHandRows(top, n);
    NextHand(ByHand(top, n), n);
  }

  lemma {:induction false} Hands(top: nat, n: nat) returns (steps: seq<Step>)
    requires n <= top
    ensures IsRun(Calm(top, Tables(map[], map[])), steps, ByHand(top, n))
    decreases n
  {
    if n == 0 {
      steps := Created1(top, top + 1);
    } else {
      steps := Hands(top, n - 1);
      NextByHand(top, n - 1);
      Extended(Calm(top, Tables(map[], map[])), steps, ByHand(top, n - 1), HandStep(top, n - 1));
      steps := steps + [HandStep(top, n - 1)];
    }
  }

  lemma {:induction false} Counted(n: nat, s: set<Id>)
    requires forall o :: o in s <==> 20 <= o < 20 + n
    ensures |s| == n
  {
    if n == 0 {
      assert s == {};
    } else {
      Counted(n - 1, s - {19 + n});
    }
  }

  lemma Created1(clock: int, at: int) returns (steps: seq<Step>)
    requires clock <= at
    ensures IsRun(Calm(clock, Tables(map[], map[])), steps, Calm(clock, Tables(map[1 := Row(at, Some(at))], map[])))
    ensures |steps| == 1 && Solo(steps[0])
  {
    var w, s := Calm(clock, Tables(map[], map[])), Step.CreateSchedule(1, Once(at), true, clock);
    assert ComputeNextRun(Once(at), clock) == Ok(Some(at));
    var d := Next(w, s);
    assert d.tables.schedules == map[1 := Row(at, Some(at))];
    steps := [s];
    assert steps[1..] == [] && IsRun(d, [], d);
  }

  // Callers of RunNow whose claims come in the reverse order of their readings are all dispatched: any number
  // of occurrences can be open at once.
  lemma ManyByHand(n: nat) returns (w: World, steps: seq<Step>, last: World)
    ensures Initial(w) && IsRun(w, steps, last) && |OpenOf(last, 1)| == n
  {
    w, last := Calm(n, Tables(map[], map[])), ByHand(n, n);
    steps := Hands(n, n);
    ByHandRows(n, n);
    Counted(n, OpenOf(last, 1));
  }

  /// An edit that writes back

  const OLD := Row(60, Some(60))

  ghost function Renamed(n: nat): World
    requires n <= 8
  {
    var both := map[9 := Loaded(1, OLD, 50), 10 := Loaded(1, OLD, 50)];
    var one := map[9 := Loaded(1, OLD, 50)];
    var idle := map[0 := Agent([], None)];
    if n == 0 then Calm(50, Tables(map[1 := OLD], map[]))
    else if n == 1 then Renamed(0).(edits := one)
    else if n == 2 then Renamed(0).(edits := both)
    else if n == 3 then Calm(50, Tables(map[1 := Row(100, Some(100))], map[])).(edits := one)
    else if n == 4 then Renamed(3).(clock := 100)
    else if n == 5 then
      Calm(100, Tables(map[1 := Row(100, None)], map[20 := Open(100, 100)]))
        .(edits := one, agents := map[0 := Agent([], Some(Dispatch(20)))], order := map[20 := 0])
    else if n == 6 then Renamed(5).(agents := idle)
    else if n == 7 then Renamed(6).(tables := Tables(map[1 := OLD], map[20 := Open(100, 100)]), edits := map[])
    else
      Renamed(7).(tables := Tables(map[1 := Row(60, None)], map[20 := Open(100, 100), 21 := Open(60, 100)]),
                  agents := map[0 := Agent([], Some(Dispatch(21)))], order := map[20 := 0, 21 := 1])
  }

  function RenameStep(n: nat): Step
    requires n < 8
  {
    if n == 0 then LoadRow(9, 1)
    else if n == 1 then LoadRow(10, 1)
    else if n == 2 then WriteRow(10, UpdateEdit(Some(Once(100))), 50)
    else if n == 3 then Tick(100)
    else if n == 4 then Step.ClaimDue(0, 1, 100, 20)
    else if n == 5 then Abandon(0)
    else if n == 6 then WriteRow(9, UpdateEdit(None), 100)
    else Step.ClaimDue(0, 1, 100, 21)
  }

  ghost predicate Goes(n: nat)
    requires n < 8
  {
    Enabled(Renamed(n), RenameStep(n)) && Next(Renamed(n), RenameStep(n)) == Renamed(n + 1)
  }

  lemma EditsLoad()
    ensures Goes(0) && Goes(1) && Goes(3) && Goes(5)
  {
  }

  lemma SpecChanges()
    ensures Goes(2)
  {
    assert ComputeNextRun(Once(100), 50) == Ok(Some(100));
    assert Renamed(2).edits - {10} == Renamed(3).edits;
  }

  lemma NewSlotClaimed()
    ensures Goes(4)
  {
    assert ComputeNextRun(Once(100), 101) == Ok(None);
    var (t, claim) := SchedulerStore.ClaimDue(Renamed(4).tables, 1, 100, 20);
    assert t.occs == Renamed(5).tables.occs && claim == Claimed;
  }

  lemma NameWritten()
    ensures Goes(6)
  {
    assert NextWritten(OLD, UpdateEdit(None), 100) == Ok(Some(60));
    assert Renamed(6).edits - {9} == map[];
    assert Next(Renamed(6), RenameStep(6)).tables.schedules == map[1 := OLD];
  }

  lemma DueNext(w: World, s: Step, t: Tables)
    requires s.ClaimDue? && Enabled(w, s) && SchedulerStore.ClaimDue(w.tables, s.id, s.now, s.occ) == (t, Claimed)
    ensures Next(w, s) == Entered(w, s.agent, t, Claimed, s.occ)
  {
  }

  lemma EarlierSlotFree(t: Tables)
    requires t == Tables(map[1 := OLD], map[20 := Open(100, 100)])
    ensures SchedulerStore.ClaimDue(t, 1, 100, 21)
         == (Tables(map[1 := Row(60, None)], map[20 := Open(100, 100), 21 := Open(60, 100)]), Claimed)
  {
    assert ComputeNextRun(Once(60), 101) == Ok(None);
    var d := SchedulerStore.ClaimDue(t, 1, 100, 21).0;
    assert d.schedules == map[1 := Row(60, None)];
    assert d.occs == map[20 := Open(100, 100), 21 := Open(60, 100)];
  }

  // A schedule due at 60 while only the later slot 100 is open: the claim opens a second occurrence.
  lemma EarlierSlotClaimed(w: World)
    requires w.tables == Tables(map[1 := OLD], map[20 := Open(100, 100)]) && w.clock == 100
    requires w.agents == map[0 := Agent([], None)] && w.order == map[20 := 0]
    ensures var s := Step.ClaimDue(0, 1, 100, 21);
      && Enabled(w, s)
      && Next(w, s) == w.(tables := Tables(map[1 := Row(60, None)], map[20 := Open(100, 100), 21 := Open(60, 100)]),
                          agents := map[0 := Agent([], Some(Dispatch(21)))], order := map[20 := 0, 21 := 1])
  {
    EarlierSlotFree(w.tables);
    var t := Tables(map[1 := Row(60, None)], map[20 := Open(100, 100), 21 := Open(60, 100)]);
    DueNext(w, Step.ClaimDue(0, 1, 100, 21), t);
    assert |w.order| == 1;
  }

  lemma OldSlotClaimed()
    ensures Goes(7)
  {
    EarlierSlotClaimed(Renamed(7));
  }

  lemma {:induction false} Renaming(n: nat) returns (steps: seq<Step>)
    requires n <= 8
    ensures IsRun(Calm(50, Tables(map[], map[])), steps, Renamed(n))
    ensures forall i :: 0 <= i < |steps| ==> Solo(steps[i])
  {
    if n == 0 {
      steps := Created1(50, 60);
    } else {
      steps := Renaming(n - 1);
      AllGo();
      assert Goes(n - 1);
      Extended(Calm(50, Tables(map[], map[])), steps, Renamed(n - 1), RenameStep(n - 1));
      steps := steps + [RenameStep(n - 1)];
    }
  }

  lemma AllGo()
    ensures forall n: nat :: n < 8 ==> Goes(n)
  {
    EditsLoad();
    SpecChanges();
    NewSlotClaimed();
    NameWritten();
    OldSlotClaimed();
    forall n: nat | n < 8 ensures Goes(n) {
      assert n == 0 || n == 1 || n == 2 || n == 3 || n == 4 || n == 5 || n == 6 || n == 7;
    }
  }

  // An update that only renames loads a next run of 60; another moves the schedule to 100, which is claimed;
  // then the first writes 60 back, and the loop claims that too. Nobody called RunNow.
  lemma StaleWriteOverlaps() returns (w: World, steps: seq<Step>, last: World)
    ensures Initial(w) && IsRun(w, steps, last) && OpenTogether(last, 20, 21)
    ensures forall i :: 0 <= i < |steps| ==> Solo(steps[i])
  {
    w, last := Calm(50, Tables(map[], map[])), Renamed(8);
    steps := Renaming(8);
  }
}
