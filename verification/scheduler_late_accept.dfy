/**
 A run on which the overlap shape fails: RunNow's caller accepts its occurrence after the scheduler loop
 has already recovered it, seen its run complete and claimed the next slot.
 */
module SchedulerLateAccept {
  import opened Basics
  import opened Slots
  import opened SchedulerStore
  import opened SchedulerWorld
  import opened SchedulerOverlap
  import J = Journal
  import Inbound

  const SPEC := Spec(At, Instant(100), 0, NoCron, NoZone)
  const PLAN := Inbound.Plan(3, J.ScheduleLocal, J.SlotThread(10), Some(8), 4, true, true, 9, 6, [11, 12, 13, 14, 15])
  const ENDED := J.Event(16, 3, 9, None, J.RunCompleted(0, 0))

  const CLAIMED := Occurrence(1, 10, Dispatching, None, None, None, 10)
  const ACCEPTED := CLAIMED.(runId := Some(9), status := Active, startedAt := Some(10))
  const COMPLETED := ACCEPTED.(status := Completed, finishedAt := Some(10))
  const SECOND := Occurrence(1, 100, Dispatching, None, None, None, 100)

  function Row(next: Option<int>): Schedule { Schedule(SPEC, true, next, None, None, 0) }
  function Done(next: Option<int>): Schedule { Schedule(SPEC, true, next, Some(10), Some(Completed), 0) }

  // The worlds of the run, one after each step.
  ghost function World0(j: J.Db): World {
    World(10, 30, Tables(map[], map[]), j, map[], map[], map[], {}, [], map[])
  }

  ghost function World1(j: J.Db): World {
    World0(j).(tables := Tables(map[1 := Row(Some(100))], map[]))
  }

  ghost function World2(j: J.Db): World {
    World(10, 30, Tables(map[1 := Row(Some(100))], map[8 := CLAIMED]), j,
          map[5 := Agent([], Some(Dispatch(8)))], map[], map[8 := 0], {8}, [], map[])
  }

  ghost function World3(j: J.Db): World {
    World2(j).(agents := map[5 := LATE], dispatched := [8])
  }

  const LATE := Agent([], Some(Accept(8, 9, None)))

  ghost function World5(j: J.Db): World {
    World3(j).(agents := map[5 := LATE, 0 := Agent([Listed(8, CLAIMED)], None)])
  }

  ghost function World6(j: J.Db): World {
    World3(j).(agents := map[5 := LATE, 0 := Agent([], Some(Accept(8, 9, Some(J.Completed))))])
  }

  ghost function World7(j: J.Db): World {
    World3(j).(tables := Tables(map[1 := Row(Some(100))], map[8 := ACCEPTED]),
               agents := map[5 := LATE, 0 := Agent([], Some(Sync(8, J.Completed)))])
  }

  ghost function World8(j: J.Db): World {
    World3(j).(tables := Tables(map[1 := Done(Some(100))], map[8 := COMPLETED]),
               agents := map[5 := LATE, 0 := Agent([], None)], writes := map[1 := [Completed]])
  }

  ghost function World9(j: J.Db): World {
    World8(j).(clock := 100)
  }

  ghost function World10(j: J.Db): World {
    World9(j).(tables := Tables(map[1 := Done(None)], map[8 := COMPLETED, 20 := SECOND]),
               order := map[8 := 0, 20 := 1],
               agents := map[5 := LATE, 0 := Agent([], Some(Dispatch(20)))])
  }

  lemma TheJournal() returns (j1: J.Db, j2: J.Db)
    ensures Inbound.FreshFor(J.EMPTY, PLAN)
    ensures Inbound.Receive(J.EMPTY, PLAN, false) == (j1, Inbound.Started(9))
    ensures j2 == J.Commit(j1, [ENDED])
    ensures j2.inbound == [J.Inbound(PLAN.Key(), 9, 4, 6)]
    ensures 9 in j2.runs && j2.runs[9].status == J.Completed
  {
    Inbound.BatchOutcome(J.EMPTY, PLAN);
    assert Inbound.Outcome(J.EMPTY, PLAN) == Ok(Inbound.Recorded(J.EMPTY, PLAN));
    j1 := Inbound.Recorded(J.EMPTY, PLAN);
    Inbound.BatchIds(PLAN, 16);
    assert j1.events == Inbound.Batch(PLAN);
    j2 := Ended(j1);
  }

  lemma Ended(j1: J.Db) returns (j2: J.Db)
    requires 9 in j1.runs && !J.HasEvent(j1.events, 16)
    ensures j2 == J.Commit(j1, [ENDED]) && j2.inbound == j1.inbound
    ensures 9 in j2.runs && j2.runs[9].status == J.Completed
  {
    J.AppendSingle(j1, ENDED);
    j2 := J.Commit(j1, [ENDED]);
  }

  lemma Create()
    ensures var s := Step.CreateSchedule(1, SPEC, true, 10);
      Enabled(World0(J.EMPTY), s) && Next(World0(J.EMPTY), s) == World1(J.EMPTY)
  {
    assert ComputeNextRun(SPEC, 10) == Ok(Some(100));
  }

  lemma ClaimByHand()
    ensures Enabled(World1(J.EMPTY), RunNow(5, 1, 10, 8)) && Next(World1(J.EMPTY), RunNow(5, 1, 10, 8)) == World2(J.EMPTY)
  {
    var w := World1(J.EMPTY);
    var (t, claim) := ClaimManual(w.tables, 1, 10, 8);
    assert t == Tables(map[1 := Row(Some(100))], map[8 := CLAIMED]) && claim == Claimed;
  }

  lemma Dispatched(j1: J.Db)
    requires Inbound.FreshFor(J.EMPTY, PLAN) && Inbound.Receive(J.EMPTY, PLAN, false) == (j1, Inbound.Started(9))
    ensures var s := Deliver(5, PLAN, false, false);
      Enabled(World2(J.EMPTY), s) && Next(World2(J.EMPTY), s) == World3(j1)
  {
    assert World2(J.EMPTY).agents[5 := LATE] == map[5 := LATE];
  }

  lemma RunEnds(j1: J.Db, j2: J.Db)
    requires j2 == J.Commit(j1, [ENDED])
    ensures Enabled(World3(j1), Step.Journal([ENDED])) && Next(World3(j1), Step.Journal([ENDED])) == World3(j2)
  {
  }

  lemma LoopLists(j: J.Db)
    ensures var s := ListOpen(0, [Listed(8, CLAIMED)]);
      Enabled(World3(j), s) && Next(World3(j), s) == World5(j)
  {
    assert World3(j).agents[0 := Agent([Listed(8, CLAIMED)], None)] == World5(j).agents;
  }

  lemma LoopExamines(j: J.Db)
    requires j.inbound == [J.Inbound(PLAN.Key(), 9, 4, 6)]
    requires 9 in j.runs && j.runs[9].status == J.Completed
    ensures Enabled(World5(j), Examine(0, 10)) && Next(World5(j), Examine(0, 10)) == World6(j)
  {
    assert j.inbound[|j.inbound| - 1] == J.Inbound(PLAN.Key(), 9, 4, 6);
    assert ReceiptRun(j.inbound, J.SlotThread(10), 8) == Some(9);
    var w := World5(j);
    assert AgentOf(w, 0).queue[1..] == [];
    assert Next(w, Examine(0, 10)).agents == World6(j).agents;
  }

  lemma LoopAccepts(j: J.Db)
    ensures Enabled(World6(j), TakeAccept(0, 10)) && Next(World6(j), TakeAccept(0, 10)) == World7(j)
  {
    var d := Next(World6(j), TakeAccept(0, 10));
    assert d.tables.occs == map[8 := ACCEPTED];
    assert d.agents == World7(j).agents;
  }

  lemma LoopSyncs(j: J.Db)
    ensures Enabled(World7(j), TakeSync(0, 10)) && Next(World7(j), TakeSync(0, 10)) == World8(j)
  {
    var w := World7(j);
    var t := Reach(w.tables, 8, Completed, 10);
    assert t.occs == map[8 := COMPLETED] && t.schedules == map[1 := Done(Some(100))];
    var log: seq<OccStatus> := [];
    assert log + [Completed] == [Completed];
    assert Reached(w, 8, Completed, 10).writes == map[1 := [Completed]];
    var d := Next(w, TakeSync(0, 10));
    assert d.tables == World8(j).tables;
    assert d.agents == World8(j).agents;
  }

  lemma LoopClaims(j: J.Db)
    ensures var s := Step.ClaimDue(0, 1, 100, 20);
      Enabled(World9(j), s) && Next(World9(j), s) == World10(j)
  {
    var w := World9(j);
    assert IsDue(w.tables.schedules[1], 100);
    assert ComputeNextRun(SPEC, 101) == Ok(None);
    var (t, claim) := SchedulerStore.ClaimDue(w.tables, 1, 100, 20);
    assert t.occs == map[8 := COMPLETED, 20 := SECOND] && t.schedules == map[1 := Done(None)] && claim == Claimed;
    assert Next(w, Step.ClaimDue(0, 1, 100, 20)).agents == World10(j).agents;
  }

  // The next slot is claimed, and only then does RunNow's caller accept.
  lemma LateAccept(j: J.Db)
    ensures Enabled(World10(j), TakeAccept(5, 100)) && Reopens(World10(j), TakeAccept(5, 100))
    ensures var last := Next(World10(j), TakeAccept(5, 100));
      OpenTogether(last, 8, 20) && !MayBothBeOpen(last, 8, 20)
  {
    var last := Next(World10(j), TakeAccept(5, 100));
    assert last.tables.occs[8].status == Active && last.tables.occs[20] == SECOND;
  }

  lemma Prepend(w: World, s: Step, d: World, rest: seq<Step>, last: World)
    requires Enabled(w, s) && Next(w, s) == d && IsRun(d, rest, last)
    ensures IsRun(w, [s] + rest, last)
  {
    assert ([s] + rest)[1..] == rest;
  }

  lemma SecondHalf(j: J.Db) returns (steps: seq<Step>, last: World)
    requires j.inbound == [J.Inbound(PLAN.Key(), 9, 4, 6)]
    requires 9 in j.runs && j.runs[9].status == J.Completed
    ensures IsRun(World3(j), steps, last)
    ensures OpenTogether(last, 8, 20) && !MayBothBeOpen(last, 8, 20)
  {
    LateAccept(j);
    last := Next(World10(j), TakeAccept(5, 100));
    Prepend(World10(j), TakeAccept(5, 100), last, [], last);
    steps := [TakeAccept(5, 100)] + [];
    LoopClaims(j);
    Prepend(World9(j), Step.ClaimDue(0, 1, 100, 20), World10(j), steps, last);
    steps := [Step.ClaimDue(0, 1, 100, 20)] + steps;
    Prepend(World8(j), Tick(100), World9(j), steps, last);
    steps := [Tick(100)] + steps;
    LoopSyncs(j);
    Prepend(World7(j), TakeSync(0, 10), World8(j), steps, last);
    steps := [TakeSync(0, 10)] + steps;
    LoopAccepts(j);
    Prepend(World6(j), TakeAccept(0, 10), World7(j), steps, last);
    steps := [TakeAccept(0, 10)] + steps;
    LoopExamines(j);
    Prepend(World5(j), Examine(0, 10), World6(j), steps, last);
    steps := [Examine(0, 10)] + steps;
    LoopLists(j);
    Prepend(World3(j), ListOpen(0, [Listed(8, CLAIMED)]), World5(j), steps, last);
    steps := [ListOpen(0, [Listed(8, CLAIMED)])] + steps;
  }

  lemma FirstHalf(j1: J.Db, j2: J.Db, rest: seq<Step>, last: World) returns (steps: seq<Step>)
    requires Inbound.FreshFor(J.EMPTY, PLAN) && Inbound.Receive(J.EMPTY, PLAN, false) == (j1, Inbound.Started(9))
    requires j2 == J.Commit(j1, [ENDED]) && IsRun(World3(j2), rest, last)
    ensures IsRun(World0(J.EMPTY), steps, last)
  {
    RunEnds(j1, j2);
    Prepend(World3(j1), Step.Journal([ENDED]), World3(j2), rest, last);
    steps := [Step.Journal([ENDED])] + rest;
    Dispatched(j1);
    Prepend(World2(J.EMPTY), Deliver(5, PLAN, false, false), World3(j1), steps, last);
    steps := [Deliver(5, PLAN, false, false)] + steps;
    ClaimByHand();
    Prepend(World1(J.EMPTY), RunNow(5, 1, 10, 8), World2(J.EMPTY), steps, last);
    steps := [RunNow(5, 1, 10, 8)] + steps;
    Create();
    Prepend(World0(J.EMPTY), Step.CreateSchedule(1, SPEC, true, 10), World1(J.EMPTY), steps, last);
    steps := [Step.CreateSchedule(1, SPEC, true, 10)] + steps;
  }

  // So without the condition on reopening, two occurrences of one schedule can be open with the later
  // claimed in the later slot.
  lemma LateAcceptBreaksShape()
    ensures exists w, steps, last ::
      Initial(w) && IsRun(w, steps, last) && OpenTogether(last, 8, 20) && !MayBothBeOpen(last, 8, 20)
  {
    var j1, j2 := TheJournal();
    var rest, last := SecondHalf(j2);
    var steps := FirstHalf(j1, j2, rest, last);
    assert Initial(World0(J.EMPTY));
  }
}
