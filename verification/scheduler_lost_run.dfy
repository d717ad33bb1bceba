/**
 A reachable run that loses a committed dispatch: the caller of RunNow read the clock long before its claim,
 so a pass that begins six nanoseconds after the claim takes the occurrence for abandoned while its call is
 under way. Then the caller crashes.
 */
module SchedulerLostRun {
  import opened Basics
  import opened Slots
  import opened SchedulerStore
  import opened SchedulerWorld
  import opened SchedulerExactlyOnce
  import opened SchedulerLost
  import opened SchedulerLateAccept
  import J = Journal
  import Inbound

  const ABANDONED := CLAIMED.(status := Failed, finishedAt := Some(41))

  function Gone(next: Option<int>): Schedule { Schedule(SPEC, true, next, Some(10), Some(Failed), 1) }

  // The worlds of the run, one after each step.
  ghost function Before(): World {
    World(35, 30, Tables(map[], map[]), J.EMPTY, map[], map[], map[], {}, [], map[])
  }

  ghost function Created1(): World {
    Before().(tables := Tables(map[1 := Row(Some(100))], map[]))
  }

  ghost function Claimed1(clock: int): World {
    World(clock, 30, Tables(map[1 := Row(Some(100))], map[8 := CLAIMED]), J.EMPTY,
          map[5 := Agent([], Some(Dispatch(8)))], map[], map[8 := 0], {8}, [], map[])
  }

  ghost function WithLoop(loop: Agent): World {
    Claimed1(41).(agents := map[5 := Agent([], Some(Dispatch(8))), 0 := loop])
  }

  ghost function Called1(j: J.Db): World {
    Claimed1(41).(journal := j, dispatched := [8], agents := map[5 := LATE, 0 := Agent([], Some(Fail(8)))])
  }

  ghost function Failed1(j: J.Db): World {
    Called1(j).(tables := Tables(map[1 := Gone(Some(100))], map[8 := ABANDONED]),
                agents := map[5 := LATE, 0 := Agent([], None)], writes := map[1 := [Failed]])
  }

  lemma CreateGoes()
    ensures var s := Step.CreateSchedule(1, SPEC, true, 35);
      Enabled(Before(), s) && Next(Before(), s) == Created1()
  {
    assert ComputeNextRun(SPEC, 35) == Ok(Some(100));
  }

  lemma ClaimGoes()
    ensures Enabled(Created1(), RunNow(5, 1, 10, 8)) && Next(Created1(), RunNow(5, 1, 10, 8)) == Claimed1(35)
  {
    var (t, claim) := ClaimManual(Created1().tables, 1, 10, 8);
    assert t == Tables(map[1 := Row(Some(100))], map[8 := CLAIMED]) && claim == Claimed;
  }

  lemma ListGoes()
    ensures var s := ListOpen(0, [Listed(8, CLAIMED)]);
      Enabled(Claimed1(41), s) && Next(Claimed1(41), s) == WithLoop(Agent([Listed(8, CLAIMED)], None))
  {
    assert Claimed1(41).agents[0 := Agent([Listed(8, CLAIMED)], None)] == WithLoop(Agent([Listed(8, CLAIMED)], None)).agents;
  }

  lemma ExamineGoes()
    ensures var w := WithLoop(Agent([Listed(8, CLAIMED)], None));
      Enabled(w, Examine(0, 41)) && Next(w, Examine(0, 41)) == WithLoop(Agent([], Some(Fail(8))))
  {
    var w := WithLoop(Agent([Listed(8, CLAIMED)], None));
    assert AgentOf(w, 0).queue[1..] == [];
    assert Next(w, Examine(0, 41)).agents == WithLoop(Agent([], Some(Fail(8)))).agents;
  }

  lemma CallReplies(j: J.Db)
    requires Inbound.FreshFor(J.EMPTY, PLAN) && Inbound.Receive(J.EMPTY, PLAN, false) == (j, Inbound.Started(9))
    ensures Delivered(WithLoop(Agent([], Some(Fail(8)))), 5, PLAN, false, false) == Called1(j)
  {
    var w := WithLoop(Agent([], Some(Fail(8))));
    assert AgentOf(w, 5).(doing := Some(Accept(8, 9, None))) == LATE;
    assert w.agents[5 := LATE] == Called1(j).agents;
  }

  lemma CallGoes(j: J.Db)
    requires Inbound.FreshFor(J.EMPTY, PLAN) && Inbound.Receive(J.EMPTY, PLAN, false) == (j, Inbound.Started(9))
    ensures var w, s := WithLoop(Agent([], Some(Fail(8)))), Deliver(5, PLAN, false, false);
      Enabled(w, s) && Next(w, s) == Called1(j)
  {
    CallReplies(j);
  }

  lemma FailReaches(j: J.Db)
    ensures Reached(Called1(j), 8, OccStatus.Failed, 41) == Failed1(j).(agents := Called1(j).agents)
  {
    var w := Called1(j);
    var t := Reach(w.tables, 8, OccStatus.Failed, 41);
    assert t.occs == map[8 := ABANDONED] && t.schedules == map[1 := Gone(Some(100))];
    var log: seq<OccStatus> := [];
    assert log + [OccStatus.Failed] == [OccStatus.Failed];
    assert Reached(w, 8, OccStatus.Failed, 41).writes == map[1 := [OccStatus.Failed]];
  }

  lemma FailGoes(j: J.Db)
    ensures Enabled(Called1(j), TakeFail(0, 41)) && Next(Called1(j), TakeFail(0, 41)) == Failed1(j)
  {
    FailReaches(j);
    assert Next(Called1(j), TakeFail(0, 41)).agents == Failed1(j).agents;
  }

  lemma CallToCrash(j: J.Db, last: World) returns (steps: seq<Step>)
    requires Inbound.FreshFor(J.EMPTY, PLAN) && Inbound.Receive(J.EMPTY, PLAN, false) == (j, Inbound.Started(9))
    requires last == Failed1(j).(agents := map[])
    ensures IsRun(WithLoop(Agent([], Some(Fail(8)))), steps, last)
  {
    Prepend(Failed1(j), Crash, last, [], last);
    steps := [Crash] + [];
    FailGoes(j);
    Prepend(Called1(j), TakeFail(0, 41), Failed1(j), steps, last);
    steps := [TakeFail(0, 41)] + steps;
    CallGoes(j);
    Prepend(WithLoop(Agent([], Some(Fail(8)))), Deliver(5, PLAN, false, false), Called1(j), steps, last);
    steps := [Deliver(5, PLAN, false, false)] + steps;
  }

  lemma PassBegins(rest: seq<Step>, last: World) returns (steps: seq<Step>)
    requires IsRun(WithLoop(Agent([], Some(Fail(8)))), rest, last)
    ensures IsRun(Claimed1(35), steps, last)
  {
    var listed := WithLoop(Agent([Listed(8, CLAIMED)], None));
    ExamineGoes();
    Prepend(listed, Examine(0, 41), WithLoop(Agent([], Some(Fail(8)))), rest, last);
    steps := [Examine(0, 41)] + rest;
    ListGoes();
    Prepend(Claimed1(41), ListOpen(0, [Listed(8, CLAIMED)]), listed, steps, last);
    steps := [ListOpen(0, [Listed(8, CLAIMED)])] + steps;
    Prepend(Claimed1(35), Tick(41), Claimed1(41), steps, last);
    steps := [Tick(41)] + steps;
  }

  lemma ClaimBegins(rest: seq<Step>, last: World) returns (steps: seq<Step>)
    requires IsRun(Claimed1(35), rest, last)
    ensures IsRun(Before(), steps, last)
  {
    ClaimGoes();
    Prepend(Created1(), RunNow(5, 1, 10, 8), Claimed1(35), rest, last);
    steps := [RunNow(5, 1, 10, 8)] + rest;
    CreateGoes();
    Prepend(Before(), Step.CreateSchedule(1, SPEC, true, 35), Created1(), steps, last);
    steps := [Step.CreateSchedule(1, SPEC, true, 35)] + steps;
  }

  lemma ReceiptThere(j: J.Db)
    requires j.inbound == [J.Inbound(PLAN.Key(), 9, 4, 6)]
    ensures 8 in LostOnes(Failed1(j).(agents := map[]))
  {
    assert j.inbound[|j.inbound| - 1] == J.Inbound(PLAN.Key(), 9, 4, 6);
    assert ReceiptRun(j.inbound, J.SlotThread(10), 8) == Some(9);
  }

  // The call has committed a run, the occurrence says failed without one, and whatever happens later it does.
  lemma CommittedDispatchLost() returns (w: World, steps: seq<Step>, last: World)
    ensures Initial(w) && IsRun(w, steps, last) && 8 in LostOnes(last)
    ensures forall more, end :: IsRun(last, more, end) ==> 8 in LostOnes(end)
  {
    var j, _ := TheJournal();
    Inbound.BatchOutcome(J.EMPTY, PLAN);
    w, last := Before(), Failed1(j).(agents := map[]);
    steps := CallToCrash(j, last);
    steps := PassBegins(steps, last);
    steps := ClaimBegins(steps, last);
    ReceiptThere(j);
    assert Linked(w);
    RunLinked(w, steps, last);
    forall more, end | IsRun(last, more, end) ensures 8 in LostOnes(end) {
      LostForGood(last, 8, more, end);
    }
  }
}
