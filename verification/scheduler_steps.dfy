/**
 The service's own code as runs of the concurrent system: a turn of the reconciliation loop, and the dispatch of
 a claimed occurrence, are the steps of one agent, and if nobody comes between them they do what the service's
 methods promise.
 */
module SchedulerSteps {
  import opened Basics
  import opened Slots
  import opened SchedulerStore
  import opened SchedulerWorld
  import opened SchedulerService
  import opened SchedulerExactlyOnce
  import J = Journal
  import Inbound

  lemma OneStep(w: World, a: Step)
    requires Enabled(w, a)
    ensures IsRun(w, [a], Next(w, a))
  {
    assert [a][1..] == [] && IsRun(Next(w, a), [], Next(w, a));
  }

  lemma TwoSteps(w: World, a: Step, b: Step)
    requires Enabled(w, a) && Enabled(Next(w, a), b)
    ensures IsRun(w, [a, b], Next(Next(w, a), b))
  {
    OneStep(Next(w, a), b);
    assert [a, b][1..] == [b];
  }

  lemma TwoThen(w: World, a: Step, b: Step, rest: seq<Step>, last: World)
    requires Enabled(w, a) && Enabled(Next(w, a), b) && IsRun(Next(Next(w, a), b), rest, last)
    ensures IsRun(w, [a, b] + rest, last)
  {
    assert ([a, b] + rest)[1..] == [b] + rest && ([b] + rest)[1..] == rest;
    assert IsRun(Next(w, a), [b] + rest, last);
  }

  // The agent has nothing in hand, and its listing begins with `head`.
  ghost predicate AtHead(w: World, a: Id, head: Listed) {
    AgentOf(w, a).doing.None? && AgentOf(w, a).queue != [] && AgentOf(w, a).queue[0] == head
  }

  // What a whole turn leaves: the tables of the service's turn, and the rest of the listing.
  ghost predicate TurnDone(w: World, a: Id, head: Listed, now: int, steps: seq<Step>, last: World) {
    && AgentOf(w, a).queue != [] && IsRun(w, steps, last)
    && ReconcileOne(w.tables, w.journal, head, now, w.grace) == Ok(last.tables)
    && last.journal == w.journal && AgentOf(last, a) == Agent(AgentOf(w, a).queue[1..], None)
  }

  lemma ExamineDecides(w: World, a: Id, head: Listed, now: int)
    requires AtHead(w, a, head) && now <= w.clock
    ensures Enabled(w, Examine(a, now))
    ensures var d := Next(w, Examine(a, now));
      && d == w.(agents := d.agents)
      && (head.row.runId.Some? && head.row.runId.value in w.journal.runs ==>
            AgentOf(d, a) == Agent(AgentOf(w, a).queue[1..], Some(Sync(head.id, w.journal.runs[head.row.runId.value].status))))
      && (head.row.runId.None? ==>
            match ReceiptRun(w.journal.inbound, head.row.Thread(), head.id)
            case Some(run) =>
              run in w.journal.runs ==>
                AgentOf(d, a) == Agent(AgentOf(w, a).queue[1..], Some(Accept(head.id, run, Some(w.journal.runs[run].status))))
            case None =>
              AgentOf(d, a) == Agent(AgentOf(w, a).queue[1..],
                if head.row.status.Dispatching? && head.row.createdAt < now - w.grace then Some(Fail(head.id)) else None))
  {
    ExaminedTouches(w, a, now);
  }

  lemma SyncDoes(w: World, a: Id, o: Id, status: J.RunStatus, now: int)
    requires AgentOf(w, a).doing == Some(Sync(o, status)) && Loads(w.tables, o) && now <= w.clock
    ensures Enabled(w, TakeSync(a, now))
    ensures var d := Next(w, TakeSync(a, now));
      && SyncWithRun(w.tables, o, status, now) == Ok(d.tables) && d.journal == w.journal && d.clock == w.clock
      && AgentOf(d, a) == Agent(AgentOf(w, a).queue, None)
  {
  }

  lemma AcceptDoes(w: World, a: Id, o: Id, run: Id, sync: Option<J.RunStatus>, now: int)
    requires AgentOf(w, a).doing == Some(Accept(o, run, sync)) && now <= w.clock
    ensures Enabled(w, TakeAccept(a, now))
    ensures var d := Next(w, TakeAccept(a, now));
      && d.tables == MarkAccepted(w.tables, o, run, now) && d.journal == w.journal && d.clock == w.clock
      && AgentOf(d, a) == Agent(AgentOf(w, a).queue, if sync.Some? then Some(Sync(o, sync.value)) else None)
  {
  }

  lemma FailDoes(w: World, a: Id, o: Id, now: int)
    requires AgentOf(w, a).doing == Some(Fail(o)) && Loads(w.tables, o) && now <= w.clock
    ensures Enabled(w, TakeFail(a, now))
    ensures var d := Next(w, TakeFail(a, now));
      && MarkFailed(w.tables, o, now) == Ok(d.tables) && d.journal == w.journal && d.clock == w.clock
      && AgentOf(d, a) == Agent(AgentOf(w, a).queue, None)
  {
  }

  // One turn of the loop, when the row is there and its run can be loaded.
  lemma TurnRefines(w: World, a: Id, head: Listed, now: int) returns (steps: seq<Step>, last: World)
    requires AtHead(w, a, head) && now <= w.clock && Loads(w.tables, head.id)
    requires head.row.runId.Some? ==> head.row.runId.value in w.journal.runs
    requires var run := ReceiptRun(w.journal.inbound, head.row.Thread(), head.id); run.Some? ==> run.value in w.journal.runs
    ensures TurnDone(w, a, head, now, steps, last)
  {
    ExamineDecides(w, a, head, now);
    var d := Next(w, Examine(a, now));
    match AgentOf(d, a).doing {
      case Some(Sync(o, status)) =>
        SyncDoes(d, a, o, status, now);
        TwoSteps(w, Examine(a, now), TakeSync(a, now));
        steps, last := [Examine(a, now), TakeSync(a, now)], Next(d, TakeSync(a, now));
      case Some(Accept(o, run, sync)) =>
        AcceptDoes(d, a, o, run, sync, now);
        var e := Next(d, TakeAccept(a, now));
        SyncDoes(e, a, o, sync.value, now);
        RunOfThree(w, Examine(a, now), TakeAccept(a, now), TakeSync(a, now));
        steps, last := [Examine(a, now), TakeAccept(a, now), TakeSync(a, now)], Next(e, TakeSync(a, now));
      case Some(Fail(o)) =>
        FailDoes(d, a, o, now);
        TwoSteps(w, Examine(a, now), TakeFail(a, now));
        steps, last := [Examine(a, now), TakeFail(a, now)], Next(d, TakeFail(a, now));
      case _ =>
        OneStep(w, Examine(a, now));
        steps, last := [Examine(a, now)], d;
    }
  }

  /// The dispatch of an occurrence just claimed

  lemma CallAnswers(w: World, a: Id, call: Call)
    requires AgentOf(w, a).doing == Some(Dispatch(call.occ)) && call.occ in w.tables.occs && ReceiptOf(w, call.occ).None?
    requires Inbound.FreshFor(w.journal, PlanOf(call, w.tables.occs[call.occ].Thread()))
    ensures var plan := PlanOf(call, w.tables.occs[call.occ].Thread());
      var s := Deliver(a, plan, call.refused, call.lateError);
      && Enabled(w, s)
      && (var d := Next(w, s);
          && d.tables == w.tables && d.clock == w.clock
          && (if Deliverable(w.journal, plan, call.refused) then
                && d.journal == Inbound.Recorded(w.journal, plan)
                && AgentOf(d, a) == Agent(AgentOf(w, a).queue,
                     if call.lateError then Some(Recover(call.occ)) else Some(Accept(call.occ, plan.run, None)))
              else
                d.journal == w.journal && AgentOf(d, a) == Agent(AgentOf(w, a).queue, Some(Recover(call.occ)))))
  {
    var plan := PlanOf(call, w.tables.occs[call.occ].Thread());
    ReceiptRunFound(w.journal.inbound, plan.thread, call.occ);
    Inbound.BatchOutcome(w.journal, plan);
    NoReceiptNoInbound(w.journal, plan, call.occ);
    DeliverableIff(w.journal, plan, call.refused);
  }

  lemma NoReceiptNoInbound(db: J.Db, plan: Inbound.Plan, o: Id)
    requires plan.channel.ScheduleLocal? && plan.source == Some(o) && ReceiptRun(db.inbound, plan.thread, o).None?
    ensures !J.HasInbound(db.inbound, plan.Key())
  {
    ReceiptRunFound(db.inbound, plan.thread, o);
  }

  lemma DeliverableIff(db: J.Db, plan: Inbound.Plan, refused: bool)
    requires Inbound.FreshFor(db, plan) && plan.source.Some? && !J.HasInbound(db.inbound, plan.Key())
    ensures Deliverable(db, plan, refused) <==> !refused && Inbound.Outcome(db, plan).Ok?
    ensures Deliverable(db, plan, refused) ==> Inbound.Receive(db, plan, refused) == (Inbound.Recorded(db, plan), Inbound.Started(plan.run))
    ensures !Deliverable(db, plan, refused) ==>
      Inbound.Receive(db, plan, refused).0 == db && !Inbound.Receive(db, plan, refused).1.Started?
      && !Inbound.Receive(db, plan, refused).1.Existing?
  {
    Inbound.BatchOutcome(db, plan);
  }

  lemma LookupDoes(w: World, a: Id, o: Id)
    requires AgentOf(w, a).doing == Some(Recover(o)) && o in w.tables.occs
    requires ReceiptOf(w, o).Some? ==> ReceiptOf(w, o).value in w.journal.runs
    ensures Enabled(w, Lookup(a))
    ensures var d := Next(w, Lookup(a));
      && d == w.(agents := d.agents)
      && AgentOf(d, a) == Agent(AgentOf(w, a).queue,
           match ReceiptOf(w, o)
           case None => Some(Fail(o))
           case Some(run) => Some(Accept(o, run, Some(w.journal.runs[run].status))))
  {
  }

  // The steps of the agent that holds the claim, one after the other, end with the occurrence answered.
  lemma DispatchRefines(w: World, a: Id, call: Call, now: int) returns (last: World)
    requires AgentOf(w, a).doing == Some(Dispatch(call.occ)) && Loads(w.tables, call.occ) && now <= w.clock
    requires ReceiptOf(w, call.occ).None? && w.tables.occs[call.occ].runId.None?
    requires Inbound.FreshFor(w.journal, PlanOf(call, w.tables.occs[call.occ].Thread()))
    ensures exists steps :: IsRun(w, steps, last)
    ensures call.occ in last.tables.occs && Answered(w.journal, last.journal, last.tables.occs[call.occ], call, now)
    ensures AgentOf(last, a) == Agent(AgentOf(w, a).queue, None)
  {
    var plan := PlanOf(call, w.tables.occs[call.occ].Thread());
    CallAnswers(w, a, call);
    var s := Deliver(a, plan, call.refused, call.lateError);
    var d := Next(w, s);
    if Deliverable(w.journal, plan, call.refused) { RecordedReceipt(w.journal, plan, plan.thread, call.occ); }
    if AgentOf(d, a).doing.value.Accept? {
      AcceptDoes(d, a, call.occ, plan.run, None, now);
      TwoSteps(w, s, TakeAccept(a, now));
      last := Next(d, TakeAccept(a, now));
    } else {
      LookupDoes(d, a, call.occ);
      var e := Next(d, Lookup(a));
      last := Recovers(e, a, call, now);
      var steps :| IsRun(e, steps, last);
      TwoThen(w, s, Lookup(a), steps, last);
    }
  }

  lemma Recovers(e: World, a: Id, call: Call, now: int) returns (last: World)
    requires Loads(e.tables, call.occ) && now <= e.clock && e.tables.occs[call.occ].runId.None?
    requires match AgentOf(e, a).doing
             case Some(Fail(o)) => o == call.occ
             case Some(Accept(o, run, sync)) => o == call.occ && sync == Some(J.Active)
             case _ => false
    ensures exists steps :: IsRun(e, steps, last)
    ensures last.journal == e.journal && AgentOf(last, a) == Agent(AgentOf(e, a).queue, None)
    ensures call.occ in last.tables.occs
    ensures var row, was, tok := last.tables.occs[call.occ], e.tables.occs[call.occ], AgentOf(e, a).doing.value;
      row == if tok.Fail? then was.(status := OccStatus.Failed, finishedAt := Some(now))
             else was.(runId := Some(tok.run), status := OccStatus.Active, startedAt := Some(now))
  {
    if AgentOf(e, a).doing.value.Fail? {
      FailDoes(e, a, call.occ, now);
      OneStep(e, TakeFail(a, now));
      last := Next(e, TakeFail(a, now));
    } else {
      var tok := AgentOf(e, a).doing.value;
      AcceptDoes(e, a, call.occ, tok.run, tok.sync, now);
      var f := Next(e, TakeAccept(a, now));
      SyncDoes(f, a, call.occ, J.Active, now);
      TwoSteps(e, TakeAccept(a, now), TakeSync(a, now));
      last := Next(f, TakeSync(a, now));
    }
  }

  /// Edits, claims and what others journal

  // An edit whose write follows its load leaves what the store's own statements leave.
  lemma EditRefines(w: World, editor: Id, id: Id, edit: Edit) returns (last: World)
    requires editor !in w.edits && id in w.tables.schedules
    requires edit.RepairEdit? ==> w.tables.schedules[id].enabled && w.tables.schedules[id].nextRunAt.None?
    ensures IsRun(w, [LoadRow(editor, id), WriteRow(editor, edit, w.clock)], last)
    ensures last.tables == match WriteEdit(w.tables, id, w.tables.schedules[id], edit, w.clock)
                           case Ok(t) => t
                           case Err(_) => w.tables
    ensures last.edits == w.edits
  {
    var d := Next(w, LoadRow(editor, id));
    TwoSteps(w, LoadRow(editor, id), WriteRow(editor, edit, w.clock));
    last := Next(d, WriteRow(editor, edit, w.clock));
  }

  // An update reads the clock after its load, an enabling and a repair before, and each may write long after.
  lemma EditReadings(w: World, editor: Id, patch: Option<Spec>, enabled: bool, now: int)
    requires editor in w.edits && now <= w.clock
    ensures w.edits[editor].at <= now <==> Enabled(w, WriteRow(editor, UpdateEdit(patch), now))
    ensures now <= w.edits[editor].at <==> Enabled(w, WriteRow(editor, EnableEdit(enabled), now))
    ensures now <= w.edits[editor].at && w.edits[editor].row.enabled && w.edits[editor].row.nextRunAt.None?
      <==> Enabled(w, WriteRow(editor, RepairEdit, now))
  {
  }

  // An idle agent may claim with the present reading or an older one, and does what the store's claims do.
  lemma ClaimRefines(w: World, a: Id, id: Id, now: int, occ: Id)
    requires AgentOf(w, a).doing.None? && now <= w.clock && occ !in w.tables.occs
    ensures Enabled(w, Step.ClaimDue(a, id, now, occ)) && Enabled(w, RunNow(a, id, now, occ))
    ensures var (t, claim) := SchedulerStore.ClaimDue(w.tables, id, now, occ);
      var d := Next(w, Step.ClaimDue(a, id, now, occ));
      d.tables == t && AgentOf(d, a).doing == if claim.Claimed? then Some(Dispatch(occ)) else None
    ensures var (t, claim) := ClaimManual(w.tables, id, now, occ);
      var d := Next(w, RunNow(a, id, now, occ));
      d.tables == t && AgentOf(d, a).doing == if claim.Claimed? then Some(Dispatch(occ)) else None
  {
  }

  // A schedule may be created at any reading, and as the store creates it.
  lemma CreateRefines(w: World, id: Id, spec: Spec, enabled: bool, now: int)
    requires now <= w.clock
    ensures var s := Step.CreateSchedule(id, spec, enabled, now);
      && Enabled(w, s)
      && Next(w, s) == w.(tables := match Created(w.tables, id, spec, enabled, now) case Ok(t) => t case Err(_) => w.tables)
  {
  }

  // Everybody else may journal anything but a message on the scheduler's own channel.
  lemma OthersJournal(w: World, batch: seq<J.Event>)
    ensures Enabled(w, Step.Journal(batch)) <==>
      forall i :: 0 <= i < |batch| && batch[i].payload.InboundRecorded? ==> batch[i].payload.channel != J.ScheduleLocal
    ensures Enabled(w, Step.Journal(batch)) ==> Next(w, Step.Journal(batch)) == w.(journal := J.Commit(w.journal, batch))
  {
  }

  // An agent that gives up, or a crash, forgets what was in hand and nothing else; time only passes.
  lemma Forgets(w: World, a: Id, to: int)
    ensures Enabled(w, Abandon(a)) && Next(w, Abandon(a)) == w.(agents := w.agents[a := Agent([], None)])
    ensures Enabled(w, Crash) && Next(w, Crash) == w.(agents := map[])
    ensures w.clock <= to ==> Enabled(w, Tick(to)) && Next(w, Tick(to)) == w.(clock := to)
  {
  }

  // An idle agent may list the open occurrences as they are.
  lemma ListRefines(w: World, a: Id)
    requires AgentOf(w, a) == Agent([], None)
    ensures var listed := OpenListing(w.tables);
      && Enabled(w, ListOpen(a, listed))
      && AgentOf(Next(w, ListOpen(a, listed)), a) == Agent(listed, None) && Next(w, ListOpen(a, listed)).tables == w.tables
  {
    OpenPlacesExist(w.tables);
  }
}
