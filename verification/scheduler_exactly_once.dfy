/**
 Over every interleaving of claims, deliveries, acceptances, failures, syncs, edits, crashes and journal
 appends: an occurrence is dispatched at most once, has at most one receipt and carries only its receipt's
 run.
 */
module SchedulerExactlyOnce {
  import opened Basics
  import opened Slots
  import opened SchedulerStore
  import opened SchedulerWorld
  import J = Journal
  import Inbound

  ghost predicate NoOtherDispatch(w: World, a: Id, doing: Option<Token>) {
    doing.Some? && doing.value.Dispatch? ==>
      forall b :: b in w.agents && b != a && w.agents[b].doing.Some? && w.agents[b].doing.value.Dispatch?
        ==> w.agents[b].doing.value.occ != doing.value.occ
  }

  lemma PutLinked(w: World, a: Id, agent: Agent)
    requires Linked(w) && AgentOk(w, agent) && NoOtherDispatch(w, a, agent.doing)
    ensures Linked(Put(w, a, agent))
  {
    var d := Put(w, a, agent);
    forall o | o in d.tables.occs ensures RowOk(d, o) { assert RowOk(w, o); }
    forall b | b in d.agents ensures AgentOk(d, d.agents[b]) {
      if b != a { assert AgentOk(w, w.agents[b]); }
      AgentOkFrame(w, d, d.agents[b]);
    }
  }

  // Whether an agent's memory is sound depends on the tables, the receipts and the clock only.
  lemma AgentOkFrame(w: World, d: World, agent: Agent)
    requires AgentOk(w, agent)
    requires d.tables == w.tables && d.journal == w.journal && d.dispatched == w.dispatched
    requires d.clock == w.clock && d.grace == w.grace
    ensures AgentOk(d, agent)
  {
    forall i | 0 <= i < |agent.queue| ensures ListedOk(d, agent.queue[i]) { assert ListedOk(w, agent.queue[i]); }
  }

  lemma Cleared(w: World, a: Id)
    requires Linked(w)
    ensures AgentOk(w, AgentOf(w, a).(doing := None)) && Linked(Do(w, a, None))
  {
    if a in w.agents { assert AgentOk(w, w.agents[a]); }
    PutLinked(w, a, AgentOf(w, a).(doing := None));
  }

  // The same world with an agent's decision forgotten, changed, then decided anew.
  lemma Redo(w: World, d: World, a: Id, doing: Option<Token>)
    requires d.agents == Do(w, a, None).agents
    requires Linked(d) && (doing.Some? ==> TokenOk(d, doing.value)) && NoOtherDispatch(d, a, doing)
    ensures Linked(d.(agents := w.agents[a := AgentOf(w, a).(doing := doing)]))
  {
    assert AgentOk(d, d.agents[a]);
    PutLinked(d, a, d.agents[a].(doing := doing));
    assert Put(d, a, d.agents[a].(doing := doing)).agents == w.agents[a := AgentOf(w, a).(doing := doing)];
  }

  /// Changes to the tables and the journal

  // The schedules change, the occurrences do not.
  lemma SchedulesChanged(w: World, schedules: map<Id, Schedule>)
    requires Linked(w) && w.tables.schedules.Keys <= schedules.Keys
    ensures Linked(w.(tables := w.tables.(schedules := schedules)))
  {
    var d := w.(tables := w.tables.(schedules := schedules));
    forall o | o in d.tables.occs ensures RowOk(d, o) { assert RowOk(w, o); }
    forall a | a in d.agents ensures AgentOk(d, d.agents[a]) {
      assert AgentOk(w, w.agents[a]);
      forall i | 0 <= i < |d.agents[a].queue| ensures ListedOk(d, d.agents[a].queue[i]) {
        assert ListedOk(w, d.agents[a].queue[i]);
      }
    }
  }

  lemma NoReceiptYet(w: World, o: Id, thread: J.Thread)
    requires Linked(w) && o !in w.tables.occs
    ensures ReceiptRun(w.journal.inbound, thread, o).None?
  {
    ReceiptRunFound(w.journal.inbound, thread, o);
  }

  lemma OccurrenceAdded(w: World, o: Id, row: Occurrence)
    requires Linked(w) && o !in w.tables.occs
    requires row.schedule in w.tables.schedules && row.runId.None? && row.createdAt <= w.clock
    requires row.status.Dispatching? || row.status.Skipped?
    ensures Linked(w.(tables := w.tables.(occs := w.tables.occs[o := row])))
    ensures ReceiptRun(w.journal.inbound, row.Thread(), o).None? && o !in w.dispatched
  {
    var d := w.(tables := w.tables.(occs := w.tables.occs[o := row]));
    NoReceiptYet(w, o, row.Thread());
    forall p | p in d.tables.occs ensures RowOk(d, p) {
      if p != o { assert RowOk(w, p); }
    }
    forall a | a in d.agents ensures AgentOk(d, d.agents[a]) {
      assert AgentOk(w, w.agents[a]);
      forall i | 0 <= i < |d.agents[a].queue| ensures ListedOk(d, d.agents[a].queue[i]) {
        assert ListedOk(w, d.agents[a].queue[i]);
      }
    }
  }

  // One occurrence's row changes its status, and its run only to its receipt's.
  ghost predicate RowStep(w: World, o: Id, row: Occurrence)
    requires o in w.tables.occs
  {
    var was := w.tables.occs[o];
    && row.schedule == was.schedule && row.slot == was.slot && row.createdAt == was.createdAt
    && !row.status.Dispatching? && !row.status.Skipped? && !was.status.Skipped?
    && (row.runId == was.runId || (was.runId.None? && row.runId == ReceiptOf(w, o)))
    && ((row.status.Failed? && row.runId.None?) || (ReceiptOf(w, o).Some? && row.runId == ReceiptOf(w, o)))
  }

  lemma RowChanged(w: World, o: Id, row: Occurrence)
    requires Linked(w) && o in w.tables.occs && RowStep(w, o, row)
    ensures Linked(w.(tables := w.tables.(occs := w.tables.occs[o := row])))
  {
    var d := w.(tables := w.tables.(occs := w.tables.occs[o := row]));
    assert RowOk(w, o);
    forall p | p in d.tables.occs ensures RowOk(d, p) { assert RowOk(w, p); }
    forall a | a in d.agents ensures AgentOk(d, d.agents[a]) {
      assert AgentOk(w, w.agents[a]);
      forall i | 0 <= i < |d.agents[a].queue| ensures ListedOk(d, d.agents[a].queue[i]) {
        assert ListedOk(w, d.agents[a].queue[i]);
      }
      if d.agents[a].doing.Some? { assert TokenOk(w, d.agents[a].doing.value); }
    }
  }

  lemma OthersJournaled(w: World, journal: J.Db)
    requires Linked(w)
    requires AddsOthers(w.journal.inbound, journal.inbound) && w.journal.runs.Keys <= journal.runs.Keys
    ensures Linked(w.(journal := journal))
  {
    var d := w.(journal := journal);
    forall o | o in d.tables.occs ensures RowOk(d, o) && ReceiptOf(d, o) == ReceiptOf(w, o) {
      assert RowOk(w, o);
      ReceiptRunGrows(w.journal.inbound, journal.inbound, w.tables.occs[o].Thread(), o);
    }
    forall a | a in d.agents ensures AgentOk(d, d.agents[a]) {
      assert AgentOk(w, w.agents[a]);
      forall i | 0 <= i < |d.agents[a].queue| ensures ListedOk(d, d.agents[a].queue[i]) {
        assert ListedOk(w, d.agents[a].queue[i]);
      }
      if d.agents[a].doing.Some? { assert TokenOk(w, d.agents[a].doing.value); }
    }
    forall i | 0 <= i < |journal.inbound| && Ours(journal.inbound[i])
      ensures i < |w.journal.inbound| && journal.inbound[i] == w.journal.inbound[i]
    {
      assert i < |w.journal.inbound|;
    }
  }

  // The dispatcher is called: the occurrence now counts as dispatched, with a receipt or without.
  ghost predicate CallStep(w: World, o: Id, d: World, run: Option<Id>) {
    && o in w.tables.occs && ReceiptOf(w, o).None? && o !in w.dispatched
    && !w.tables.occs[o].status.Skipped?
    && (forall a :: a in w.agents && w.agents[a].doing.Some? && w.agents[a].doing.value.Dispatch?
          ==> w.agents[a].doing.value.occ != o)
    && d == w.(journal := d.journal, dispatched := w.dispatched + [o])
    && w.journal.runs.Keys <= d.journal.runs.Keys
    && (match run
        case None => d.journal.inbound == w.journal.inbound
        case Some(r) =>
          r !in w.journal.runs && r in d.journal.runs
          && exists row :: d.journal.inbound == w.journal.inbound + [row]
               && Ours(row) && row.key.source == o && row.key.thread == w.tables.occs[o].Thread() && row.run == r)
  }

  lemma ReceiptRunAppend(rows: seq<J.Inbound>, row: J.Inbound, thread: J.Thread, source: Id)
    ensures ReceiptRun(rows + [row], thread, source) ==
      if Ours(row) && row.key.thread == thread && row.key.source == source then Some(row.run)
      else ReceiptRun(rows, thread, source)
  {
    var all := rows + [row];
    assert all[..|all| - 1] == rows;
  }

  lemma CalledReceipts(w: World, o: Id, d: World, run: Option<Id>)
    requires Linked(w) && CallStep(w, o, d, run)
    ensures ReceiptOf(d, o) == run
    ensures forall p :: p in w.tables.occs && p != o ==> ReceiptOf(d, p) == ReceiptOf(w, p)
  {
    if run.Some? {
      var row :| d.journal.inbound == w.journal.inbound + [row]
               && Ours(row) && row.key.source == o && row.key.thread == w.tables.occs[o].Thread() && row.run == run.value;
      forall p | p in w.tables.occs
        ensures ReceiptOf(d, p) == if p == o then run else ReceiptOf(w, p)
      {
        ReceiptRunAppend(w.journal.inbound, row, w.tables.occs[p].Thread(), p);
      }
    }
  }

  lemma CalledInbound(w: World, o: Id, d: World, run: Option<Id>)
    requires Linked(w) && CallStep(w, o, d, run)
    ensures InboundOk(d)
  {
    var rows, all := w.journal.inbound, d.journal.inbound;
    forall i | 0 <= i < |rows| && Ours(rows[i]) ensures rows[i].key.source != o && rows[i].run in w.journal.runs {
      assert rows[i].key.source in w.dispatched;
    }
    forall i | 0 <= i < |all| && Ours(all[i])
      ensures all[i].key.source in w.tables.occs && all[i].key.thread == w.tables.occs[all[i].key.source].Thread()
      ensures all[i].key.source in d.dispatched && all[i].run in d.journal.runs
    {
      if i < |rows| { assert all[i] == rows[i]; } else { assert o in d.dispatched; }
    }
  }

  lemma Called(w: World, o: Id, d: World, run: Option<Id>)
    requires Linked(w) && CallStep(w, o, d, run)
    ensures Linked(d) && ReceiptOf(d, o) == run
  {
    CalledReceipts(w, o, d, run);
    CalledInbound(w, o, d, run);
    assert o in d.dispatched && forall p :: p in w.dispatched ==> p in d.dispatched;
    forall p | p in d.tables.occs ensures RowOk(d, p) {
      assert RowOk(w, p);
      assert p in d.dispatched <==> p in w.dispatched || p == o;
    }
    forall a | a in d.agents ensures AgentOk(d, d.agents[a]) {
      assert AgentOk(w, w.agents[a]);
      forall i | 0 <= i < |d.agents[a].queue| ensures ListedOk(d, d.agents[a].queue[i]) {
        assert ListedOk(w, d.agents[a].queue[i]);
      }
      if d.agents[a].doing.Some? {
        var tok := d.agents[a].doing.value;
        assert TokenOk(w, tok);
        assert tok.occ in d.dispatched <==> tok.occ in w.dispatched || tok.occ == o;
      }
    }
  }

  /// The steps

  lemma EditStep(w: World, s: Step)
    requires Linked(w) && Enabled(w, s)
    requires s.CreateSchedule? || s.LoadRow? || s.WriteRow?
    ensures Linked(Next(w, s))
  {
    var d := Next(w, s);
    HistoryIrrelevant(w, w.(edits := d.edits));
    SchedulesChanged(w.(edits := d.edits), d.tables.schedules);
    assert d == w.(edits := d.edits, tables := w.tables.(schedules := d.tables.schedules));
  }

  lemma TickStep(w: World, to: int)
    requires Linked(w) && w.clock <= to
    ensures Linked(w.(clock := to))
  {
    var d := w.(clock := to);
    forall o | o in d.tables.occs ensures RowOk(d, o) { assert RowOk(w, o); }
    forall a | a in d.agents ensures AgentOk(d, d.agents[a]) {
      assert AgentOk(w, w.agents[a]);
      forall i | 0 <= i < |d.agents[a].queue| ensures ListedOk(d, d.agents[a].queue[i]) {
        assert ListedOk(w, d.agents[a].queue[i]);
      }
    }
  }

  // The invariant reads neither the edits under way nor the history.
  lemma HistoryIrrelevant(w: World, d: World)
    requires Linked(w) && d == w.(edits := d.edits, order := d.order, manual := d.manual, writes := d.writes)
    ensures Linked(d)
  {
    forall o | o in d.tables.occs ensures RowOk(d, o) { assert RowOk(w, o); }
    forall a | a in d.agents ensures AgentOk(d, d.agents[a]) {
      assert AgentOk(w, w.agents[a]);
      AgentOkFrame(w, d, w.agents[a]);
    }
  }

  // Either claim: nothing, an edit of the schedule, or a new row that is dispatched next.
  lemma EnteredLinked(w: World, a: Id, t: Tables, claim: Claim, occ: Id)
    requires Linked(w) && occ !in w.tables.occs
    requires w.tables.schedules.Keys == t.schedules.Keys
    requires if occ in t.occs then
               && t.occs == w.tables.occs[occ := t.occs[occ]]
               && t.occs[occ].schedule in w.tables.schedules && t.occs[occ].runId.None? && t.occs[occ].createdAt <= w.clock
               && (t.occs[occ].status.Dispatching? || t.occs[occ].status.Skipped?)
             else t.occs == w.tables.occs
    requires claim.Claimed? ==> occ in t.occs && t.occs[occ].status.Dispatching?
    requires AgentOf(w, a).doing.None?
    ensures Linked(Entered(w, a, t, claim, occ))
  {
    var d := w;
    if occ in t.occs {
      OccurrenceAdded(w, occ, t.occs[occ]);
      d := w.(tables := w.tables.(occs := t.occs));
    }
    SchedulesChanged(d, t.schedules);
    d := d.(tables := t);
    var e := d.(order := if occ in t.occs then w.order[occ := |w.order|] else w.order);
    HistoryIrrelevant(d, e);
    if claim.Claimed? {
      Cleared(e, a);
      assert TokenOk(e, Dispatch(occ));
      forall b | b in w.agents && b != a && w.agents[b].doing.Some? && w.agents[b].doing.value.Dispatch?
        ensures w.agents[b].doing.value.occ != occ
      {
        assert AgentOk(w, w.agents[b]);
      }
      assert AgentOk(e, AgentOf(e, a).(doing := Some(Dispatch(occ))));
      PutLinked(e, a, AgentOf(e, a).(doing := Some(Dispatch(occ))));
    }
  }

  lemma ClaimStep(w: World, s: Step)
    requires Linked(w) && Enabled(w, s) && (s.ClaimDue? || s.RunNow?)
    ensures Linked(Next(w, s))
  {
    if s.ClaimDue? {
      var (t, claim) := SchedulerStore.ClaimDue(w.tables, s.id, s.now, s.occ);
      EnteredLinked(w, s.agent, t, claim, s.occ);
    } else {
      var (t, claim) := ClaimManual(w.tables, s.id, s.now, s.occ);
      var d := w.(manual := if s.occ in t.occs then w.manual + {s.occ} else w.manual);
      HistoryIrrelevant(w, d);
      EnteredLinked(d, s.agent, t, claim, s.occ);
    }
  }

  // The call, before the agent goes on with its reply.
  lemma DeliverCalls(w: World, a: Id, plan: Inbound.Plan, refused: bool, lateError: bool)
    requires Linked(w) && Enabled(w, Deliver(a, plan, refused, lateError))
    ensures var (journal, reply) := Inbound.Receive(w.journal, plan, refused);
      var o := AgentOf(w, a).doing.value.occ;
      var c := Do(w, a, None);
      Linked(c) && CallStep(c, o, c.(journal := journal, dispatched := w.dispatched + [o]),
                            if reply.Started? then Some(plan.run) else None)
  {
    var o := AgentOf(w, a).doing.value.occ;
    assert AgentOk(w, w.agents[a]) && TokenOk(w, Dispatch(o));
    Cleared(w, a);
    var c := Do(w, a, None);
    forall b | b in c.agents && c.agents[b].doing.Some?
      ensures c.agents[b].doing.value.Dispatch? ==> c.agents[b].doing.value.occ != o
    {
      assert b != a && AgentOk(w, w.agents[b]);
    }
    DeliverReply(w, plan, refused, o);
    var (journal, reply) := Inbound.Receive(w.journal, plan, refused);
    if reply.Started? {
      assert journal.inbound == w.journal.inbound + [J.Inbound(plan.Key(), plan.run, plan.session, plan.message)];
    }
    assert ReceiptOf(c, o) == ReceiptOf(w, o);
  }

  lemma DeliverStep(w: World, s: Step)
    requires Linked(w) && Enabled(w, s) && s.Deliver?
    ensures Linked(Next(w, s))
  {
    var a := s.agent;
    var o := AgentOf(w, a).doing.value.occ;
    assert AgentOk(w, w.agents[a]) && TokenOk(w, Dispatch(o));
    DeliverCalls(w, a, s.plan, s.refused, s.lateError);
    DeliverReply(w, s.plan, s.refused, o);
    var c := Do(w, a, None);
    var (journal, reply) := Inbound.Receive(w.journal, s.plan, s.refused);
    var d := c.(journal := journal, dispatched := w.dispatched + [o]);
    Called(c, o, d, if reply.Started? then Some(s.plan.run) else None);
    var doing := Some(match reply
                      case Started(r) => if s.lateError then Recover(o) else Accept(o, r, None)
                      case Existing(r) => Accept(o, r, None)
                      case _ => Recover(o));
    assert TokenOk(d, doing.value);
    Redo(w, d, a, doing);
  }

  // No message of this occurrence was recorded before, so the reply is a new run or an error.
  lemma DeliverReply(w: World, plan: Inbound.Plan, refused: bool, o: Id)
    requires Linked(w) && o in w.tables.occs && ReceiptOf(w, o).None?
    requires Inbound.FreshFor(w.journal, plan)
    requires plan.channel.ScheduleLocal? && plan.source == Some(o) && plan.thread == w.tables.occs[o].Thread()
    ensures var (journal, reply) := Inbound.Receive(w.journal, plan, refused);
      && !reply.Existing?
      && (if reply.Started? then reply.run == plan.run && journal == Inbound.Recorded(w.journal, plan)
          else journal == w.journal)
  {
    ReceiptRunFound(w.journal.inbound, plan.thread, o);
    Inbound.BatchOutcome(w.journal, plan);
  }

  lemma LookupStep(w: World, a: Id)
    requires Linked(w) && Enabled(w, Lookup(a))
    ensures Linked(Next(w, Lookup(a)))
  {
    var o := AgentOf(w, a).doing.value.occ;
    assert AgentOk(w, w.agents[a]) && TokenOk(w, Recover(o));
    Cleared(w, a);
    match ReceiptOf(w, o) {
      case None => Redo(w, Do(w, a, None), a, Some(Fail(o)));
      case Some(run) => FoundLinked(w, a, o, run);
    }
  }

  lemma FoundLinked(w: World, a: Id, o: Id, run: Id)
    requires Linked(w) && o in w.tables.occs && ReceiptOf(w, o) == Some(run)
    ensures Linked(Found(w, a, o, run))
  {
    assert RowOk(w, o);
    Cleared(w, a);
    if run in w.journal.runs {
      var c := Do(w, a, None);
      assert ReceiptOf(c, o) == ReceiptOf(w, o);
      Redo(w, c, a, Some(Accept(o, run, Some(w.journal.runs[run].status))));
    } else {
      PutLinked(w, a, Agent([], None));
    }
  }

  lemma AcceptStep(w: World, a: Id, now: int)
    requires Linked(w) && Enabled(w, TakeAccept(a, now))
    ensures Linked(Next(w, TakeAccept(a, now)))
  {
    var tok := AgentOf(w, a).doing.value;
    assert AgentOk(w, w.agents[a]) && TokenOk(w, tok);
    assert RowOk(w, tok.occ);
    Cleared(w, a);
    var c := Do(w, a, None);
    assert ReceiptOf(c, tok.occ) == ReceiptOf(w, tok.occ);
    var row := w.tables.occs[tok.occ].(runId := Some(tok.run), status := Active, startedAt := Some(now));
    assert RowStep(c, tok.occ, row);
    RowChanged(c, tok.occ, row);
    var d := c.(tables := MarkAccepted(w.tables, tok.occ, tok.run, now));
    Redo(w, d, a, if tok.sync.Some? then Some(Sync(tok.occ, tok.sync.value)) else None);
  }

  // A status is reached: the row changes, then its schedule's summary.
  lemma ReachedLinked(w: World, a: Id, o: Id, status: OccStatus, now: int)
    requires Linked(w) && Loads(w.tables, o)
    requires RowStep(w, o, Reach(w.tables, o, status, now).occs[o])
    ensures Linked(Do(Reached(w, o, status, now), a, None))
  {
    Cleared(w, a);
    var c := Do(w, a, None);
    var t := Reach(w.tables, o, status, now);
    assert ReceiptOf(c, o) == ReceiptOf(w, o);
    assert RowStep(c, o, t.occs[o]);
    RowChanged(c, o, t.occs[o]);
    var d := c.(tables := w.tables.(occs := t.occs));
    SchedulesChanged(d, t.schedules);
    HistoryIrrelevant(d.(tables := t), d.(tables := t, writes := Reached(w, o, status, now).writes));
  }

  lemma SyncStep(w: World, a: Id, now: int)
    requires Linked(w) && Enabled(w, TakeSync(a, now))
    ensures Linked(Next(w, TakeSync(a, now)))
  {
    var tok := AgentOf(w, a).doing.value;
    assert AgentOk(w, w.agents[a]) && TokenOk(w, tok);
    assert RowOk(w, tok.occ);
    Cleared(w, a);
    if FromRun(tok.status) != w.tables.occs[tok.occ].status {
      ReachedLinked(w, a, tok.occ, FromRun(tok.status), now);
    }
  }

  lemma FailStep(w: World, a: Id, now: int)
    requires Linked(w) && Enabled(w, TakeFail(a, now))
    ensures Linked(Next(w, TakeFail(a, now)))
  {
    var o := AgentOf(w, a).doing.value.occ;
    assert AgentOk(w, w.agents[a]) && TokenOk(w, Fail(o));
    assert RowOk(w, o);
    ReachedLinked(w, a, o, Failed, now);
  }

  lemma ListStep(w: World, a: Id, listed: seq<Listed>)
    requires Linked(w) && Enabled(w, ListOpen(a, listed))
    ensures Linked(Next(w, ListOpen(a, listed)))
  {
    forall i | 0 <= i < |listed| ensures ListedOk(w, listed[i]) { }
    PutLinked(w, a, Agent(listed, None));
  }

  // The listed head is taken off the queue.
  lemma HeadTaken(w: World, a: Id)
    requires Linked(w) && a in w.agents && w.agents[a].queue != [] && w.agents[a].doing.None?
    ensures var agent := w.agents[a];
      var rest := Put(w, a, agent.(queue := agent.queue[1..]));
      && Linked(rest) && ListedOk(w, agent.queue[0]) && RowOk(w, agent.queue[0].id)
      && Linked(Do(rest, a, None)) && Do(rest, a, None).agents == rest.agents
      && ReceiptOf(rest, agent.queue[0].id) == ReceiptOf(w, agent.queue[0].id)
  {
    var agent := w.agents[a];
    assert AgentOk(w, agent);
    var head := agent.queue[0];
    assert ListedOk(w, head);
    assert RowOk(w, head.id);
    assert AgentOk(w, agent.(queue := agent.queue[1..]));
    PutLinked(w, a, agent.(queue := agent.queue[1..]));
    var rest := Put(w, a, agent.(queue := agent.queue[1..]));
    assert ReceiptOf(rest, head.id) == ReceiptOf(w, head.id);
    Cleared(rest, a);
    assert Do(rest, a, None).agents == rest.agents;
  }

  lemma ExamineStep(w: World, a: Id, now: int)
    requires Linked(w) && Enabled(w, Examine(a, now))
    ensures Linked(Next(w, Examine(a, now)))
  {
    HeadTaken(w, a);
    var agent := w.agents[a];
    var head := agent.queue[0];
    var rest := Put(w, a, agent.(queue := agent.queue[1..]));
    match head.row.runId {
      case Some(run) =>
        PutLinked(w, a, Agent([], None));
        if run in w.journal.runs { Redo(rest, Do(rest, a, None), a, Some(Sync(head.id, w.journal.runs[run].status))); }
      case None =>
        match ReceiptOf(w, head.id) {
          case Some(run) => FoundLinked(rest, a, head.id, run);
          case None =>
            if head.row.status == Dispatching && head.row.createdAt < now - w.grace {
              Redo(rest, Do(rest, a, None), a, Some(Fail(head.id)));
            }
        }
    }
  }

  lemma JournalStep(w: World, batch: seq<J.Event>)
    requires Linked(w) && !MentionsSchedule(batch)
    ensures Linked(w.(journal := J.Commit(w.journal, batch)))
  {
    CommitAddsOthers(w.journal, batch);
    Inbound.CommitKeeps(w.journal, batch);
    OthersJournaled(w, J.Commit(w.journal, batch));
  }

  lemma CrashStep(w: World)
    requires Linked(w)
    ensures Linked(w.(agents := map[]))
  {
    var d := w.(agents := map[]);
    forall o | o in d.tables.occs ensures RowOk(d, o) { assert RowOk(w, o); }
  }

  // Every step keeps occurrences, receipts and runs linked.
  lemma StepLinked(w: World, s: Step)
    requires Linked(w) && Enabled(w, s)
    ensures Linked(Next(w, s))
  {
    match s {
      case Tick(to) => TickStep(w, to);
      case CreateSchedule(_, _, _, _) => EditStep(w, s);
      case LoadRow(_, _) => EditStep(w, s);
      case WriteRow(_, _, _) => EditStep(w, s);
      case ClaimDue(_, _, _, _) => ClaimStep(w, s);
      case RunNow(_, _, _, _) => ClaimStep(w, s);
      case Deliver(_, _, _, _) => DeliverStep(w, s);
      case Lookup(a) => LookupStep(w, a);
      case TakeAccept(a, now) => AcceptStep(w, a, now);
      case TakeSync(a, now) => SyncStep(w, a, now);
      case TakeFail(a, now) => FailStep(w, a, now);
      case ListOpen(a, listed) => ListStep(w, a, listed);
      case Examine(a, now) => ExamineStep(w, a, now);
      case Journal(batch) => JournalStep(w, batch);
      case Abandon(a) => PutLinked(w, a, Agent([], None));
      case Crash => CrashStep(w);
    }
  }

  lemma {:induction false} RunLinked(w: World, steps: seq<Step>, last: World)
    requires Linked(w) && IsRun(w, steps, last)
    ensures Linked(last)
    decreases |steps|
  {
    if steps != [] {
      StepLinked(w, steps[0]);
      RunLinked(Next(w, steps[0]), steps[1..], last);
    }
  }

  // Exactly-once dispatch over every run from an empty database, however late the dispatchers answer.
  lemma ExactlyOnce(w: World, steps: seq<Step>, last: World)
    requires Initial(w) && IsRun(w, steps, last)
    ensures NoDuplicates(last.dispatched)
    ensures InboundOk(last)
    ensures forall o :: o in last.tables.occs ==>
      && (last.tables.occs[o].runId.Some? ==> ReceiptOf(last, o) == last.tables.occs[o].runId)
      && (ReceiptOf(last, o).Some? ==> o in last.dispatched)
      && (last.tables.occs[o].status.Skipped? ==> o !in last.dispatched)
  {
    assert Linked(w);
    RunLinked(w, steps, last);
    forall o | o in last.tables.occs ensures RowOk(last, o) { }
  }

  // A dispatch that failed after its events committed is recovered: the same agent finds the receipt,
  // accepts its run and syncs with it, and the occurrence fails only if the run itself has.
  lemma CommittedDispatchRecovers(w: World, a: Id, now: int) returns (last: World)
    requires Linked(w) && a in w.agents && now <= w.clock
    requires w.agents[a].doing.Some? && w.agents[a].doing.value.Recover?
    requires var o := w.agents[a].doing.value.occ; o in w.tables.occs && ReceiptOf(w, o).Some?
    ensures IsRun(w, [Lookup(a), TakeAccept(a, now), TakeSync(a, now)], last)
    ensures var o := w.agents[a].doing.value.occ;
      var run := ReceiptOf(w, o).value;
      && run in w.journal.runs && o in last.tables.occs && last.tables.occs[o].runId == Some(run)
      && (var row, ended := last.tables.occs[o], w.journal.runs[run].status;
          && (row.status.Active? <==> ended.Active? || ended.Pending?)
          && (row.status.NeedsApproval? <==> ended.NeedsApproval?)
          && (row.status.Completed? <==> ended.Completed?)
          && (row.status.Interrupted? <==> ended.Interrupted?)
          && (row.status.Failed? <==> ended.Failed?))
  {
    var o := w.agents[a].doing.value.occ;
    var run := ReceiptOf(w, o).value;
    ReceiptRunFound(w.journal.inbound, w.tables.occs[o].Thread(), o);
    assert RowOk(w, o);
    LookupFinds(w, a, o, run);
    var one := Next(w, Lookup(a));
    AcceptThenSync(one, a, o, run, w.journal.runs[run].status, now);
    RunOfThree(w, Lookup(a), TakeAccept(a, now), TakeSync(a, now));
    last := Next(Next(one, TakeAccept(a, now)), TakeSync(a, now));
  }

  lemma LookupFinds(w: World, a: Id, o: Id, run: Id)
    requires AgentOf(w, a).doing == Some(Recover(o)) && o in w.tables.occs
    requires ReceiptOf(w, o) == Some(run) && run in w.journal.runs
    ensures Next(w, Lookup(a)) == Do(w, a, Some(Accept(o, run, Some(w.journal.runs[run].status))))
  {
  }

  lemma AcceptThenSync(w: World, a: Id, o: Id, run: Id, status: J.RunStatus, now: int)
    requires AgentOf(w, a).doing == Some(Accept(o, run, Some(status))) && Loads(w.tables, o) && now <= w.clock
    ensures Enabled(w, TakeAccept(a, now)) && Enabled(Next(w, TakeAccept(a, now)), TakeSync(a, now))
    ensures var last := Next(Next(w, TakeAccept(a, now)), TakeSync(a, now));
      o in last.tables.occs && last.tables.occs[o].runId == Some(run) && last.tables.occs[o].status == FromRun(status)
  {
    var two := Next(w, TakeAccept(a, now));
    assert AgentOf(two, a).doing == Some(Sync(o, status)) && Loads(two.tables, o);
    ReachFrame(two.tables, o, FromRun(status), now);
  }
}
