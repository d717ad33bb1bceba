/**
 The scheduler as a concurrent system: agents (the scheduler loop, and callers that run a schedule now)
 take one database transaction at a time, any interleaving is possible, the runtime journals whatever
 it likes in between, and a crash forgets every agent. Claim, delivery and acceptance of an occurrence
 are three separate steps.
 */
module SchedulerWorld {
  import opened Basics
  import opened Slots
  import opened SchedulerStore
  import J = Journal
  import Inbound

  // What an agent has decided to do next; lost in a crash.
  datatype Token =
    | Dispatch(occ: Id)                                        // call the dispatcher
    | Recover(occ: Id)                                         // the dispatcher failed: look for a receipt
    | Accept(occ: Id, run: Id, sync: Option<J.RunStatus>)      // mark accepted, then sync if recovered
    | Sync(occ: Id, status: J.RunStatus)                       // sync with the run status that was loaded
    | Fail(occ: Id)                                            // no receipt: mark failed

  // An open occurrence as it was when it was listed.
  datatype Listed = Listed(id: Id, row: Occurrence)

  datatype Agent = Agent(queue: seq<Listed>, doing: Option<Token>)

  // A schedule's row as an edit loaded it, and when.
  datatype Loaded = Loaded(id: Id, row: Schedule, at: int)

  // `edits` are the edits between their load and their write, by whoever makes them, in any process.
  // `order`, `manual`, `dispatched` and `writes` record what happened; no step reads them.
  datatype World = World(
    clock: int, grace: nat, tables: Tables, journal: J.Db, agents: map<Id, Agent>, edits: map<Id, Loaded>,
    order: map<Id, nat>,                  // occurrences in the order they were claimed
    manual: set<Id>,                      // the ones claimed by RunNow
    dispatched: seq<Id>,                  // the dispatcher's calls
    writes: map<Id, seq<OccStatus>>)      // the summaries written to each schedule

  datatype Step =
    | Tick(to: int)
    | CreateSchedule(id: Id, spec: Spec, enabled: bool, now: int)
    | LoadRow(editor: Id, id: Id)
    | WriteRow(editor: Id, edit: Edit, now: int)
    | ClaimDue(agent: Id, id: Id, now: int, occ: Id)
    | RunNow(agent: Id, id: Id, now: int, occ: Id)
    | Deliver(agent: Id, plan: Inbound.Plan, refused: bool, lateError: bool)
    | Lookup(agent: Id)
    | TakeAccept(agent: Id, now: int)
    | TakeSync(agent: Id, now: int)
    | TakeFail(agent: Id, now: int)
    | ListOpen(agent: Id, listed: seq<Listed>)
    | Examine(agent: Id, now: int)
    | Journal(batch: seq<J.Event>)
    | Abandon(agent: Id)
    | Crash

  function AgentOf(w: World, a: Id): Agent {
    if a in w.agents then w.agents[a] else Agent([], None)
  }

  function Put(w: World, a: Id, agent: Agent): World {
    w.(agents := w.agents[a := agent])
  }

  function Do(w: World, a: Id, doing: Option<Token>): World {
    Put(w, a, AgentOf(w, a).(doing := doing))
  }

  function Edited(w: World, r: Result<Tables, StoreError>): World {
    if r.Ok? then w.(tables := r.value) else w
  }

  // The receipt of an occurrence: the run its message started.
  function ReceiptOf(w: World, o: Id): Option<Id>
    requires o in w.tables.occs
  {
    ReceiptRun(w.journal.inbound, w.tables.occs[o].Thread(), o)
  }

  // The occurrence's row after a status was reached, with the summary recorded.
  function Reached(w: World, o: Id, status: OccStatus, now: int): World
    requires Loads(w.tables, o)
  {
    var id := w.tables.occs[o].schedule;
    var log := if id in w.writes then w.writes[id] else [];
    var writes := if status.Finished() || status == NeedsApproval then w.writes[id := log + [status]] else w.writes;
    w.(tables := Reach(w.tables, o, status, now), writes := writes)
  }

  predicate MentionsSchedule(batch: seq<J.Event>) {
    exists i :: 0 <= i < |batch| && batch[i].payload.InboundRecorded? && batch[i].payload.channel.ScheduleLocal?
  }

  // A listing of the open occurrences.
  ghost predicate Lists(t: Tables, listed: seq<Listed>) {
    && (forall i :: 0 <= i < |listed| ==>
          listed[i].id in t.occs && listed[i].row == t.occs[listed[i].id] && listed[i].row.status.Open())
    && (forall i, j :: 0 <= i < j < |listed| ==> listed[i].id != listed[j].id)
  }

  ghost predicate Enabled(w: World, s: Step) {
    match s
    case Tick(to) => w.clock <= to
    case CreateSchedule(_, _, _, now) => now <= w.clock
    case LoadRow(e, id) => e !in w.edits && id in w.tables.schedules
    case WriteRow(e, edit, now) =>
      // An update reads the clock after its load, the others before it; only what lacks a next run is repaired.
      && e in w.edits && now <= w.clock
      && (if edit.UpdateEdit? then w.edits[e].at <= now else now <= w.edits[e].at)
      && (edit.RepairEdit? ==> MissingNext(w.edits[e].row))
    case ClaimDue(a, _, now, occ) => AgentOf(w, a).doing.None? && now <= w.clock && occ !in w.tables.occs
    case RunNow(a, _, now, occ) => AgentOf(w, a).doing.None? && now <= w.clock && occ !in w.tables.occs
    case Deliver(a, plan, _, _) =>
      // However late: neither the claim nor the call looks at the time.
      && AgentOf(w, a).doing.Some? && AgentOf(w, a).doing.value.Dispatch?
      && (var o := AgentOf(w, a).doing.value.occ;
          && o in w.tables.occs
          && plan.channel.ScheduleLocal? && plan.source == Some(o) && plan.thread == w.tables.occs[o].Thread())
      && Inbound.FreshFor(w.journal, plan)
    case Lookup(a) =>
      AgentOf(w, a).doing.Some? && AgentOf(w, a).doing.value.Recover? && AgentOf(w, a).doing.value.occ in w.tables.occs
    case TakeAccept(a, now) => AgentOf(w, a).doing.Some? && AgentOf(w, a).doing.value.Accept? && now <= w.clock
    case TakeSync(a, now) => AgentOf(w, a).doing.Some? && AgentOf(w, a).doing.value.Sync? && now <= w.clock
    case TakeFail(a, now) => AgentOf(w, a).doing.Some? && AgentOf(w, a).doing.value.Fail? && now <= w.clock
    case ListOpen(a, listed) => AgentOf(w, a) == Agent([], None) && Lists(w.tables, listed)
    case Examine(a, now) => AgentOf(w, a).doing.None? && AgentOf(w, a).queue != [] && now <= w.clock
    case Journal(batch) => !MentionsSchedule(batch)
    case Abandon(_) => true
    case Crash => true
  }

  ghost function Next(w: World, s: Step): World
    requires Enabled(w, s)
  {
    match s
    case Tick(to) => w.(clock := to)
    case CreateSchedule(id, spec, enabled, now) => Edited(w, Created(w.tables, id, spec, enabled, now))
    case LoadRow(e, id) => w.(edits := w.edits[e := Loaded(id, w.tables.schedules[id], w.clock)])
    case WriteRow(e, edit, now) =>
      var l := w.edits[e];
      Edited(w.(edits := w.edits - {e}), WriteEdit(w.tables, l.id, l.row, edit, now))
    case ClaimDue(a, id, now, occ) =>
      var (t, claim) := SchedulerStore.ClaimDue(w.tables, id, now, occ);
      Entered(w, a, t, claim, occ)
    case RunNow(a, id, now, occ) =>
      var (t, claim) := ClaimManual(w.tables, id, now, occ);
      Entered(w.(manual := if occ in t.occs then w.manual + {occ} else w.manual), a, t, claim, occ)
    case Deliver(a, plan, refused, lateError) => Delivered(w, a, plan, refused, lateError)
    case Lookup(a) =>
      var o := AgentOf(w, a).doing.value.occ;
      (match ReceiptOf(w, o)
       case None => Do(w, a, Some(Fail(o)))
       case Some(run) => Found(w, a, o, run))
    case TakeAccept(a, now) =>
      var tok := AgentOf(w, a).doing.value;
      Do(w.(tables := MarkAccepted(w.tables, tok.occ, tok.run, now)), a,
         if tok.sync.Some? then Some(Sync(tok.occ, tok.sync.value)) else None)
    case TakeSync(a, now) =>
      var tok := AgentOf(w, a).doing.value;
      if !Loads(w.tables, tok.occ) then Put(w, a, Agent([], None))
      else if FromRun(tok.status) == w.tables.occs[tok.occ].status then Do(w, a, None)
      else Do(Reached(w, tok.occ, FromRun(tok.status), now), a, None)
    case TakeFail(a, now) =>
      var o := AgentOf(w, a).doing.value.occ;
      if !Loads(w.tables, o) then Put(w, a, Agent([], None))
      else Do(Reached(w, o, Failed, now), a, None)
    case ListOpen(a, listed) => Put(w, a, Agent(listed, None))
    case Examine(a, now) => Examined(w, a, now)
    case Journal(batch) => w.(journal := J.Commit(w.journal, batch))
    case Abandon(a) => Put(w, a, Agent([], None))
    case Crash => w.(agents := map[])
  }

  // A claim transaction has run; a claimed occurrence is dispatched next by the same agent.
  function Entered(w: World, a: Id, t: Tables, claim: Claim, occ: Id): World {
    var next := w.(tables := t, order := if occ in t.occs then w.order[occ := |w.order|] else w.order);
    if claim.Claimed? then Do(next, a, Some(Dispatch(occ))) else next
  }

  // The dispatcher's call: the inbound batch, then an error that may still come after its commit.
  function Delivered(w: World, a: Id, plan: Inbound.Plan, refused: bool, lateError: bool): World
    requires Inbound.FreshFor(w.journal, plan) && plan.source.Some?
  {
    var o := plan.source.value;
    var (journal, reply) := Inbound.Receive(w.journal, plan, refused);
    var next := w.(journal := journal, dispatched := w.dispatched + [o]);
    Do(next, a, Some(match reply
                     case Started(run) => if lateError then Recover(o) else Accept(o, run, None)
                     case Existing(run) => Accept(o, run, None)
                     case _ => Recover(o)))
  }

  // The run of a receipt is loaded; without its row the agent returns with an error.
  function Found(w: World, a: Id, o: Id, run: Id): World {
    if run in w.journal.runs then Do(w, a, Some(Accept(o, run, Some(w.journal.runs[run].status))))
    else Put(w, a, Agent([], None))
  }

  // One turn of the reconciliation loop, on the row as it was listed.
  function Examined(w: World, a: Id, now: int): World
    requires AgentOf(w, a).queue != []
  {
    var head := AgentOf(w, a).queue[0];
    var rest := Put(w, a, AgentOf(w, a).(queue := AgentOf(w, a).queue[1..]));
    match head.row.runId
    case Some(run) =>
      if run in w.journal.runs then Do(rest, a, Some(Sync(head.id, w.journal.runs[run].status)))
      else Put(w, a, Agent([], None))
    case None =>
      match ReceiptRun(w.journal.inbound, head.row.Thread(), head.id)
      case Some(run) => Found(rest, a, head.id, run)
      case None =>
        if head.row.status == Dispatching && head.row.createdAt < now - w.grace then Do(rest, a, Some(Fail(head.id)))
        else rest
  }

  lemma ExaminedTouches(w: World, a: Id, now: int)
    requires AgentOf(w, a).queue != []
    ensures var d := Examined(w, a, now); d == w.(agents := d.agents) && d.agents.Keys == w.agents.Keys + {a}
  {
  }

  /// Runs

  ghost predicate Initial(w: World) {
    && w.tables == Tables(map[], map[]) && w.journal.inbound == [] && w.agents == map[] && w.edits == map[]
    && w.order == map[] && w.manual == {} && w.dispatched == [] && w.writes == map[]
  }

  ghost predicate IsRun(w: World, steps: seq<Step>, last: World)
    decreases |steps|
  {
    if steps == [] then w == last
    else Enabled(w, steps[0]) && IsRun(Next(w, steps[0]), steps[1..], last)
  }

  lemma RunOfThree(w: World, a: Step, b: Step, c: Step)
    requires Enabled(w, a) && Enabled(Next(w, a), b) && Enabled(Next(Next(w, a), b), c)
    ensures IsRun(w, [a, b, c], Next(Next(Next(w, a), b), c))
  {
    var last := Next(Next(Next(w, a), b), c);
    assert [a, b, c][1..] == [b, c] && [b, c][1..] == [c] && [c][1..] == [];
    assert IsRun(last, [], last);
    assert IsRun(Next(Next(w, a), b), [c], last);
    assert IsRun(Next(w, a), [b, c], last);
  }

  /// The invariant that links occurrences, receipts and runs

  ghost predicate TokenOk(w: World, tok: Token) {
    && tok.occ in w.tables.occs
    && w.tables.occs[tok.occ].status != Skipped
    && (match tok
        case Dispatch(o) => ReceiptOf(w, o).None? && o !in w.dispatched
        case Recover(o) => o in w.dispatched
        case Accept(o, run, _) => ReceiptOf(w, o) == Some(run)
        case Sync(o, _) => ReceiptOf(w, o).Some? && w.tables.occs[o].runId == ReceiptOf(w, o)
        case Fail(_) => true)
  }

  ghost predicate ListedOk(w: World, l: Listed) {
    && l.id in w.tables.occs
    && (var row := w.tables.occs[l.id];
        && row.status != Skipped
        && l.row.slot == row.slot && l.row.createdAt == row.createdAt
        && (l.row.runId.Some? ==> row.runId == l.row.runId))
  }

  ghost predicate AgentOk(w: World, agent: Agent) {
    && (agent.doing.Some? ==> TokenOk(w, agent.doing.value))
    && (forall i :: 0 <= i < |agent.queue| ==> ListedOk(w, agent.queue[i]))
  }

  ghost predicate RowOk(w: World, o: Id)
    requires o in w.tables.occs
  {
    var row := w.tables.occs[o];
    && row.schedule in w.tables.schedules
    && row.createdAt <= w.clock
    && (row.runId.Some? ==> ReceiptOf(w, o) == row.runId)
    && (ReceiptOf(w, o).Some? ==> o in w.dispatched)
    && (row.status.Active? || row.status.NeedsApproval? || row.status.Completed? || row.status.Interrupted? ==> row.runId.Some?)
    && (row.status.Dispatching? || row.status.Skipped? ==> row.runId.None?)
    && (row.status.Skipped? ==> o !in w.dispatched)
  }

  predicate Ours(row: J.Inbound) {
    row.key.channel.ScheduleLocal?
  }

  ghost predicate InboundOk(w: World) {
    var rows := w.journal.inbound;
    && (forall i :: 0 <= i < |rows| && Ours(rows[i]) ==>
          && rows[i].key.source in w.tables.occs
          && rows[i].key.thread == w.tables.occs[rows[i].key.source].Thread()
          && rows[i].key.source in w.dispatched
          && rows[i].run in w.journal.runs)
    && (forall i, j :: 0 <= i < j < |rows| && Ours(rows[i]) && Ours(rows[j]) ==>
          rows[i].key.source != rows[j].key.source && rows[i].run != rows[j].run)
  }

  ghost predicate NoDuplicates(s: seq<Id>) {
    forall i, j :: 0 <= i < j < |s| ==> s[i] != s[j]
  }

  ghost predicate Dispatching1(w: World) {
    forall a, b :: a in w.agents && b in w.agents && a != b
      && w.agents[a].doing.Some? && w.agents[a].doing.value.Dispatch?
      && w.agents[b].doing.Some? && w.agents[b].doing.value.Dispatch?
      ==> w.agents[a].doing.value.occ != w.agents[b].doing.value.occ
  }

  ghost predicate Linked(w: World) {
    && (forall o :: o in w.tables.occs ==> RowOk(w, o))
    && (forall a :: a in w.agents ==> AgentOk(w, w.agents[a]))
    && InboundOk(w)
    && NoDuplicates(w.dispatched)
    && (forall o :: o in w.dispatched ==> o in w.tables.occs)
    && Dispatching1(w)
  }

  /// Receipts under growth of the journal

  lemma {:induction false} ReceiptRunFound(rows: seq<J.Inbound>, thread: J.Thread, source: Id)
    ensures match ReceiptRun(rows, thread, source)
            case Some(run) =>
              exists i :: 0 <= i < |rows| && Ours(rows[i]) && rows[i].key.thread == thread
                && rows[i].key.source == source && rows[i].run == run
            case None =>
              forall i :: 0 <= i < |rows| && Ours(rows[i]) && rows[i].key.thread == thread ==> rows[i].key.source != source
  {
    if rows != [] {
      ReceiptRunFound(rows[..|rows| - 1], thread, source);
    }
  }

  // Only other channels' receipts were added.
  predicate AddsOthers(rows: seq<J.Inbound>, all: seq<J.Inbound>) {
    rows <= all && forall i :: |rows| <= i < |all| ==> !Ours(all[i])
  }

  lemma {:induction false} ReceiptRunGrows(rows: seq<J.Inbound>, all: seq<J.Inbound>, thread: J.Thread, source: Id)
    requires AddsOthers(rows, all)
    ensures ReceiptRun(all, thread, source) == ReceiptRun(rows, thread, source)
    decreases |all|
  {
    if |all| == |rows| {
      assert all == rows;
    } else {
      ReceiptRunGrows(rows, all[..|all| - 1], thread, source);
    }
  }

  lemma AppendOneAddsOthers(db: J.Db, e: J.Event)
    requires J.AppendOne(db, e).Ok? && !MentionsSchedule([e])
    ensures AddsOthers(db.inbound, J.AppendOne(db, e).value.inbound)
  {
    J.AppendOneFrame(db, e);
    assert [e][0] == e;
  }

  // Journaling anything but a scheduler's message adds no scheduler's receipt.
  lemma {:induction false} CommitAddsOthers(db: J.Db, batch: seq<J.Event>)
    requires !MentionsSchedule(batch)
    ensures AddsOthers(db.inbound, J.Commit(db, batch).inbound)
    decreases |batch|
  {
    if batch != [] && J.AppendOne(db, batch[0]).Ok? {
      assert forall i :: 0 <= i < |batch| - 1 ==> batch[1..][i] == batch[i + 1];
      AppendOneAddsOthers(db, batch[0]);
      var one := J.AppendOne(db, batch[0]).value;
      assert J.Append(db, batch) == J.Append(one, batch[1..]);
      CommitAddsOthers(one, batch[1..]);
    }
  }
}
