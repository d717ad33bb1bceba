/**
 The event journal and its projections. Appending a batch of events is one transaction: each event is
 inserted and folded into the tables, and an error anywhere rolls the whole batch back.
 */
module Journal {
  import opened Basics

  datatype RunStatus = Pending | Active | NeedsApproval | Completed | Interrupted | Failed {
    // The statuses under the partial unique index on root runs.
    predicate Open() { Pending? || Active? || NeedsApproval? }
    predicate Terminal() { !Open() }
  }

  datatype Run = Run(conversation: Id, parent: Option<Id>, status: RunStatus, inputTokens: int, outputTokens: int)

  datatype Receipt = Receipt(inputTokens: int, outputTokens: int)

  datatype RouteStatus = ActiveRoute | InactiveRoute | OtherRoute
  datatype RouteReason = NoReason | Replaced | Deactivated
  datatype Binding = Binding(conversation: Id, thread: Thread, session: Id,
                             status: RouteStatus, reason: RouteReason, replacedBy: Option<Id>)

  datatype SessionKey = FrontKey(conversation: Id) | WorkerKey(session: Id)

  // A connector together with one of its accounts; the scheduler dispatches on its own.
  datatype Channel = ScheduleLocal | Connector(account: Id)

  // A thread of a conversation; the scheduler names one after each slot, injectively.
  datatype Thread = Named(name: Id) | SlotThread(at: int)

  datatype InboundKey = InboundKey(conversation: Id, channel: Channel, thread: Thread, source: Id)
  datatype Inbound = Inbound(key: InboundKey, run: Id, session: Id, message: Id)

  datatype IntentStatus = IntentPending | IntentRetrying | IntentSent | IntentTerminal
  datatype Intent = Intent(status: IntentStatus, attempts: nat)

  datatype Payload =
    | RunStarted
    | TurnCompleted(inputTokens: int, outputTokens: int)
    | RunCompleted(inputTokens: int, outputTokens: int)
    | ApprovalRequested | RunResumed | RunInterrupted | RunFailed
    | SessionOpened(session: Id, key: SessionKey)
    | SessionMessageAdded(message: Id)
    | SessionBound(thread: Thread, session: Id, status: Option<RouteStatus>)
    | SessionUnbound(route: Id)
    | InboundRecorded(channel: Channel, thread: Thread, source: Id, run: Id, session: Id, message: Id)
    | RedriveRequested(intent: Id)
    | Undecodable  // a payload its projection cannot decode
    | NoProjection // a kind that changes none of these tables

  datatype Event = Event(id: Id, conversation: Id, run: Id, parent: Option<Id>, payload: Payload)

  datatype Error =
    | DuplicateEvent | DuplicateRun | OpenRootExists | DuplicateSession | DuplicateMessage
    | DuplicateInbound | NotRetryable | BadPayload

  datatype Db = Db(
    events: seq<Event>,           // unique on id
    runs: map<Id, Run>,           // unique on id; one open root run per conversation
    receipts: map<Id, Receipt>,   // unique on run id
    sessions: map<Id, SessionKey>, // id to key; unique on both
    messages: set<Id>,            // unique on id
    bindings: map<Id, Binding>,   // unique on id
    inbound: seq<Inbound>,        // unique on key, in insertion order
    intents: map<Id, Intent>)

  const EMPTY := Db([], map[], map[], map[], {}, map[], [], map[])

  predicate HasEvent(events: seq<Event>, id: Id) {
    exists i :: 0 <= i < |events| && events[i].id == id
  }

  predicate OtherOpenRoot(runs: map<Id, Run>, conversation: Id, run: Id) {
    exists r :: r in runs && r != run && runs[r].conversation == conversation
                && runs[r].parent.None? && runs[r].status.Open()
  }

  predicate HasInbound(rows: seq<Inbound>, key: InboundKey) {
    exists i :: 0 <= i < |rows| && rows[i].key == key
  }

  // `UPDATE runs SET status = ?`: no row is no error, and the unique index guards an open root.
  function SetStatus(db: Db, run: Id, status: RunStatus): Result<Db, Error> {
    if run !in db.runs then Ok(db)
    else if status.Open() && db.runs[run].parent.None? && OtherOpenRoot(db.runs, db.runs[run].conversation, run) then
      Err(OpenRootExists)
    else
      Ok(db.(runs := db.runs[run := db.runs[run].(status := status)]))
  }

  // Every binding of the thread that is active gives way to the new one.
  function Replace(bindings: map<Id, Binding>, conversation: Id, thread: Thread, route: Id): map<Id, Binding> {
    map b | b in bindings ::
      var row := bindings[b];
      if row.conversation == conversation && row.thread == thread && row.status == ActiveRoute then
        row.(status := InactiveRoute, reason := Replaced, replacedBy := Some(route))
      else
        row
  }

  function Project(db: Db, e: Event): Result<Db, Error> {
    match e.payload
    case RunStarted =>
      if e.run in db.runs then Err(DuplicateRun)
      else if e.parent.None? && OtherOpenRoot(db.runs, e.conversation, e.run) then Err(OpenRootExists)
      else Ok(db.(runs := db.runs[e.run := Run(e.conversation, e.parent, Active, 0, 0)]))
    case TurnCompleted(i, o) =>
      if e.run !in db.runs then Ok(db) else
      var row := db.runs[e.run];
      Ok(db.(runs := db.runs[e.run := row.(inputTokens := row.inputTokens + i, outputTokens := row.outputTokens + o)]))
    case RunCompleted(i, o) =>
      (match SetStatus(db, e.run, Completed)
       case Err(error) => Err(error)
       case Ok(d) => Ok(d.(receipts := d.receipts[e.run := Receipt(i, o)])))
    case ApprovalRequested => SetStatus(db, e.run, NeedsApproval)
    case RunResumed => SetStatus(db, e.run, Active)
    case RunInterrupted => SetStatus(db, e.run, Interrupted)
    case RunFailed => SetStatus(db, e.run, Failed)
    case SessionOpened(session, key) =>
      if session in db.sessions || key in db.sessions.Values then Err(DuplicateSession)
      else Ok(db.(sessions := db.sessions[session := key]))
    case SessionMessageAdded(message) =>
      if message in db.messages then Err(DuplicateMessage)
      else Ok(db.(messages := db.messages + {message}))
    case SessionBound(thread, session, status) =>
      var rows := Replace(db.bindings, e.conversation, thread, e.id);
      var column := if status.None? then ActiveRoute else status.value;
      Ok(db.(bindings := rows[e.id := Binding(e.conversation, thread, session, column, NoReason, None)]))
    case SessionUnbound(route) =>
      if route in db.bindings && db.bindings[route].status == ActiveRoute then
        var row := db.bindings[route];
        Ok(db.(bindings := db.bindings[route := row.(status := InactiveRoute, reason := Deactivated, replacedBy := None)]))
      else
        Ok(db)
    case InboundRecorded(channel, thread, source, run, session, message) =>
      var key := InboundKey(e.conversation, channel, thread, source);
      if HasInbound(db.inbound, key) then Err(DuplicateInbound)
      else Ok(db.(inbound := db.inbound + [Inbound(key, run, session, message)]))
    case RedriveRequested(intent) =>
      if intent in db.intents && db.intents[intent].status == IntentTerminal then
        Ok(db.(intents := db.intents[intent := Intent(IntentPending, 0)]))
      else
        Err(NotRetryable)
    case Undecodable => Err(BadPayload)
    case NoProjection => Ok(db)
  }

  function AppendOne(db: Db, e: Event): Result<Db, Error> {
    if HasEvent(db.events, e.id) then Err(DuplicateEvent)
    else Project(db.(events := db.events + [e]), e)
  }

  // The transaction: the new tables, or the error of the first event that fails.
  function Append(db: Db, batch: seq<Event>): Result<Db, Error>
    decreases |batch|
  {
    if batch == [] then Ok(db) else
    match AppendOne(db, batch[0])
    case Err(error) => Err(error)
    case Ok(d) => Append(d, batch[1..])
  }

  // What is in the database after the transaction, committed or rolled back.
  function Commit(db: Db, batch: seq<Event>): Db {
    match Append(db, batch) case Err(_) => db case Ok(d) => d
  }

  // Batches committed one after the other, each on its own.
  function CommitAll(db: Db, batches: seq<seq<Event>>): Db
    decreases |batches|
  {
    if batches == [] then db else CommitAll(Commit(db, batches[0]), batches[1..])
  }

  // Every database the journal can produce: batches in order, the failed ones leaving no trace.
  function Replay(batches: seq<seq<Event>>): Db {
    if batches == [] then EMPTY
    else Commit(Replay(batches[..|batches| - 1]), batches[|batches| - 1])
  }

  class ConversationStore {
    var db: Db

    constructor ()
      ensures db == EMPTY
    {
      db := EMPTY;
    }

    method AppendEvents(batch: seq<Event>) returns (r: Result<(), Error>)
      modifies this
      ensures db == Commit(old(db), batch)
      ensures match Append(old(db), batch)
              case Ok(_) => r == Ok(())
              case Err(error) => r == Err(error)
    {
      var saved := db;
      var i := 0;
      assert batch[0..] == batch;
      while i < |batch|
        invariant 0 <= i <= |batch|
        invariant saved == old(db)
        invariant Append(saved, batch) == Append(db, batch[i..])
      {
        assert batch[i..][1..] == batch[i + 1..];
        match AppendOne(db, batch[i]) {
          case Err(error) =>
            db := saved;
            return Err(error);
          case Ok(next) =>
            db := next;
        }
        i := i + 1;
      }
      r := Ok(());
    }

    // What others commit in the meantime.
    method CommitBatches(batches: seq<seq<Event>>)
      modifies this
      ensures db == CommitAll(old(db), batches)
    {
      for i := 0 to |batches|
        invariant CommitAll(db, batches[i..]) == CommitAll(old(db), batches)
      {
        assert batches[i..][1..] == batches[i + 1..];
        var _ := AppendEvents(batches[i]);
      }
    }
  }

  // A batch is appended event by event.
  lemma {:induction false} AppendConcat(db: Db, a: seq<Event>, b: seq<Event>)
    ensures Append(db, a + b) == match Append(db, a) case Err(error) => Err(error) case Ok(d) => Append(d, b)
    decreases |a|
  {
    if a == [] {
      assert a + b == b;
    } else {
      assert (a + b)[1..] == a[1..] + b;
      match AppendOne(db, a[0]) {
        case Err(_) =>
        case Ok(d) => AppendConcat(d, a[1..], b);
      }
    }
  }

  lemma AppendSingle(db: Db, e: Event)
    ensures Append(db, [e]) == AppendOne(db, e)
  {
    assert [e][1..] == [];
  }

  /// What an event does to the tables

  // Another root run of the conversation is pending, active or waiting for approval.
  lemma OtherOpenRootIff(runs: map<Id, Run>, conversation: Id, run: Id)
    ensures OtherOpenRoot(runs, conversation, run) <==>
      exists r :: r in runs && r != run && runs[r].conversation == conversation && runs[r].parent == None
                  && runs[r].status in {Pending, Active, NeedsApproval}
  {
    if OtherOpenRoot(runs, conversation, run) {
      var r :| r in runs && r != run && runs[r].conversation == conversation && runs[r].parent.None? && runs[r].status.Open();
      assert runs[r].status in {Pending, Active, NeedsApproval};
    }
  }

  // A run starts active and empty unless it is there, or it is a root beside an open one; turns add up; the
  // other kinds set the status they name, which only an open root beside another one is refused, and the end
  // of a run leaves its receipt.
  lemma RunEvents(db: Db, e: Event)
    ensures var blocked := e.run in db.runs && db.runs[e.run].parent.None?
                           && OtherOpenRoot(db.runs, db.runs[e.run].conversation, e.run);
      var there := e.run in db.runs;
      match e.payload
      case RunStarted =>
        Project(db, e) ==
          if there then Err(DuplicateRun)
          else if e.parent.None? && OtherOpenRoot(db.runs, e.conversation, e.run) then Err(OpenRootExists)
          else Ok(db.(runs := db.runs[e.run := Run(e.conversation, e.parent, Active, 0, 0)]))
      case TurnCompleted(i, o) =>
        Project(db, e) == Ok(if there then db.(runs := db.runs[e.run := db.runs[e.run].(
          inputTokens := db.runs[e.run].inputTokens + i, outputTokens := db.runs[e.run].outputTokens + o)]) else db)
      case RunCompleted(i, o) =>
        Project(db, e) == Ok(db.(
          runs := if there then db.runs[e.run := db.runs[e.run].(status := Completed)] else db.runs,
          receipts := db.receipts[e.run := Receipt(i, o)]))
      case ApprovalRequested =>
        Project(db, e) == if blocked then Err(OpenRootExists)
          else Ok(if there then db.(runs := db.runs[e.run := db.runs[e.run].(status := NeedsApproval)]) else db)
      case RunResumed =>
        Project(db, e) == if blocked then Err(OpenRootExists)
          else Ok(if there then db.(runs := db.runs[e.run := db.runs[e.run].(status := Active)]) else db)
      case RunInterrupted =>
        Project(db, e) == Ok(if there then db.(runs := db.runs[e.run := db.runs[e.run].(status := Interrupted)]) else db)
      case RunFailed =>
        Project(db, e) == Ok(if there then db.(runs := db.runs[e.run := db.runs[e.run].(status := Failed)]) else db)
      case _ => Project(db, e).Ok? ==> Project(db, e).value.runs == db.runs && Project(db, e).value.receipts == db.receipts
  {
  }

  // The other kinds: unique keys refuse, a binding replaces the active ones of its thread, an unbinding ends an
  // active route, and only a terminal intent is put back.
  lemma TableEvents(db: Db, e: Event)
    ensures match e.payload
      case SessionOpened(session, key) =>
        Project(db, e) == if session in db.sessions || exists s :: s in db.sessions && db.sessions[s] == key then Err(DuplicateSession)
                          else Ok(db.(sessions := db.sessions[session := key]))
      case SessionMessageAdded(message) =>
        Project(db, e) == if message in db.messages then Err(DuplicateMessage) else Ok(db.(messages := db.messages + {message}))
      case SessionBound(thread, session, status) =>
        Project(db, e).Ok? && Project(db, e).value == db.(bindings := Project(db, e).value.bindings)
        && Project(db, e).value.bindings.Keys == db.bindings.Keys + {e.id}
        && Project(db, e).value.bindings[e.id]
           == Binding(e.conversation, thread, session, if status.Some? then status.value else ActiveRoute, NoReason, None)
        && forall b :: b in db.bindings && b != e.id ==>
             var row := db.bindings[b];
             Project(db, e).value.bindings[b] ==
               if row.conversation == e.conversation && row.thread == thread && row.status == ActiveRoute then
                 row.(status := InactiveRoute, reason := Replaced, replacedBy := Some(e.id)) else row
      case SessionUnbound(route) =>
        Project(db, e) == Ok(if route in db.bindings && db.bindings[route].status == ActiveRoute then
          db.(bindings := db.bindings[route := db.bindings[route].(status := InactiveRoute, reason := Deactivated, replacedBy := None)])
          else db)
      case InboundRecorded(channel, thread, source, run, session, message) =>
        var key := InboundKey(e.conversation, channel, thread, source);
        Project(db, e) == if exists i :: 0 <= i < |db.inbound| && db.inbound[i].key == key then Err(DuplicateInbound)
                          else Ok(db.(inbound := db.inbound + [Inbound(key, run, session, message)]))
      case RedriveRequested(intent) =>
        Project(db, e) == if intent in db.intents && db.intents[intent].status == IntentTerminal then
          Ok(db.(intents := db.intents[intent := Intent(IntentPending, 0)])) else Err(NotRetryable)
      case Undecodable => Project(db, e) == Err(BadPayload)
      case NoProjection => Project(db, e) == Ok(db)
      case _ => true
  {
    if e.payload.SessionOpened? && e.payload.key in db.sessions.Values {
      var s :| s in db.sessions && db.sessions[s] == e.payload.key;
    }
  }

  // An event under an id that is taken is refused; any other is journaled last, if its projection succeeds.
  lemma AppendsOne(db: Db, e: Event)
    ensures AppendOne(db, e) ==
      if exists i :: 0 <= i < |db.events| && db.events[i].id == e.id then Err(DuplicateEvent)
      else Project(db.(events := db.events + [e]), e)
  {
  }

  lemma SetStatusFrame(db: Db, run: Id, status: RunStatus)
    requires SetStatus(db, run, status).Ok?
    ensures var d := SetStatus(db, run, status).value; d == db.(runs := d.runs) && d.runs.Keys == db.runs.Keys
  {
  }

  // One event is journaled last; runs and receipts of messages are only ever added.
  lemma AppendOneFrame(db: Db, e: Event)
    requires AppendOne(db, e).Ok?
    ensures var d := AppendOne(db, e).value;
      && d.events == db.events + [e]
      && db.runs.Keys <= d.runs.Keys
      && (if e.payload.InboundRecorded? then
            var key := InboundKey(e.conversation, e.payload.channel, e.payload.thread, e.payload.source);
            !HasInbound(db.inbound, key)
            && d.inbound == db.inbound + [Inbound(key, e.payload.run, e.payload.session, e.payload.message)]
          else
            d.inbound == db.inbound)
  {
    var next := db.(events := db.events + [e]);
    assert AppendOne(db, e) == Project(next, e);
    match e.payload {
      case RunCompleted(_, _) => SetStatusFrame(next, e.run, Completed);
      case ApprovalRequested => SetStatusFrame(next, e.run, NeedsApproval);
      case RunResumed => SetStatusFrame(next, e.run, Active);
      case RunInterrupted => SetStatusFrame(next, e.run, Interrupted);
      case RunFailed => SetStatusFrame(next, e.run, Failed);
      case _ =>
    }
  }

  // A committed batch is journaled whole and in order after everything before it.
  lemma {:induction false} AppendExtends(db: Db, batch: seq<Event>)
    ensures Append(db, batch).Ok? ==> Append(db, batch).value.events == db.events + batch
    decreases |batch|
  {
    if batch == [] {
      assert db.events + batch == db.events;
    } else {
      match AppendOne(db, batch[0]) {
        case Err(_) =>
        case Ok(d) =>
          AppendOneFrame(db, batch[0]);
          AppendExtends(d, batch[1..]);
          assert db.events + [batch[0]] + batch[1..] == db.events + batch;
      }
    }
  }
}
