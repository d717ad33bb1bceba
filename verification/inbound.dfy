/**
 Receiving an inbound message: one batch journals the run, its session, binding, message and receipt.
 The receipt's unique key makes a repeated message harmless.
 */
module Inbound {
  import opened Basics
  import opened Journal

  // Everything the batch is built from. The ids are drawn fresh by the caller.
  datatype Plan = Plan(
    conversation: Id, channel: Channel, thread: Thread, source: Option<Id>,
    session: Id, createSession: bool, createBinding: bool,
    run: Id, message: Id, ids: seq<Id>)
  {
    function Key(): InboundKey
      requires source.Some?
    {
      InboundKey(conversation, channel, thread, source.value)
    }
  }

  predicate WellFormed(p: Plan) {
    |p.ids| == 5 && forall i, j :: 0 <= i < j < 5 ==> p.ids[i] != p.ids[j]
  }

  predicate FreshFor(db: Db, p: Plan) {
    && WellFormed(p)
    && (forall i :: 0 <= i < 5 ==> !HasEvent(db.events, p.ids[i]))
    && p.run !in db.runs && p.message !in db.messages
    && (p.createSession ==> p.session !in db.sessions)
  }

  function RunEvent(p: Plan): Event
    requires WellFormed(p)
  {
    Event(p.ids[0], p.conversation, p.run, None, RunStarted)
  }

  function OpenedEvents(p: Plan): seq<Event>
    requires WellFormed(p)
  {
    if p.createSession then [Event(p.ids[1], p.conversation, p.run, None, SessionOpened(p.session, FrontKey(p.conversation)))]
    else []
  }

  function BoundEvents(p: Plan): seq<Event>
    requires WellFormed(p)
  {
    if p.createBinding then [Event(p.ids[2], p.conversation, p.run, None, SessionBound(p.thread, p.session, Some(ActiveRoute)))]
    else []
  }

  function MessageEvent(p: Plan): Event
    requires WellFormed(p)
  {
    Event(p.ids[3], p.conversation, p.run, None, SessionMessageAdded(p.message))
  }

  function ReceiptEvents(p: Plan): seq<Event>
    requires WellFormed(p)
  {
    if p.source.Some? then
      [Event(p.ids[4], p.conversation, p.run, None,
             InboundRecorded(p.channel, p.thread, p.source.value, p.run, p.session, p.message))]
    else []
  }

  function Batch(p: Plan): seq<Event>
    requires WellFormed(p)
  {
    [RunEvent(p)] + (OpenedEvents(p) + (BoundEvents(p) + ([MessageEvent(p)] + ReceiptEvents(p))))
  }

  predicate Busy(db: Db, conversation: Id) {
    exists r :: r in db.runs && db.runs[r].conversation == conversation
                && db.runs[r].parent.None? && db.runs[r].status.Open()
  }

  // The tables after the batch has committed.
  function Recorded(db: Db, p: Plan): Db
    requires WellFormed(p)
  {
    var bound := if p.createBinding then
        Replace(db.bindings, p.conversation, p.thread, p.ids[2])
          [p.ids[2] := Binding(p.conversation, p.thread, p.session, ActiveRoute, NoReason, None)]
      else db.bindings;
    db.(events := db.events + Batch(p),
        runs := db.runs[p.run := Run(p.conversation, None, Active, 0, 0)],
        sessions := if p.createSession then db.sessions[p.session := FrontKey(p.conversation)] else db.sessions,
        bindings := bound,
        messages := db.messages + {p.message},
        inbound := if p.source.Some? then db.inbound + [Inbound(p.Key(), p.run, p.session, p.message)] else db.inbound)
  }

  // What the unique keys make of the batch, in the order its events are applied.
  function Outcome(db: Db, p: Plan): Result<Db, Error>
    requires WellFormed(p)
  {
    if Busy(db, p.conversation) then Err(OpenRootExists)
    else if p.createSession && FrontKey(p.conversation) in db.sessions.Values then Err(DuplicateSession)
    else if p.source.Some? && HasInbound(db.inbound, p.Key()) then Err(DuplicateInbound)
    else Ok(Recorded(db, p))
  }

  lemma HasEventConcat(a: seq<Event>, b: seq<Event>, id: Id)
    ensures HasEvent(a + b, id) <==> HasEvent(a, id) || HasEvent(b, id)
  {
    var all := a + b;
    if HasEvent(a, id) {
      var i :| 0 <= i < |a| && a[i].id == id;
      assert all[i].id == id;
    }
    if HasEvent(b, id) {
      var i :| 0 <= i < |b| && b[i].id == id;
      assert all[|a| + i].id == id;
    }
  }

  lemma BatchIds(p: Plan, id: Id)
    requires WellFormed(p) && id !in p.ids
    ensures !HasEvent(Batch(p), id)
  {
    var tail := [MessageEvent(p)] + ReceiptEvents(p);
    HasEventConcat([MessageEvent(p)], ReceiptEvents(p), id);
    HasEventConcat(BoundEvents(p), tail, id);
    HasEventConcat(OpenedEvents(p), BoundEvents(p) + tail, id);
    HasEventConcat([RunEvent(p)], OpenedEvents(p) + (BoundEvents(p) + tail), id);
  }

  lemma AppendOptional(db: Db, es: seq<Event>)
    requires |es| <= 1
    ensures Append(db, es) == if es == [] then Ok(db) else AppendOne(db, es[0])
  {
    if es != [] { AppendSingle(db, es[0]); assert es == [es[0]]; }
  }

  // The five stages of the batch, each stated on its own.
  lemma StartStage(db: Db, p: Plan)
    requires FreshFor(db, p)
    ensures AppendOne(db, RunEvent(p)) ==
      if Busy(db, p.conversation) then Err(OpenRootExists)
      else Ok(db.(events := db.events + [RunEvent(p)], runs := db.runs[p.run := Run(p.conversation, None, Active, 0, 0)]))
  {
    assert OtherOpenRoot(db.runs, p.conversation, p.run) <==> Busy(db, p.conversation);
  }

  lemma OpenedStage(db: Db, p: Plan)
    requires WellFormed(p) && !HasEvent(db.events, p.ids[1]) && p.session !in db.sessions
    requires p.createSession
    ensures AppendOne(db, OpenedEvents(p)[0]) ==
      if FrontKey(p.conversation) in db.sessions.Values then Err(DuplicateSession)
      else Ok(db.(events := db.events + OpenedEvents(p), sessions := db.sessions[p.session := FrontKey(p.conversation)]))
  {
  }

  lemma TailStages(db: Db, p: Plan)
    requires WellFormed(p) && p.message !in db.messages
    requires !HasEvent(db.events, p.ids[2]) && !HasEvent(db.events, p.ids[3]) && !HasEvent(db.events, p.ids[4])
    ensures var bound := Append(db, BoundEvents(p));
      bound.Ok? && Append(bound.value, [MessageEvent(p)] + ReceiptEvents(p)) ==
        if p.source.Some? && HasInbound(db.inbound, p.Key()) then Err(DuplicateInbound)
        else Ok(db.(events := db.events + (BoundEvents(p) + ([MessageEvent(p)] + ReceiptEvents(p))),
                    bindings := Recorded(db, p).bindings,
                    messages := db.messages + {p.message},
                    inbound := Recorded(db, p).inbound))
  {
    AppendOptional(db, BoundEvents(p));
    HasEventConcat(db.events, BoundEvents(p), p.ids[3]);
    HasEventConcat(db.events, BoundEvents(p), p.ids[4]);
    var bound := Append(db, BoundEvents(p)).value;
    assert bound.events == db.events + BoundEvents(p);
    AppendConcat(bound, [MessageEvent(p)], ReceiptEvents(p));
    AppendSingle(bound, MessageEvent(p));
    var said := AppendOne(bound, MessageEvent(p)).value;
    HasEventConcat(bound.events, [MessageEvent(p)], p.ids[4]);
    AppendOptional(said, ReceiptEvents(p));
    assert said.events + ReceiptEvents(p)
        == db.events + (BoundEvents(p) + ([MessageEvent(p)] + ReceiptEvents(p)));
    assert ReceiptEvents(p) == [] ==> said.events + ReceiptEvents(p) == said.events;
  }

  // A batch of fresh ids commits unless the conversation has an open root run, the session key is
  // taken, or the message was already recorded; the first of these that applies is the error.
  lemma BatchOutcome(db: Db, p: Plan)
    requires FreshFor(db, p)
    ensures Append(db, Batch(p)) == Outcome(db, p)
  {
    StartStage(db, p);
    var rest := OpenedEvents(p) + (BoundEvents(p) + ([MessageEvent(p)] + ReceiptEvents(p)));
    assert db.events + [RunEvent(p)] + [] == db.events + [RunEvent(p)];
    AppendConcat(db, [RunEvent(p)], rest);
    AppendSingle(db, RunEvent(p));
    if !Busy(db, p.conversation) {
      var started := AppendOne(db, RunEvent(p)).value;
      forall i | 1 <= i < 5 ensures !HasEvent(started.events, p.ids[i]) {
        HasEventConcat(db.events, [RunEvent(p)], p.ids[i]);
      }
      AppendConcat(started, OpenedEvents(p), BoundEvents(p) + ([MessageEvent(p)] + ReceiptEvents(p)));
      AppendOptional(started, OpenedEvents(p));
      if p.createSession { OpenedStage(started, p); }
      if Append(started, OpenedEvents(p)).Ok? {
        AfterOpened(db, started, p);
      }
    }
  }

  lemma AfterOpened(db: Db, started: Db, p: Plan)
    requires FreshFor(db, p) && !Busy(db, p.conversation)
    requires started == db.(events := db.events + [RunEvent(p)], runs := Recorded(db, p).runs)
    requires !(p.createSession && FrontKey(p.conversation) in db.sessions.Values)
    requires Append(started, OpenedEvents(p))
          == Ok(started.(events := started.events + OpenedEvents(p), sessions := Recorded(db, p).sessions))
    ensures Append(Append(started, OpenedEvents(p)).value, BoundEvents(p) + ([MessageEvent(p)] + ReceiptEvents(p)))
         == Outcome(db, p)
  {
    var sessioned := Append(started, OpenedEvents(p)).value;
    forall i | 2 <= i < 5 ensures !HasEvent(sessioned.events, p.ids[i]) {
      HasEventConcat(db.events, [RunEvent(p)], p.ids[i]);
      HasEventConcat(started.events, OpenedEvents(p), p.ids[i]);
    }
    TailStages(sessioned, p);
    AppendConcat(sessioned, BoundEvents(p), [MessageEvent(p)] + ReceiptEvents(p));
    assert sessioned.events + (BoundEvents(p) + ([MessageEvent(p)] + ReceiptEvents(p))) == db.events + Batch(p);
  }

  // A duplicate never leaves a trace. Which error it gets depends on how far the first one got: the
  // receipt's key is only reached once the first run has closed and the session is not created again.
  lemma DuplicateRollsBack(db: Db, p: Plan)
    requires FreshFor(db, p) && p.source.Some? && HasInbound(db.inbound, p.Key())
    ensures Commit(db, Batch(p)) == db
    ensures Append(db, Batch(p)) == Err(DuplicateInbound)
      <==> !Busy(db, p.conversation) && !(p.createSession && FrontKey(p.conversation) in db.sessions.Values)
  {
    BatchOutcome(db, p);
  }

  /// Receipts over every journal

  ghost predicate KeysDistinct(rows: seq<Inbound>) {
    forall i, j :: 0 <= i < j < |rows| ==> rows[i].key != rows[j].key
  }

  // Receipts and runs are only ever added, whatever is appended.
  lemma {:induction false} CommitKeeps(db: Db, batch: seq<Event>)
    ensures db.inbound <= Commit(db, batch).inbound
    ensures db.runs.Keys <= Commit(db, batch).runs.Keys
    ensures KeysDistinct(db.inbound) ==> KeysDistinct(Commit(db, batch).inbound)
    decreases |batch|
  {
    if batch != [] && AppendOne(db, batch[0]).Ok? {
      AppendOneFrame(db, batch[0]);
      var d := AppendOne(db, batch[0]).value;
      CommitKeeps(d, batch[1..]);
      assert Append(db, batch) == Append(d, batch[1..]);
    }
  }

  /// The receiver

  function FirstWith(rows: seq<Inbound>, key: InboundKey): (i: nat)
    requires HasInbound(rows, key)
    ensures i < |rows| && rows[i].key == key
  {
    if rows[0].key == key then 0 else 1 + FirstWith(rows[1..], key)
  }

  datatype Reply =
    | Existing(run: Id) | Started(run: Id) | Refused | ConversationBusy | Rejected(error: Error)
    | ReceiptGone // the receipt that the batch met is not there when it is loaded

  // The run under the message's receipt.
  function Lookup(db: Db, p: Plan): Option<Id> {
    if p.source.Some? && HasInbound(db.inbound, p.Key()) then Some(db.inbound[FirstWith(db.inbound, p.Key())].run)
    else None
  }

  // A receiver that nobody comes between. `refused` stands for the checks before the batch that have no
  // table here: agent, project, authority and daily budget.
  function Receive(db: Db, p: Plan, refused: bool): (Db, Reply)
    requires FreshFor(db, p)
  {
    if Lookup(db, p).Some? then (db, Existing(Lookup(db, p).value))
    else if refused then (db, Refused)
    else if Busy(db, p.conversation) then (db, ConversationBusy)
    else
      match Append(db, Batch(p))
      case Ok(d) => (d, Started(p.run))
      case Err(error) => (db, Rejected(error))
  }

  // What others commit between a receiver's lookup, its check for an open run, its batch, and the reload
  // of the receipt after a batch that met it.
  datatype Others = Others(beforeCheck: seq<seq<Event>>, beforeBatch: seq<seq<Event>>, beforeReload: seq<seq<Event>>)

  const NOBODY := Others([], [], [])

  function Checked(db: Db, others: Others): Db {
    CommitAll(db, others.beforeCheck)
  }

  function Ready(db: Db, others: Others): Db {
    CommitAll(Checked(db, others), others.beforeBatch)
  }

  function ReceiveAmong(db: Db, p: Plan, refused: bool, others: Others): (Db, Reply)
    requires FreshFor(Ready(db, others), p)
  {
    if Lookup(db, p).Some? then (db, Existing(Lookup(db, p).value))
    else if refused then (db, Refused)
    else if Busy(Checked(db, others), p.conversation) then (Checked(db, others), ConversationBusy)
    else
      var ready := Ready(db, others);
      match Append(ready, Batch(p))
      case Ok(d) => (d, Started(p.run))
      case Err(error) =>
        if error != DuplicateInbound || p.source.None? then (ready, Rejected(error)) else
        var reloaded := CommitAll(ready, others.beforeReload);
        (reloaded, match Lookup(reloaded, p) case Some(run) => Existing(run) case None => ReceiptGone)
  }

  method ReceiveInboundMessage(store: ConversationStore, p: Plan, refused: bool, others: Others) returns (reply: Reply)
    requires FreshFor(Ready(store.db, others), p)
    modifies store
    ensures (store.db, reply) == ReceiveAmong(old(store.db), p, refused, others)
  {
    var existing := Lookup(store.db, p);
    if existing.Some? { return Existing(existing.value); }
    if refused { return Refused; }
    store.CommitBatches(others.beforeCheck);
    if Busy(store.db, p.conversation) { return ConversationBusy; }
    store.CommitBatches(others.beforeBatch);
    var r := store.AppendEvents(Batch(p));
    if r.Ok? { return Started(p.run); }
    if r.error != DuplicateInbound || p.source.None? { return Rejected(r.error); }
    store.CommitBatches(others.beforeReload);
    existing := Lookup(store.db, p);
    reply := if existing.Some? then Existing(existing.value) else ReceiptGone;
  }

  // With nobody in between, the two agree: the batch cannot meet a receipt the lookup did not find.
  lemma ReceiveAlone(db: Db, p: Plan, refused: bool)
    requires FreshFor(db, p)
    ensures ReceiveAmong(db, p, refused, NOBODY) == Receive(db, p, refused)
  {
    BatchOutcome(db, p);
  }

  // A message that started a run is answered with that run ever after, and journals nothing more.
  lemma ReceiveOnce(db: Db, p: Plan, refused: bool, batch: seq<Event>, q: Plan, refusedLater: bool)
    requires FreshFor(db, p) && p.source.Some? && KeysDistinct(db.inbound)
    requires Receive(db, p, refused).1.Started?
    requires var later := Commit(Receive(db, p, refused).0, batch);
      FreshFor(later, q) && q.source.Some? && q.Key() == p.Key()
    ensures var later := Commit(Receive(db, p, refused).0, batch);
      Receive(later, q, refusedLater) == (later, Existing(p.run))
  {
    BatchOutcome(db, p);
    var d := Receive(db, p, refused).0;
    var later := Commit(d, batch);
    CommitKeeps(d, batch);
    var n := |db.inbound|;
    assert d.inbound[n].key == p.Key();
    assert later.inbound[n] == d.inbound[n];
    assert KeysDistinct(d.inbound);
    var i := FirstWith(later.inbound, q.Key());
    assert i == n;
  }

  /// Two receivers of one message

  lemma {:induction false} CommitAllKeeps(db: Db, batches: seq<seq<Event>>)
    ensures db.inbound <= CommitAll(db, batches).inbound
    ensures KeysDistinct(db.inbound) ==> KeysDistinct(CommitAll(db, batches).inbound)
    decreases |batches|
  {
    if batches != [] {
      CommitKeeps(db, batches[0]);
      CommitAllKeeps(Commit(db, batches[0]), batches[1..]);
    }
  }

  lemma LookupFinds(db: Db, p: Plan, n: nat)
    requires p.source.Some? && KeysDistinct(db.inbound)
    requires n < |db.inbound| && db.inbound[n].key == p.Key()
    ensures Lookup(db, p) == Some(db.inbound[n].run)
  {
    var i := FirstWith(db.inbound, p.Key());
    assert i == n;
  }

  // A receipt that is found is found ever after, with the same run.
  lemma LookupStays(db: Db, batches: seq<seq<Event>>, p: Plan)
    requires p.source.Some? && KeysDistinct(db.inbound) && Lookup(db, p).Some?
    ensures Lookup(CommitAll(db, batches), p) == Lookup(db, p)
  {
    CommitAllKeeps(db, batches);
    LookupFinds(CommitAll(db, batches), p, FirstWith(db.inbound, p.Key()));
  }

  lemma WinnerFound(won: Db, p: Plan, batches: seq<seq<Event>>, q: Plan)
    requires FreshFor(won, p) && p.source.Some? && q.source.Some? && q.Key() == p.Key()
    requires Append(won, Batch(p)).Ok?
    requires KeysDistinct(CommitAll(Commit(won, Batch(p)), batches).inbound)
    ensures Lookup(CommitAll(Commit(won, Batch(p)), batches), q) == Some(p.run)
  {
    BatchOutcome(won, p);
    var d := Commit(won, Batch(p));
    CommitAllKeeps(d, batches);
    var n := |won.inbound|;
    assert d.inbound[n] == Inbound(p.Key(), p.run, p.session, p.message);
    assert CommitAll(d, batches).inbound[n] == d.inbound[n];
    LookupFinds(CommitAll(d, batches), q, n);
  }

  // The case in which a receiver that comes second is answered with the first one's run.
  predicate LearnsRun(db: Db, q: Plan, refused: bool, others: Others) {
    || Lookup(db, q).Some?
    || (!refused && !Busy(Checked(db, others), q.conversation) && !Busy(Ready(db, others), q.conversation)
        && !(q.createSession && FrontKey(q.conversation) in Ready(db, others).sessions.Values))
  }

  // Of two receivers of one message at most one starts a run, however their reads and batches interleave:
  // once the first one's batch has committed, the other journals nothing. It is answered with the first
  // one's run exactly when it looked afterwards, or met the receipt itself and not a key before it.
  lemma RaceSettles(won: Db, p: Plan, batches: seq<seq<Event>>, db: Db, q: Plan, refused: bool, others: Others)
    requires FreshFor(won, p) && p.source.Some? && Append(won, Batch(p)).Ok?
    requires Ready(db, others) == CommitAll(Commit(won, Batch(p)), batches) && KeysDistinct(db.inbound)
    requires FreshFor(Ready(db, others), q) && q.source.Some? && q.Key() == p.Key()
    ensures var (d, reply) := ReceiveAmong(db, q, refused, others);
      && !reply.Started? && !reply.ReceiptGone? && reply != Rejected(DuplicateInbound)
      && d in {db, Checked(db, others), Ready(db, others), CommitAll(Ready(db, others), others.beforeReload)}
      && (reply == Existing(p.run) <==> LearnsRun(db, q, refused, others))
      && (reply.Existing? ==> reply.run == p.run)
  {
    var ready := Ready(db, others);
    CommitAllKeeps(db, others.beforeCheck);
    CommitAllKeeps(Checked(db, others), others.beforeBatch);
    WinnerFound(won, p, batches, q);
    if Lookup(db, q).Some? {
      LookupStays(db, others.beforeCheck, q);
      LookupStays(Checked(db, others), others.beforeBatch, q);
    } else {
      BatchOutcome(ready, q);
      LookupStays(ready, others.beforeReload, q);
    }
  }
}
