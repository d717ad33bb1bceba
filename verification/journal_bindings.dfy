/** Session routes: at most one active binding per thread, and where a replaced one leads. */
module JournalBindings {
  import opened Basics
  import opened Journal

  ghost predicate DistinctIds(events: seq<Event>) {
    forall i, j :: 0 <= i < j < |events| ==> events[i].id != events[j].id
  }

  // Where in the journal the event with this id is.
  ghost function Position(events: seq<Event>, id: Id): (i: nat)
    requires HasEvent(events, id)
    ensures i < |events| && events[i].id == id
  {
    var i :| 0 <= i < |events| && events[i].id == id;
    i
  }

  predicate SameThread(a: Binding, b: Binding) {
    a.conversation == b.conversation && a.thread == b.thread
  }

  predicate Binds(e: Event, row: Binding) {
    e.payload.SessionBound? && e.conversation == row.conversation && e.payload.thread == row.thread
  }

  // The event asks for a status other than active.
  predicate BindsClosed(e: Event) {
    e.payload.SessionBound? && e.payload.status.Some? && e.payload.status.value != ActiveRoute
  }

  // A row and the event that inserted it.
  ghost predicate RowOk(events: seq<Event>, rows: map<Id, Binding>, b: Id)
    requires b in rows
  {
    var row := rows[b];
    && HasEvent(events, b)
    && Binds(events[Position(events, b)], row)
    && (match row.reason
        case NoReason =>
          row.replacedBy.None? && (row.status == ActiveRoute <==> !BindsClosed(events[Position(events, b)]))
        case Deactivated =>
          row.replacedBy.None? && row.status == InactiveRoute && !BindsClosed(events[Position(events, b)])
        case Replaced =>
          && row.status == InactiveRoute && !BindsClosed(events[Position(events, b)])
          && row.replacedBy.Some?
          && row.replacedBy.value in rows
          && SameThread(row, rows[row.replacedBy.value])
          && HasEvent(events, row.replacedBy.value)
          && Position(events, b) < Position(events, row.replacedBy.value))
  }

  ghost predicate OneActive(rows: map<Id, Binding>) {
    forall a, b ::
      a in rows && b in rows && rows[a].status == ActiveRoute && rows[b].status == ActiveRoute && SameThread(rows[a], rows[b])
      ==> a == b
  }

  ghost predicate RowsOk(events: seq<Event>, rows: map<Id, Binding>) {
    && DistinctIds(events)
    && (forall b :: b in rows ==> RowOk(events, rows, b))
    && OneActive(rows)
    && (forall i :: 0 <= i < |events| && events[i].payload.SessionBound? ==> events[i].id in rows)
  }

  ghost predicate Routed(db: Db) {
    RowsOk(db.events, db.bindings)
  }

  lemma PositionKept(events: seq<Event>, e: Event, id: Id)
    requires DistinctIds(events) && !HasEvent(events, e.id) && HasEvent(events, id)
    ensures HasEvent(events + [e], id) && Position(events + [e], id) == Position(events, id)
  {
    var all := events + [e];
    assert all[Position(events, id)].id == id;
    var i := Position(all, id);
    assert i < |events|;
    assert all[i] == events[i];
  }

  lemma NewPosition(events: seq<Event>, e: Event)
    requires DistinctIds(events) && !HasEvent(events, e.id)
    ensures DistinctIds(events + [e])
    ensures HasEvent(events + [e], e.id) && Position(events + [e], e.id) == |events|
  {
    var all := events + [e];
    assert all[|events|] == e;
    var i := Position(all, e.id);
    assert i < |events| ==> HasEvent(events, all[i].id);
  }

  lemma RowKept(events: seq<Event>, e: Event, rows: map<Id, Binding>, all: map<Id, Binding>, b: Id)
    requires DistinctIds(events) && !HasEvent(events, e.id)
    requires b in rows && RowOk(events, rows, b)
    requires b in all && all[b] == rows[b]
    requires forall c :: c in rows ==> c in all && SameThread(rows[c], all[c])
    ensures RowOk(events + [e], all, b)
  {
    PositionKept(events, e, b);
    if rows[b].replacedBy.Some? { PositionKept(events, e, rows[b].replacedBy.value); }
  }

  // What one event does to the table of bindings.
  function NextRows(rows: map<Id, Binding>, e: Event): map<Id, Binding> {
    match e.payload
    case SessionBound(thread, session, status) =>
      var column := if status.None? then ActiveRoute else status.value;
      Replace(rows, e.conversation, thread, e.id)[e.id := Binding(e.conversation, thread, session, column, NoReason, None)]
    case SessionUnbound(route) =>
      if route in rows && rows[route].status == ActiveRoute then
        rows[route := rows[route].(status := InactiveRoute, reason := Deactivated, replacedBy := None)]
      else
        rows
    case _ => rows
  }

  lemma AppendOneRows(db: Db, e: Event)
    requires AppendOne(db, e).Ok?
    ensures AppendOne(db, e).value.bindings == NextRows(db.bindings, e)
    ensures AppendOne(db, e).value.events == db.events + [e]
    ensures !HasEvent(db.events, e.id)
  {
    var next := db.(events := db.events + [e]);
    assert AppendOne(db, e) == Project(next, e);
    match e.payload {
      case RunCompleted(_, _) => SetStatusFrame(next, e.run, Completed);
      case ApprovalRequested => SetStatusFrame(next, e.run, NeedsApproval);
      case RunResumed => SetStatusFrame(next, e.run, Active);
      case RunInterrupted => SetStatusFrame(next, e.run, Interrupted);
      case RunFailed => SetStatusFrame(next, e.run, Failed);
      case _ =>
    }
  }

  lemma NextRowOk(events: seq<Event>, rows: map<Id, Binding>, e: Event, b: Id)
    requires RowsOk(events, rows) && !HasEvent(events, e.id)
    requires b in NextRows(rows, e)
    ensures RowOk(events + [e], NextRows(rows, e), b)
  {
    var all := NextRows(rows, e);
    NewPosition(events, e);
    assert e.id in rows ==> RowOk(events, rows, e.id);
    if b in rows {
      assert RowOk(events, rows, b);
      if all[b] == rows[b] {
        RowKept(events, e, rows, all, b);
      } else {
        PositionKept(events, e, b);
      }
    }
  }

  lemma NextRowsOneActive(events: seq<Event>, rows: map<Id, Binding>, e: Event)
    requires RowsOk(events, rows) && !HasEvent(events, e.id)
    ensures OneActive(NextRows(rows, e))
  {
    assert forall b :: b in rows ==> RowOk(events, rows, b);
  }

  lemma NextRowsOk(events: seq<Event>, rows: map<Id, Binding>, e: Event)
    requires RowsOk(events, rows) && !HasEvent(events, e.id)
    ensures RowsOk(events + [e], NextRows(rows, e))
  {
    NewPosition(events, e);
    NextRowsOneActive(events, rows, e);
    forall b | b in NextRows(rows, e) ensures RowOk(events + [e], NextRows(rows, e), b) {
      NextRowOk(events, rows, e, b);
    }
    assert forall b :: b in rows ==> b in NextRows(rows, e);
  }

  lemma AppendOneRouted(db: Db, e: Event)
    requires Routed(db) && AppendOne(db, e).Ok?
    ensures Routed(AppendOne(db, e).value)
  {
    AppendOneRows(db, e);
    NextRowsOk(db.events, db.bindings, e);
  }

  lemma {:induction false} AppendRouted(db: Db, batch: seq<Event>)
    requires Routed(db)
    ensures Routed(Commit(db, batch))
    decreases |batch|
  {
    if batch != [] && AppendOne(db, batch[0]).Ok? {
      AppendOneRouted(db, batch[0]);
      var d := AppendOne(db, batch[0]).value;
      AppendRouted(d, batch[1..]);
      assert Append(db, batch) == Append(d, batch[1..]);
    }
  }

  // For every journal: at most one active binding per thread, and every replacement points forward.
  lemma {:induction false} EveryJournalRouted(batches: seq<seq<Event>>)
    ensures Routed(Replay(batches))
  {
    if batches != [] {
      EveryJournalRouted(batches[..|batches| - 1]);
      AppendRouted(Replay(batches[..|batches| - 1]), batches[|batches| - 1]);
    }
  }

  // Following `replaced_by_route_id` until it is empty.
  ghost function Settle(db: Db, b: Id): Id
    requires Routed(db) && b in db.bindings
    decreases |db.events| - (assert RowOk(db.events, db.bindings, b); Position(db.events, b))
  {
    var row := db.bindings[b];
    assert RowOk(db.events, db.bindings, b);
    if row.replacedBy.None? then b else
    assert RowOk(db.events, db.bindings, row.replacedBy.value);
    Settle(db, row.replacedBy.value)
  }

  predicate Settled(row: Binding) {
    row.status == ActiveRoute || row.reason == Deactivated
  }

  // The walk stays in its thread, never goes back in the journal, and ends at a row that was not
  // replaced: the active one, a deactivated one, or one that was never bound as active.
  lemma {:induction false} SettleEnds(db: Db, b: Id)
    requires Routed(db) && b in db.bindings
    ensures var end := Settle(db, b);
      && end in db.bindings && SameThread(db.bindings[b], db.bindings[end])
      && db.bindings[end].replacedBy.None?
      && HasEvent(db.events, b) && HasEvent(db.events, end)
      && (end == b || Position(db.events, b) < Position(db.events, end))
      && (Settled(db.bindings[end]) <==> !BindsClosed(db.events[Position(db.events, end)]))
    decreases |db.events| - (assert RowOk(db.events, db.bindings, b); Position(db.events, b))
  {
    var row := db.bindings[b];
    assert RowOk(db.events, db.bindings, b);
    if row.replacedBy.Some? {
      var next := row.replacedBy.value;
      assert RowOk(db.events, db.bindings, next);
      SettleEnds(db, next);
    }
  }

  // An active end is the thread's only active binding.
  lemma ActiveEndIsTheRoute(db: Db, b: Id, active: Id)
    requires Routed(db) && b in db.bindings && active in db.bindings
    requires db.bindings[active].status == ActiveRoute && SameThread(db.bindings[active], db.bindings[b])
    ensures var end := Settle(db, b);
      end in db.bindings && (db.bindings[end].status == ActiveRoute ==> end == active)
  {
    SettleEnds(db, b);
  }

  // Every walk ends at an active or an explicitly deactivated binding exactly when no journaled
  // session_bound event asked for another status, as none of the program's own events do.
  lemma EveryWalkSettlesIff(batches: seq<seq<Event>>)
    ensures Routed(Replay(batches))
    ensures var db := Replay(batches);
      (forall b :: b in db.bindings ==> Settle(db, b) in db.bindings && Settled(db.bindings[Settle(db, b)]))
      <==> (forall i :: 0 <= i < |db.events| ==> !BindsClosed(db.events[i]))
  {
    EveryJournalRouted(batches);
    WalksSettleIff(Replay(batches));
  }

  lemma WalksSettleIff(db: Db)
    requires Routed(db)
    ensures (forall b :: b in db.bindings ==> Settle(db, b) in db.bindings && Settled(db.bindings[Settle(db, b)]))
      <==> (forall i :: 0 <= i < |db.events| ==> !BindsClosed(db.events[i]))
  {
    forall b | b in db.bindings && (forall i :: 0 <= i < |db.events| ==> !BindsClosed(db.events[i]))
      ensures Settle(db, b) in db.bindings && Settled(db.bindings[Settle(db, b)])
    {
      SettleEnds(db, b);
    }
    forall i | 0 <= i < |db.events| && BindsClosed(db.events[i])
      ensures exists b :: b in db.bindings && Settle(db, b) in db.bindings && !Settled(db.bindings[Settle(db, b)])
    {
      ClosedBindingIsAnEnd(db, i);
    }
  }

  lemma ClosedBindingIsAnEnd(db: Db, i: nat)
    requires Routed(db) && i < |db.events| && BindsClosed(db.events[i])
    ensures var b := db.events[i].id;
      b in db.bindings && Settle(db, b) == b && !Settled(db.bindings[b])
  {
    var b := db.events[i].id;
    assert RowOk(db.events, db.bindings, b);
    assert Position(db.events, b) == i;
  }
}
