/** Token accounting: the totals stored on a run are the sums over its journaled turns. */
module JournalTokens {
  import opened Basics
  import opened Journal

  datatype Tokens = Tokens(input: int, output: int) {
    function Plus(other: Tokens): Tokens { Tokens(input + other.input, output + other.output) }
  }

  function TurnOf(e: Event, run: Id): Tokens {
    if e.payload.TurnCompleted? && e.run == run then Tokens(e.payload.inputTokens, e.payload.outputTokens)
    else Tokens(0, 0)
  }

  // The sum over the run's turn_completed events.
  function TurnSum(events: seq<Event>, run: Id): Tokens {
    if events == [] then Tokens(0, 0)
    else TurnSum(events[..|events| - 1], run).Plus(TurnOf(events[|events| - 1], run))
  }

  predicate Starts(e: Event, run: Id) {
    e.payload.RunStarted? && e.run == run
  }

  function Stored(db: Db, run: Id): Tokens
    requires run in db.runs
  {
    Tokens(db.runs[run].inputTokens, db.runs[run].outputTokens)
  }

  // A run in the table was started by the event at `at`, and stores the turns journaled since.
  ghost predicate StoredSince(db: Db, run: Id, at: nat)
    requires run in db.runs
  {
    && at < |db.events|
    && Starts(db.events[at], run)
    && Stored(db, run) == TurnSum(db.events[at..], run)
  }

  ghost predicate Accounted(db: Db) {
    && (forall r :: r in db.runs ==> exists at: nat :: StoredSince(db, r, at))
    && (forall i, r :: 0 <= i < |db.events| && r !in db.runs ==> !Starts(db.events[i], r))
  }

  lemma {:induction false} TurnSumConcat(a: seq<Event>, b: seq<Event>, run: Id)
    ensures TurnSum(a + b, run) == TurnSum(a, run).Plus(TurnSum(b, run))
  {
    if b == [] {
      assert a + b == a;
    } else {
      var n := |b| - 1;
      assert (a + b)[..|a + b| - 1] == a + b[..n];
      TurnSumConcat(a, b[..n], run);
    }
  }

  lemma SetStatusStored(db: Db, id: Id, status: RunStatus, run: Id)
    requires SetStatus(db, id, status).Ok? && run in db.runs
    ensures var d := SetStatus(db, id, status).value;
      run in d.runs && Stored(d, run) == Stored(db, run)
  {
  }

  // One event adds exactly its own turn to the totals of its run.
  lemma AppendOneStored(db: Db, e: Event, run: Id)
    requires AppendOne(db, e).Ok?
    ensures var d := AppendOne(db, e).value;
      && d.events == db.events + [e]
      && (run in db.runs ==> run in d.runs && Stored(d, run) == Stored(db, run).Plus(TurnOf(e, run)))
      && (run !in db.runs && run in d.runs ==> Starts(e, run) && Stored(d, run) == Tokens(0, 0))
      && (run !in d.runs ==> !Starts(e, run))
  {
    AppendOneFrame(db, e);
    var next := db.(events := db.events + [e]);
    assert AppendOne(db, e) == Project(next, e);
    if run in db.runs {
      match e.payload {
        case RunCompleted(_, _) => SetStatusStored(next, e.run, Completed, run);
        case ApprovalRequested => SetStatusStored(next, e.run, NeedsApproval, run);
        case RunResumed => SetStatusStored(next, e.run, Active, run);
        case RunInterrupted => SetStatusStored(next, e.run, Interrupted, run);
        case RunFailed => SetStatusStored(next, e.run, Failed, run);
        case _ =>
      }
    } else {
      RunsOnlyStarted(next, e);
    }
  }

  lemma RunsOnlyStarted(db: Db, e: Event)
    requires Project(db, e).Ok?
    ensures var d := Project(db, e).value;
      if e.payload.RunStarted? then d.runs == db.runs[e.run := Run(e.conversation, e.parent, Active, 0, 0)]
      else d.runs.Keys == db.runs.Keys
  {
    match e.payload {
      case RunCompleted(_, _) => SetStatusFrame(db, e.run, Completed);
      case ApprovalRequested => SetStatusFrame(db, e.run, NeedsApproval);
      case RunResumed => SetStatusFrame(db, e.run, Active);
      case RunInterrupted => SetStatusFrame(db, e.run, Interrupted);
      case RunFailed => SetStatusFrame(db, e.run, Failed);
      case _ =>
    }
  }

  lemma SingleTurn(e: Event, run: Id)
    ensures TurnSum([e], run) == TurnOf(e, run)
  {
    assert [e][..0] == [];
  }

  lemma StoredSinceKept(db: Db, e: Event, run: Id, at: nat)
    requires run in db.runs && StoredSince(db, run, at) && AppendOne(db, e).Ok?
    ensures var d := AppendOne(db, e).value; run in d.runs && StoredSince(d, run, at)
  {
    AppendOneStored(db, e, run);
    var d := AppendOne(db, e).value;
    assert d.events[at..] == db.events[at..] + [e];
    TurnSumConcat(db.events[at..], [e], run);
    SingleTurn(e, run);
  }

  lemma AppendOneAccounted(db: Db, e: Event)
    requires Accounted(db) && AppendOne(db, e).Ok?
    ensures Accounted(AppendOne(db, e).value)
  {
    var d := AppendOne(db, e).value;
    forall r | r in d.runs ensures exists at: nat :: StoredSince(d, r, at) {
      AppendOneStored(db, e, r);
      if r in db.runs {
        var at: nat :| StoredSince(db, r, at);
        StoredSinceKept(db, e, r, at);
      } else {
        assert d.events[|db.events|..] == [e];
        SingleTurn(e, r);
        assert StoredSince(d, r, |db.events|);
      }
    }
    forall i, r | 0 <= i < |d.events| && r !in d.runs ensures !Starts(d.events[i], r) {
      AppendOneStored(db, e, r);
    }
  }

  lemma {:induction false} AppendAccounted(db: Db, batch: seq<Event>)
    requires Accounted(db)
    ensures Accounted(Commit(db, batch))
    decreases |batch|
  {
    if batch != [] && AppendOne(db, batch[0]).Ok? {
      AppendOneAccounted(db, batch[0]);
      var d := AppendOne(db, batch[0]).value;
      AppendAccounted(d, batch[1..]);
      assert Append(db, batch) == Append(d, batch[1..]);
    }
  }

  // For every journal, a run stores the sums over the turns journaled since it was started.
  lemma {:induction false} EveryJournalAccounted(batches: seq<seq<Event>>)
    ensures Accounted(Replay(batches))
  {
    if batches != [] {
      EveryJournalAccounted(batches[..|batches| - 1]);
      AppendAccounted(Replay(batches[..|batches| - 1]), batches[|batches| - 1]);
    }
  }

  lemma StoredVersusAll(db: Db, run: Id, at: nat)
    requires run in db.runs && StoredSince(db, run, at)
    ensures Stored(db, run) == TurnSum(db.events, run) <==> TurnSum(db.events[..at], run) == Tokens(0, 0)
  {
    assert db.events == db.events[..at] + db.events[at..];
    TurnSumConcat(db.events[..at], db.events[at..], run);
  }

  // They are the sums over all its turns exactly when the turns journaled under that id before the
  // run was started add up to nothing, as with the fresh ids the program draws.
  lemma StoredIsTurnSumIff(batches: seq<seq<Event>>, run: Id)
    requires run in Replay(batches).runs
    ensures var db := Replay(batches);
      exists at: nat :: at < |db.events| && Starts(db.events[at], run)
        && (Stored(db, run) == TurnSum(db.events, run) <==> TurnSum(db.events[..at], run) == Tokens(0, 0))
  {
    EveryJournalAccounted(batches);
    var db := Replay(batches);
    var at: nat :| StoredSince(db, run, at);
    StoredVersusAll(db, run, at);
  }

  // A turn journaled before its run is started is lost to the totals.
  lemma EarlyTurnLost()
    ensures var early := Event(1, 0, 7, None, TurnCompleted(5, 6));
      var start := Event(2, 0, 7, None, RunStarted);
      var db := Commit(Commit(EMPTY, [early]), [start]);
      7 in db.runs && Stored(db, 7) == Tokens(0, 0) && TurnSum(db.events, 7) == Tokens(5, 6)
  {
    var early := Event(1, 0, 7, None, TurnCompleted(5, 6));
    var start := Event(2, 0, 7, None, RunStarted);
    AppendSingle(EMPTY, early);
    var one := Commit(EMPTY, [early]);
    AppendSingle(one, start);
    assert one.events == [early];
    var two := Commit(one, [start]);
    assert two.events == [early] + [start];
    TurnSumConcat([early], [start], 7);
    SingleTurn(early, 7);
    SingleTurn(start, 7);
  }
}
