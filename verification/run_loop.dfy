/**
 The run loop: at most ten provider turns, each preceded by a budget check, with the turns and the end
 of the run journaled. Whatever other components journal in the meantime is part of the script.
 */
module RunLoop {
  import opened Basics
  import opened Journal
  import opened JournalTokens

  const MAX_TURNS := 10

  datatype StopReason = Unset | EndTurn | OtherStop

  // What the provider and the surroundings do in one turn. `before` is committed between the budget check
  // and the end of the provider's work, `after` until the tools have run. `setupFails` is a failure to load
  // or journal what the provider is to be given; `fault` is a failing write or tool batch after the turn was
  // journaled.
  datatype Turn = Turn(
    ids: seq<Id>, setupFails: bool, providerFails: bool, input: int, output: int, blank: bool, stop: StopReason,
    tools: bool, paused: bool, fault: bool, before: seq<seq<Event>>, after: seq<seq<Event>>)

  // `loads` is whether the run's authority and context can be read at the start.
  datatype Task = Task(run: Id, conversation: Id, cap: int, loads: bool)

  // History: what the run stored when the provider was called, and how much of it other loops had added
  // since this one started.
  datatype Call = Call(stored: Tokens, others: Tokens)

  datatype Loop = Loop(db: Db, used: Tokens, calls: seq<Call>, others: Tokens)

  datatype Verdict = Again | Finish | BudgetStopped | Paused | Errored | RunDone

  const ZERO := Tokens(0, 0)

  function Total(t: Tokens): int { t.input + t.output }

  predicate Exhausted(task: Task, used: Tokens) {
    task.cap > 0 && Total(used) >= task.cap
  }

  function EventOf(task: Task, id: Id, payload: Payload): Event {
    Event(id, task.conversation, task.run, None, payload)
  }

  function IdAt(t: Turn, k: nat): Id {
    if k < |t.ids| then t.ids[k] else 0
  }

  ghost function Gained(before: Db, later: Db, run: Id): Tokens {
    if run in before.runs && run in later.runs then
      Tokens(later.runs[run].inputTokens - before.runs[run].inputTokens, later.runs[run].outputTokens - before.runs[run].outputTokens)
    else ZERO
  }

  ghost function StoredOr(db: Db, run: Id): Tokens {
    if run in db.runs then Stored(db, run) else ZERO
  }

  ghost function BudgetStop(task: Task, l: Loop, t: Turn): Loop {
    var stopped := Commit(l.db, [EventOf(task, IdAt(t, 0), NoProjection)]);
    l.(db := Commit(stopped, [EventOf(task, IdAt(t, 1), RunInterrupted)]))
  }

  // What others commit before the turn is journaled counts as theirs.
  ghost function Prepared(task: Task, l: Loop, t: Turn): Loop {
    var ready := CommitAll(l.db, t.before);
    l.(db := ready, others := l.others.Plus(Gained(l.db, ready, task.run)))
  }

  // The provider is called.
  ghost function Called(task: Task, l: Loop, t: Turn): Loop {
    Prepared(task, l, t).(calls := l.calls + [Call(StoredOr(l.db, task.run), l.others)])
  }

  function TurnEvent(task: Task, t: Turn): Event {
    EventOf(task, IdAt(t, 0), TurnCompleted(t.input, t.output))
  }

  // The turn is journaled, then the tools run and others commit.
  ghost function Spent(task: Task, l: Loop, t: Turn): Loop {
    var journaled := Commit(l.db, [TurnEvent(task, t)]);
    var settled := CommitAll(journaled, t.after);
    l.(db := settled, used := l.used.Plus(Tokens(t.input, t.output)),
       others := l.others.Plus(Gained(journaled, settled, task.run)))
  }

  // Where the loop goes after a journaled turn.
  ghost function Judged(task: Task, l: Loop, t: Turn): (r: (Loop, Verdict))
    ensures r.0.calls == l.calls && r.0.others == l.others && r.0.used == l.used
  {
    if t.fault then (l, Errored)
    else if t.tools then (l, if t.paused then Paused else Again)
    else if t.blank && t.stop == OtherStop then
      (l.(db := Commit(l.db, [EventOf(task, IdAt(t, 1), RunInterrupted)])), Errored)
    else (l, if t.stop == OtherStop then Again else Finish)
  }

  // One turn of the loop.
  ghost function Step(task: Task, l: Loop, t: Turn): (Loop, Verdict) {
    if Exhausted(task, l.used) then (BudgetStop(task, l, t), BudgetStopped)
    else if t.setupFails then (Prepared(task, l, t), Errored)
    else
      var called := Called(task, l, t);
      if t.providerFails then (called.(db := Commit(called.db, [EventOf(task, IdAt(t, 0), RunFailed)])), Errored)
      else if Append(called.db, [TurnEvent(task, t)]).Err? then (called, Errored)
      else Judged(task, Spent(task, called, t), t)
  }

  // The turns until one ends the loop, or all of them.
  ghost function Turns(task: Task, l: Loop, script: seq<Turn>): (Loop, Verdict)
    decreases |script|
  {
    if script == [] then (l, Finish) else
    var (next, verdict) := Step(task, l, script[0]);
    if verdict == Again then Turns(task, next, script[1..]) else (next, verdict)
  }

  ghost function Begun(task: Task, db: Db): Loop {
    Loop(db, StoredOr(db, task.run), [], ZERO)
  }

  // The whole loop: a run whose turns finish, or run out, is journaled as completed with its receipt.
  ghost function Outcome(task: Task, db: Db, script: seq<Turn>, doneId: Id): (Loop, Verdict) {
    var (l, verdict) := Turns(task, Begun(task, db), script);
    if task.run !in db.runs || !task.loads then (Begun(task, db), Errored)
    else if verdict != Finish then (l, verdict)
    else
      var done := [EventOf(task, doneId, RunCompleted(l.used.input, l.used.output))];
      if Append(l.db, done).Err? then (l, Errored) else (l.(db := Commit(l.db, done)), RunDone)
  }

  class Runtime {
    var store: ConversationStore

    constructor (s: ConversationStore)
      ensures store == s
    {
      store := s;
    }

    method AppendEvent(task: Task, id: Id, payload: Payload) returns (ok: bool)
      modifies store
      ensures store == old(store)
      ensures store.db == Commit(old(store.db), [EventOf(task, id, payload)])
      ensures ok <==> Append(old(store.db), [EventOf(task, id, payload)]).Ok?
    {
      var r := store.AppendEvents([EventOf(task, id, payload)]);
      ok := r.Ok?;
    }

    // One turn, from the budget check on; `history` is what the proof remembers of the loop.
    method RunTurn(task: Task, used: Tokens, t: Turn, ghost history: Loop) returns (spent: Tokens, verdict: Verdict, ghost after: Loop)
      requires history.db == store.db && history.used == used
      modifies store
      ensures store == old(store)
      ensures (after, verdict) == Step(task, history, t)
      ensures verdict != RunDone && after.db == store.db && (verdict in {Again, Finish} ==> after.used == spent)
    {
      spent := used;
      after := Step(task, history, t).0;
      if task.cap > 0 && used.input + used.output >= task.cap {
        var _ := AppendEvent(task, IdAt(t, 0), NoProjection);
        var _ := AppendEvent(task, IdAt(t, 1), RunInterrupted);
        return spent, BudgetStopped, after;
      }
      store.CommitBatches(t.before);
      if t.setupFails { return spent, Errored, after; }
      if t.providerFails {
        var _ := AppendEvent(task, IdAt(t, 0), RunFailed);
        return spent, Errored, after;
      }
      spent := Tokens(used.input + t.input, used.output + t.output);
      var journaled := AppendEvent(task, IdAt(t, 0), TurnCompleted(t.input, t.output));
      if !journaled { return spent, Errored, after; }
      store.CommitBatches(t.after);
      if t.fault { return spent, Errored, after; }
      if t.tools {
        return spent, if t.paused then Paused else Again, after;
      }
      if t.blank && t.stop == OtherStop {
        var _ := AppendEvent(task, IdAt(t, 1), RunInterrupted);
        return spent, Errored, after;
      }
      return spent, if t.stop == OtherStop then Again else Finish, after;
    }

    method ExecuteRunLoop(task: Task, script: seq<Turn>, doneId: Id) returns (verdict: Verdict, ghost l: Loop)
      requires |script| == MAX_TURNS
      modifies store
      ensures store == old(store)
      ensures (l, verdict) == Outcome(task, old(store.db), script, doneId) && l.db == store.db
      ensures task.run !in old(store.db).runs || !task.loads ==> verdict == Errored && l.calls == [] && store.db == old(store.db)
      ensures task.run in old(store.db).runs && task.loads && OwnIds(old(store.db), script, doneId) ==>
        var row := old(store.db).runs[task.run];
        forall k :: FirstStop(task, Tokens(row.inputTokens, row.outputTokens), script, k) ==>
          EndsAt(task, Tokens(row.inputTokens, row.outputTokens), script, doneId, k, l, verdict)
    {
      LoopEnds(task, store.db, script, doneId);
      l := Begun(task, store.db);
      if task.run !in store.db.runs || !task.loads { return Errored, l; }
      var row := store.db.runs[task.run];
      var used := Tokens(row.inputTokens, row.outputTokens);
      ghost var start := l;
      verdict := Again;
      var turn := 0;
      while turn < MAX_TURNS && verdict == Again
        invariant 0 <= turn <= MAX_TURNS && store == old(store)
        invariant l.db == store.db && verdict != RunDone
        invariant verdict in {Again, Finish} ==> l.used == used
        invariant Turns(task, start, script) == if verdict == Again then Turns(task, l, script[turn..]) else (l, verdict)
      {
        assert script[turn..][1..] == script[turn + 1..];
        used, verdict, l := RunTurn(task, used, script[turn], l);
        turn := turn + 1;
      }
      if verdict == BudgetStopped || verdict == Paused || verdict == Errored { return; }
      assert turn == MAX_TURNS ==> script[turn..] == [];
      assert Turns(task, start, script) == (l, Finish);
      var ok := AppendEvent(task, doneId, RunCompleted(used.input, used.output));
      if !ok { return Errored, l; }
      l := l.(db := store.db);
      verdict := RunDone;
    }
  }

  /// The totals across turns, and across loops

  // Only this loop adds turns to the run.
  ghost predicate QuietBatch(batch: seq<Event>, run: Id) {
    forall e :: e in batch ==> TurnOf(e, run) == ZERO
  }

  ghost predicate Quiet(batches: seq<seq<Event>>, run: Id) {
    forall i :: 0 <= i < |batches| ==> QuietBatch(batches[i], run)
  }

  ghost predicate QuietScript(script: seq<Turn>, run: Id) {
    forall i :: 0 <= i < |script| ==> Quiet(script[i].before, run) && Quiet(script[i].after, run)
  }

  lemma {:induction false} AppendKeepsRun(db: Db, batch: seq<Event>, run: Id)
    requires run in db.runs && Append(db, batch).Ok?
    ensures var d := Append(db, batch).value;
      run in d.runs && Stored(d, run) == Stored(db, run).Plus(TurnSum(batch, run))
    decreases |batch|
  {
    if batch != [] {
      AppendOneStored(db, batch[0], run);
      var d := AppendOne(db, batch[0]).value;
      AppendKeepsRun(d, batch[1..], run);
      assert batch == [batch[0]] + batch[1..];
      TurnSumConcat([batch[0]], batch[1..], run);
      SingleTurn(batch[0], run);
    }
  }

  lemma {:induction false} QuietSum(batch: seq<Event>, run: Id)
    requires QuietBatch(batch, run)
    ensures TurnSum(batch, run) == ZERO
  {
    if batch != [] {
      assert forall e :: e in batch[..|batch| - 1] ==> e in batch;
      QuietSum(batch[..|batch| - 1], run);
    }
  }

  lemma CommitBatchKeepsRun(db: Db, batch: seq<Event>, run: Id)
    requires run in db.runs
    ensures run in Commit(db, batch).runs
    ensures QuietBatch(batch, run) ==> Stored(Commit(db, batch), run) == Stored(db, run)
  {
    if Append(db, batch).Ok? {
      AppendKeepsRun(db, batch, run);
      if QuietBatch(batch, run) {
        QuietSum(batch, run);
        PlusZero(Stored(db, run));
      }
    }
  }

  lemma PlusZero(t: Tokens)
    ensures t.Plus(ZERO) == t
  {
  }

  lemma {:induction false} CommitAllKeepsRun(db: Db, batches: seq<seq<Event>>, run: Id)
    requires run in db.runs
    ensures run in CommitAll(db, batches).runs
    ensures Quiet(batches, run) ==> Stored(CommitAll(db, batches), run) == Stored(db, run)
    decreases |batches|
  {
    if batches != [] {
      CommitBatchKeepsRun(db, batches[0], run);
      assert Quiet(batches, run) ==> Quiet(batches[1..], run) && QuietBatch(batches[0], run);
      CommitAllKeepsRun(Commit(db, batches[0]), batches[1..], run);
    }
  }

  lemma CommitKeepsRun(db: Db, e: Event, run: Id)
    requires run in db.runs
    ensures run in Commit(db, [e]).runs
    ensures Stored(Commit(db, [e]), run) == if Append(db, [e]).Ok? then Stored(db, run).Plus(TurnOf(e, run)) else Stored(db, run)
  {
    if Append(db, [e]).Ok? {
      AppendKeepsRun(db, [e], run);
      SingleTurn(e, run);
    }
  }

  // What the loop counts and what others added make up what the run stores.
  ghost predicate Balanced(task: Task, l: Loop) {
    task.run in l.db.runs && Stored(l.db, task.run) == l.used.Plus(l.others)
  }

  // Every provider call so far was made under the cap, not counting what others had added.
  ghost predicate CallsUnderCap(task: Task, l: Loop) {
    forall c :: c in l.calls && task.cap > 0 ==> Total(c.stored) - Total(c.others) < task.cap
  }

  // No call has anything to leave out.
  ghost predicate NoOthers(calls: seq<Call>) {
    forall c :: c in calls ==> c.others == ZERO
  }

  ghost predicate Alone(l: Loop) {
    l.others == ZERO && NoOthers(l.calls)
  }

  lemma StopKeeps(task: Task, l: Loop, t: Turn)
    requires task.run in l.db.runs
    ensures var next := BudgetStop(task, l, t);
      task.run in next.db.runs && Stored(next.db, task.run) == Stored(l.db, task.run)
      && next.calls == l.calls && next.others == l.others
  {
    var first, second := EventOf(task, IdAt(t, 0), NoProjection), EventOf(task, IdAt(t, 1), RunInterrupted);
    CommitKeepsRun(l.db, first, task.run);
    CommitKeepsRun(Commit(l.db, [first]), second, task.run);
  }

  lemma CalledUnderCap(task: Task, l: Loop, call: Call)
    requires Balanced(task, l) && CallsUnderCap(task, l) && !Exhausted(task, l.used)
    requires call == Call(Stored(l.db, task.run), l.others)
    ensures CallsUnderCap(task, l.(calls := l.calls + [call]))
  {
    assert Total(call.stored) - Total(call.others) == Total(l.used);
  }

  lemma PreparedBalanced(task: Task, l: Loop, t: Turn)
    requires Balanced(task, l) && CallsUnderCap(task, l)
    ensures var next := Prepared(task, l, t);
      Balanced(task, next) && CallsUnderCap(task, next) && next.used == l.used && next.calls == l.calls
  {
    CommitAllKeepsRun(l.db, t.before, task.run);
  }

  lemma CalledBalanced(task: Task, l: Loop, t: Turn)
    requires Balanced(task, l) && CallsUnderCap(task, l) && !Exhausted(task, l.used)
    ensures var next := Called(task, l, t);
      Balanced(task, next) && CallsUnderCap(task, next) && next.used == l.used && |next.calls| == |l.calls| + 1
  {
    PreparedBalanced(task, l, t);
    CalledUnderCap(task, l, Call(Stored(l.db, task.run), l.others));
  }

  lemma AloneCalls(l: Loop, call: Call)
    requires Alone(l) && call.others == ZERO
    ensures Alone(l.(calls := l.calls + [call]))
  {
  }

  lemma PreparedAlone(task: Task, l: Loop, t: Turn)
    requires task.run in l.db.runs && Alone(l) && Quiet(t.before, task.run)
    ensures Alone(Prepared(task, l, t))
  {
    CommitAllKeepsRun(l.db, t.before, task.run);
    assert Gained(l.db, CommitAll(l.db, t.before), task.run) == ZERO;
  }

  lemma CalledAlone(task: Task, l: Loop, t: Turn)
    requires task.run in l.db.runs && Alone(l) && Quiet(t.before, task.run)
    ensures Alone(Called(task, l, t))
  {
    PreparedAlone(task, l, t);
    AloneCalls(Prepared(task, l, t), Call(Stored(l.db, task.run), l.others));
  }

  lemma SpentBalanced(task: Task, l: Loop, t: Turn)
    requires Balanced(task, l) && Append(l.db, [TurnEvent(task, t)]).Ok?
    ensures var next := Spent(task, l, t);
      Balanced(task, next) && next.calls == l.calls && next.used == l.used.Plus(Tokens(t.input, t.output))
  {
    CommitKeepsRun(l.db, TurnEvent(task, t), task.run);
    CommitAllKeepsRun(Commit(l.db, [TurnEvent(task, t)]), t.after, task.run);
  }

  lemma SpentAlone(task: Task, l: Loop, t: Turn)
    requires task.run in l.db.runs && Alone(l) && Quiet(t.after, task.run)
    ensures Alone(Spent(task, l, t))
  {
    CommitKeepsRun(l.db, TurnEvent(task, t), task.run);
    CommitAllKeepsRun(Commit(l.db, [TurnEvent(task, t)]), t.after, task.run);
    assert Spent(task, l, t).others == ZERO;
  }

  // What a turn leaves, whatever its verdict: the books balance, and at most one turn was spent, under the cap.
  ghost predicate Stepped(task: Task, l: Loop, next: Loop, t: Turn) {
    && Balanced(task, next) && CallsUnderCap(task, next) && |next.calls| <= |l.calls| + 1
    && (next.used == l.used || (!Exhausted(task, l.used) && next.used == l.used.Plus(Tokens(t.input, t.output))))
  }

  lemma StepBalanced(task: Task, l: Loop, t: Turn)
    requires Balanced(task, l) && CallsUnderCap(task, l)
    ensures Stepped(task, l, Step(task, l, t).0, t)
  {
    if Exhausted(task, l.used) {
      StopKeeps(task, l, t);
    } else if t.setupFails {
      PreparedBalanced(task, l, t);
    } else {
      var called := Called(task, l, t);
      CalledBalanced(task, l, t);
      if t.providerFails {
        CommitKeepsRun(called.db, EventOf(task, IdAt(t, 0), RunFailed), task.run);
      } else if Append(called.db, [TurnEvent(task, t)]).Ok? {
        SpentBalanced(task, called, t);
        CommitKeepsRun(Spent(task, called, t).db, EventOf(task, IdAt(t, 1), RunInterrupted), task.run);
      }
    }
  }

  lemma SameAlone(l: Loop, next: Loop)
    requires Alone(l) && next.calls == l.calls && next.others == l.others
    ensures Alone(next)
  {
  }

  lemma JournaledAlone(task: Task, called: Loop, t: Turn)
    requires task.run in called.db.runs && Alone(called) && Quiet(t.after, task.run)
    ensures Alone(Judged(task, Spent(task, called, t), t).0)
  {
    SpentAlone(task, called, t);
    SameAlone(Spent(task, called, t), Judged(task, Spent(task, called, t), t).0);
  }

  // How a turn can come out, without the reasons.
  ghost predicate ComesOut(task: Task, l: Loop, t: Turn, next: Loop) {
    || (next.calls == l.calls && next.others == l.others)
    || next == Prepared(task, l, t)
    || (next.calls == Called(task, l, t).calls && next.others == Called(task, l, t).others)
    || next == Judged(task, Spent(task, Called(task, l, t), t), t).0
  }

  lemma StepComesOut(task: Task, l: Loop, t: Turn)
    ensures ComesOut(task, l, t, Step(task, l, t).0)
  {
  }

  lemma AloneCalled(task: Task, l: Loop, t: Turn, next: Loop)
    requires task.run in l.db.runs && Alone(l) && Quiet(t.before, task.run)
    requires next.calls == Called(task, l, t).calls && next.others == Called(task, l, t).others
    ensures Alone(next)
  {
    CalledAlone(task, l, t);
    SameAlone(Called(task, l, t), next);
  }

  lemma AloneJournaled(task: Task, l: Loop, t: Turn)
    requires task.run in l.db.runs && Alone(l) && Quiet(t.before, task.run) && Quiet(t.after, task.run)
    ensures Alone(Judged(task, Spent(task, Called(task, l, t), t), t).0)
  {
    CalledAlone(task, l, t);
    CommitAllKeepsRun(l.db, t.before, task.run);
    JournaledAlone(task, Called(task, l, t), t);
  }

  lemma AloneComesOut(task: Task, l: Loop, t: Turn, next: Loop)
    requires task.run in l.db.runs && Alone(l) && Quiet(t.before, task.run) && Quiet(t.after, task.run)
    requires ComesOut(task, l, t, next)
    ensures Alone(next)
  {
    if next.calls == l.calls && next.others == l.others {
      SameAlone(l, next);
    } else if next == Prepared(task, l, t) {
      PreparedAlone(task, l, t);
    } else if next.calls == Called(task, l, t).calls && next.others == Called(task, l, t).others {
      AloneCalled(task, l, t, next);
    } else {
      AloneJournaled(task, l, t);
    }
  }

  lemma StepAlone(task: Task, l: Loop, t: Turn)
    requires task.run in l.db.runs && Alone(l) && Quiet(t.before, task.run) && Quiet(t.after, task.run)
    ensures Alone(Step(task, l, t).0)
  {
    StepComesOut(task, l, t);
    AloneComesOut(task, l, t, Step(task, l, t).0);
  }

  lemma {:induction false} TurnsBalanced(task: Task, l: Loop, script: seq<Turn>)
    requires Balanced(task, l) && CallsUnderCap(task, l)
    ensures var next := Turns(task, l, script).0;
      Balanced(task, next) && CallsUnderCap(task, next) && |next.calls| <= |l.calls| + |script|
    ensures Turns(task, l, script).1 != RunDone
    decreases |script|
  {
    if script != [] {
      StepBalanced(task, l, script[0]);
      var (next, verdict) := Step(task, l, script[0]);
      if verdict == Again { TurnsBalanced(task, next, script[1..]); }
    }
  }

  lemma {:induction false} TurnsAlone(task: Task, l: Loop, script: seq<Turn>)
    requires Balanced(task, l) && CallsUnderCap(task, l) && Alone(l) && QuietScript(script, task.run)
    ensures Alone(Turns(task, l, script).0)
    decreases |script|
  {
    if script != [] {
      StepBalanced(task, l, script[0]);
      StepAlone(task, l, script[0]);
      var (next, verdict) := Step(task, l, script[0]);
      if verdict == Again { TurnsAlone(task, next, script[1..]); }
    }
  }

  lemma OutcomeBalanced(task: Task, db: Db, script: seq<Turn>, doneId: Id)
    requires task.run in db.runs
    ensures var l := Outcome(task, db, script, doneId).0;
      Balanced(task, l) && CallsUnderCap(task, l) && |l.calls| <= |script|
    ensures QuietScript(script, task.run) ==> Alone(Outcome(task, db, script, doneId).0)
  {
    TurnsBalanced(task, Begun(task, db), script);
    if QuietScript(script, task.run) { TurnsAlone(task, Begun(task, db), script); }
    var l := Turns(task, Begun(task, db), script).0;
    CommitKeepsRun(l.db, EventOf(task, doneId, RunCompleted(l.used.input, l.used.output)), task.run);
  }

  // A loop calls the provider at most ten times, each time only while the run stores less than a positive
  // cap, leaving out what overlapping loops added since this one started; without any there is nothing to
  // leave out.
  lemma ProviderUnderCap(task: Task, db: Db, script: seq<Turn>, doneId: Id)
    requires task.run in db.runs && |script| == MAX_TURNS
    ensures var l := Outcome(task, db, script, doneId).0;
      && |l.calls| <= MAX_TURNS
      && (forall c :: c in l.calls && task.cap > 0 ==> Total(c.stored) - Total(c.others) < task.cap)
      && (QuietScript(script, task.run) ==> forall c :: c in l.calls && task.cap > 0 ==> Total(c.stored) < task.cap)
  {
    OutcomeBalanced(task, db, script, doneId);
  }

  lemma ReceiptWritten(db: Db, e: Event)
    requires e.payload.RunCompleted? && Append(db, [e]).Ok?
    ensures var d := Commit(db, [e]);
      e.run in d.receipts && d.receipts[e.run] == Receipt(e.payload.inputTokens, e.payload.outputTokens)
  {
    AppendSingle(db, e);
    var next := db.(events := db.events + [e]);
    assert AppendOne(db, e) == Project(next, e);
  }

  lemma ReceiptVersusStored(used: Tokens, others: Tokens, stored: Tokens)
    requires stored == used.Plus(others)
    ensures used == stored <==> others == ZERO
  {
  }

  function ReceiptTokens(r: Receipt): Tokens { Tokens(r.inputTokens, r.outputTokens) }

  lemma DoneReceipt(task: Task, l: Loop, doneId: Id)
    requires Balanced(task, l)
    requires Append(l.db, [EventOf(task, doneId, RunCompleted(l.used.input, l.used.output))]).Ok?
    ensures var d := Commit(l.db, [EventOf(task, doneId, RunCompleted(l.used.input, l.used.output))]);
      && task.run in d.runs && task.run in d.receipts
      && (ReceiptTokens(d.receipts[task.run]) == Stored(d, task.run) <==> l.others == ZERO)
  {
    var done := EventOf(task, doneId, RunCompleted(l.used.input, l.used.output));
    ReceiptWritten(l.db, done);
    CommitKeepsRun(l.db, done, task.run);
    ReceiptVersusStored(l.used, l.others, Stored(l.db, task.run));
  }

  // The receipt of a completed run carries what the run stores whenever no batch of others holds a turn of
  // the run; in general, if and only if what they added while the loop ran comes to nothing.
  lemma ReceiptIsStoredIff(task: Task, db: Db, script: seq<Turn>, doneId: Id)
    requires task.run in db.runs
    ensures var (l, verdict) := Outcome(task, db, script, doneId);
      verdict == RunDone ==>
        && task.run in l.db.runs && task.run in l.db.receipts
        && (QuietScript(script, task.run) ==> ReceiptTokens(l.db.receipts[task.run]) == Stored(l.db, task.run))
        && (ReceiptTokens(l.db.receipts[task.run]) == Stored(l.db, task.run) <==> l.others == ZERO)
  {
    TurnsBalanced(task, Begun(task, db), script);
    if QuietScript(script, task.run) { TurnsAlone(task, Begun(task, db), script); }
    var (l, verdict) := Turns(task, Begun(task, db), script);
    var done := EventOf(task, doneId, RunCompleted(l.used.input, l.used.output));
    if verdict == Finish && Append(l.db, [done]).Ok? { DoneReceipt(task, l, doneId); }
  }

  /// When the loop ends, and how

  // The loop goes on after this turn: everything worked, and its tools did not pause, or it has said something
  // and its stop is not the end.
  predicate GoesOn(t: Turn) {
    !t.setupFails && !t.providerFails && !t.fault && (if t.tools then !t.paused else t.stop == OtherStop && !t.blank)
  }

  // What has been used before turn `k`.
  function UsedBefore(start: Tokens, script: seq<Turn>, k: nat): Tokens
    requires k <= |script|
    decreases k
  {
    if k == 0 then start
    else UsedBefore(Tokens(start.input + script[0].input, start.output + script[0].output), script[1..], k - 1)
  }

  predicate BudgetLeft(cap: int, used: Tokens) {
    cap <= 0 || used.input + used.output < cap
  }

  // Nothing is journaled under this id, neither so far nor by anybody else in the script.
  ghost predicate Unused(db: Db, script: seq<Turn>, id: Id) {
    && !HasEvent(db.events, id)
    && forall i, b :: 0 <= i < |script| && (b in script[i].before || b in script[i].after) ==> !HasEvent(b, id)
  }

  // The loop's own events have ids of their own.
  ghost predicate OwnIds(db: Db, script: seq<Turn>, doneId: Id) {
    && Unused(db, script, doneId)
    && (forall i :: 0 <= i < |script| ==> OwnTurn(db, script, doneId, script[i]))
    && (forall i, j :: 0 <= i < j < |script| ==>
          IdAt(script[i], 0) != IdAt(script[j], 0) && IdAt(script[i], 0) != IdAt(script[j], 1))
  }

  ghost predicate OwnTurn(db: Db, script: seq<Turn>, doneId: Id, t: Turn) {
    && Unused(db, script, IdAt(t, 0)) && Unused(db, script, IdAt(t, 1))
    && IdAt(t, 0) != IdAt(t, 1) && IdAt(t, 0) != doneId && IdAt(t, 1) != doneId
  }

  lemma CommitAddsIds(db: Db, batch: seq<Event>, id: Id)
    requires !HasEvent(db.events, id) && !HasEvent(batch, id)
    ensures !HasEvent(Commit(db, batch).events, id)
  {
    AppendExtends(db, batch);
    var d := Commit(db, batch);
    if Append(db, batch).Ok? {
      forall i | 0 <= i < |d.events| ensures d.events[i].id != id {
        if i >= |db.events| { assert d.events[i] == batch[i - |db.events|]; }
      }
    }
  }

  lemma {:induction false} CommitAllAddsIds(db: Db, batches: seq<seq<Event>>, id: Id)
    requires !HasEvent(db.events, id) && forall b :: b in batches ==> !HasEvent(b, id)
    ensures !HasEvent(CommitAll(db, batches).events, id)
    decreases |batches|
  {
    if batches != [] {
      CommitAddsIds(db, batches[0], id);
      CommitAllAddsIds(Commit(db, batches[0]), batches[1..], id);
    }
  }

  lemma OneAddsId(db: Db, e: Event, id: Id)
    requires !HasEvent(db.events, id) && e.id != id
    ensures !HasEvent(Commit(db, [e]).events, id)
  {
    CommitAddsIds(db, [e], id);
  }

  // A status event under a new id gives the run that status.
  lemma StatusWritten(db: Db, task: Task, id: Id, payload: Payload)
    requires task.run in db.runs && !HasEvent(db.events, id)
    requires payload.RunInterrupted? || payload.RunFailed? || payload.RunCompleted?
    ensures Append(db, [EventOf(task, id, payload)]).Ok?
    ensures var d := Commit(db, [EventOf(task, id, payload)]);
      && task.run in d.runs
      && (payload.RunInterrupted? ==> d.runs[task.run].status.Interrupted?)
      && (payload.RunFailed? ==> d.runs[task.run].status.Failed?)
      && (payload.RunCompleted? ==> d.runs[task.run].status.Completed?)
  {
    AppendSingle(db, EventOf(task, id, payload));
  }

  lemma TurnWritten(db: Db, task: Task, t: Turn)
    requires !HasEvent(db.events, IdAt(t, 0))
    ensures Append(db, [TurnEvent(task, t)]).Ok?
  {
    AppendSingle(db, TurnEvent(task, t));
  }

  lemma PreparedIds(task: Task, l: Loop, script: seq<Turn>, id: Id)
    requires script != [] && Unused(l.db, script, id)
    ensures !HasEvent(CommitAll(l.db, script[0].before).events, id)
  {
    CommitAllAddsIds(l.db, script[0].before, id);
  }

  lemma SpentIds(task: Task, l: Loop, script: seq<Turn>, id: Id)
    requires script != [] && Unused(l.db, script, id) && id != IdAt(script[0], 0)
    ensures !HasEvent(Spent(task, Called(task, l, script[0]), script[0]).db.events, id)
  {
    var t := script[0];
    PreparedIds(task, l, script, id);
    var called := Called(task, l, t);
    OneAddsId(called.db, TurnEvent(task, t), id);
    CommitAllAddsIds(Commit(called.db, [TurnEvent(task, t)]), t.after, id);
  }

  lemma SpentRuns(task: Task, l: Loop, t: Turn)
    requires task.run in l.db.runs
    ensures task.run in Called(task, l, t).db.runs && task.run in Spent(task, Called(task, l, t), t).db.runs
  {
    CommitAllKeepsRun(l.db, t.before, task.run);
    var called := Called(task, l, t);
    CommitKeepsRun(called.db, TurnEvent(task, t), task.run);
    CommitAllKeepsRun(Commit(called.db, [TurnEvent(task, t)]), t.after, task.run);
  }

  // One turn that goes on.
  lemma StepOn(task: Task, l: Loop, script: seq<Turn>, doneId: Id)
    requires task.run in l.db.runs && script != [] && OwnIds(l.db, script, doneId)
    requires GoesOn(script[0]) && BudgetLeft(task.cap, l.used)
    ensures var (next, verdict) := Step(task, l, script[0]);
      && verdict == Again && task.run in next.db.runs && OwnIds(next.db, script[1..], doneId)
      && |next.calls| == |l.calls| + 1
      && next.used == Tokens(l.used.input + script[0].input, l.used.output + script[0].output)
  {
    var t, rest := script[0], script[1..];
    assert OwnTurn(l.db, script, doneId, t);
    PreparedIds(task, l, script, IdAt(t, 0));
    TurnWritten(Called(task, l, t).db, task, t);
    SpentRuns(task, l, t);
    var next := Step(task, l, t).0;
    assert next == Spent(task, Called(task, l, t), t);
    SpentIds(task, l, script, doneId);
    UnusedRest(l.db, next.db, script, doneId);
    forall i | 0 <= i < |rest| ensures OwnTurn(next.db, rest, doneId, rest[i]) {
      assert rest[i] == script[i + 1] && OwnTurn(l.db, script, doneId, script[i + 1]);
      SpentIds(task, l, script, IdAt(rest[i], 0));
      SpentIds(task, l, script, IdAt(rest[i], 1));
      UnusedRest(l.db, next.db, script, IdAt(rest[i], 0));
      UnusedRest(l.db, next.db, script, IdAt(rest[i], 1));
    }
  }

  lemma UnusedRest(db: Db, next: Db, script: seq<Turn>, id: Id)
    requires script != [] && Unused(db, script, id) && !HasEvent(next.events, id)
    ensures Unused(next, script[1..], id)
  {
    var rest := script[1..];
    forall i, b | 0 <= i < |rest| && (b in rest[i].before || b in rest[i].after) ensures !HasEvent(b, id) {
      assert rest[i] == script[i + 1];
    }
  }

  // The turns before `k` go on, and none of them meets an exhausted budget.
  ghost predicate Reached(task: Task, start: Tokens, script: seq<Turn>, k: nat)
    requires k <= |script|
  {
    forall j :: 0 <= j < k ==> GoesOn(script[j]) && BudgetLeft(task.cap, UsedBefore(start, script, j))
  }

  lemma ReachedRest(task: Task, start: Tokens, script: seq<Turn>, k: nat)
    requires 0 < k <= |script| && Reached(task, start, script, k)
    ensures var next := Tokens(start.input + script[0].input, start.output + script[0].output);
      && Reached(task, next, script[1..], k - 1) && UsedBefore(next, script[1..], k - 1) == UsedBefore(start, script, k)
    ensures GoesOn(script[0]) && BudgetLeft(task.cap, start)
  {
    var next, rest := Tokens(start.input + script[0].input, start.output + script[0].output), script[1..];
    forall j | 0 <= j < k - 1 ensures GoesOn(rest[j]) && BudgetLeft(task.cap, UsedBefore(next, rest, j)) {
      assert GoesOn(script[j + 1]) && BudgetLeft(task.cap, UsedBefore(start, script, j + 1));
    }
    assert UsedBefore(start, script, 0) == start;
  }

  lemma {:induction false} UsedNext(start: Tokens, script: seq<Turn>, k: nat)
    requires k < |script|
    ensures var used := UsedBefore(start, script, k);
      UsedBefore(start, script, k + 1) == Tokens(used.input + script[k].input, used.output + script[k].output)
    decreases k
  {
    var next := Tokens(start.input + script[0].input, start.output + script[0].output);
    if k == 0 {
      assert UsedBefore(next, script[1..], 0) == next;
    } else {
      UsedNext(next, script[1..], k - 1);
    }
  }

  lemma {:induction false} LoopReaches(task: Task, l: Loop, script: seq<Turn>, doneId: Id, k: nat) returns (at: Loop)
    requires k <= |script| && task.run in l.db.runs && OwnIds(l.db, script, doneId) && Reached(task, l.used, script, k)
    ensures Turns(task, l, script) == Turns(task, at, script[k..])
    ensures task.run in at.db.runs && OwnIds(at.db, script[k..], doneId)
    ensures |at.calls| == |l.calls| + k && at.used == UsedBefore(l.used, script, k)
    decreases k
  {
    if k == 0 {
      at := l;
      assert script[0..] == script;
    } else {
      ReachedRest(task, l.used, script, k);
      StepOn(task, l, script, doneId);
      var next := Step(task, l, script[0]).0;
      at := LoopReaches(task, next, script[1..], doneId, k - 1);
      assert script[1..][k - 1..] == script[k..];
    }
  }

  // How a turn ends the loop: its verdict, how many calls there are then, and what becomes of the run.
  ghost predicate Breaks(task: Task, t: Turn, used: Tokens, calls: nat, doneId: Id, next: Loop, verdict: Verdict) {
    && task.run in next.db.runs && !HasEvent(next.db.events, doneId)
    && |next.calls| == (if t.setupFails then calls else calls + 1)
    && (if t.setupFails then verdict == Errored
        else if t.providerFails then verdict == Errored && next.db.runs[task.run].status.Failed?
        else if t.fault then verdict == Errored
        else if t.tools then verdict == Paused
        else if t.blank && t.stop == OtherStop then verdict == Errored && next.db.runs[task.run].status.Interrupted?
        else verdict == Finish && next.used == Tokens(used.input + t.input, used.output + t.output))
  }

  lemma StepEnds(task: Task, l: Loop, script: seq<Turn>, doneId: Id)
    requires task.run in l.db.runs && script != [] && OwnIds(l.db, script, doneId) && BudgetLeft(task.cap, l.used)
    requires !GoesOn(script[0])
    ensures var (next, verdict) := Step(task, l, script[0]);
      Breaks(task, script[0], l.used, |l.calls|, doneId, next, verdict)
  {
    var t := script[0];
    assert OwnTurn(l.db, script, doneId, t);
    PreparedIds(task, l, script, IdAt(t, 0));
    PreparedIds(task, l, script, doneId);
    SpentRuns(task, l, t);
    var called := Called(task, l, t);
    if !t.setupFails {
      if t.providerFails {
        StatusWritten(called.db, task, IdAt(t, 0), RunFailed);
        OneAddsId(called.db, EventOf(task, IdAt(t, 0), RunFailed), doneId);
      } else {
        TurnWritten(called.db, task, t);
        SpentIds(task, l, script, doneId);
        SpentIds(task, l, script, IdAt(t, 1));
        var spent := Spent(task, called, t);
        StatusWritten(spent.db, task, IdAt(t, 1), RunInterrupted);
        OneAddsId(spent.db, EventOf(task, IdAt(t, 1), RunInterrupted), doneId);
      }
    }
  }

  lemma StepStops(task: Task, l: Loop, script: seq<Turn>, doneId: Id)
    requires task.run in l.db.runs && script != [] && OwnIds(l.db, script, doneId) && !BudgetLeft(task.cap, l.used)
    ensures var (next, verdict) := Step(task, l, script[0]);
      && verdict == BudgetStopped && next.calls == l.calls
      && task.run in next.db.runs && next.db.runs[task.run].status.Interrupted? && !HasEvent(next.db.events, doneId)
  {
    var t := script[0];
    assert OwnTurn(l.db, script, doneId, t);
    var first, second := EventOf(task, IdAt(t, 0), NoProjection), EventOf(task, IdAt(t, 1), RunInterrupted);
    CommitKeepsRun(l.db, first, task.run);
    OneAddsId(l.db, first, IdAt(t, 1));
    OneAddsId(l.db, first, doneId);
    StatusWritten(Commit(l.db, [first]), task, IdAt(t, 1), RunInterrupted);
    OneAddsId(Commit(l.db, [first]), second, doneId);
  }

  ghost predicate Completed(task: Task, l: Loop, verdict: Verdict, used: Tokens, calls: nat) {
    && verdict == RunDone && |l.calls| == calls
    && task.run in l.db.runs && l.db.runs[task.run].status.Completed?
    && task.run in l.db.receipts && l.db.receipts[task.run] == Receipt(used.input, used.output)
  }

  // The loop has ended without completing the run.
  ghost predicate Ended(task: Task, l: Loop, doneId: Id, calls: nat) {
    |l.calls| == calls && task.run in l.db.runs && !HasEvent(l.db.events, doneId)
  }

  // How a loop ends at turn `k`. Without budget the run is interrupted after k calls. A failure before the call
  // leaves it at k. After k + 1 calls a failing provider fails the run, a failing write or batch is an error, a
  // batch that pauses pauses, an empty turn that is no end interrupts the run, and an end completes it, with a
  // receipt for what was used; only that journals the completion.
  ghost predicate EndsAt(task: Task, start: Tokens, script: seq<Turn>, doneId: Id, k: nat, l: Loop, verdict: Verdict)
    requires k <= |script|
  {
    if k == |script| then Completed(task, l, verdict, UsedBefore(start, script, k), k)
    else if !BudgetLeft(task.cap, UsedBefore(start, script, k)) then
      verdict == BudgetStopped && Ended(task, l, doneId, k) && l.db.runs[task.run].status.Interrupted?
    else
      var t := script[k];
      if t.setupFails then verdict == Errored && Ended(task, l, doneId, k)
      else if t.providerFails then
        verdict == Errored && Ended(task, l, doneId, k + 1) && l.db.runs[task.run].status.Failed?
      else if t.fault then verdict == Errored && Ended(task, l, doneId, k + 1)
      else if t.tools then verdict == Paused && Ended(task, l, doneId, k + 1)
      else if t.blank && t.stop == OtherStop then
        verdict == Errored && Ended(task, l, doneId, k + 1) && l.db.runs[task.run].status.Interrupted?
      else
        Completed(task, l, verdict, UsedBefore(start, script, k + 1), k + 1)
  }

  // The first turn that does not go on, or finds no budget, or the number of turns if there is none.
  ghost predicate FirstStop(task: Task, start: Tokens, script: seq<Turn>, k: nat) {
    && k <= |script| && Reached(task, start, script, k)
    && (k < |script| ==> !BudgetLeft(task.cap, UsedBefore(start, script, k)) || !GoesOn(script[k]))
  }

  // A loop whose turns are finished completes the run.
  lemma LoopCompletes(task: Task, at: Loop, doneId: Id)
    requires task.run in at.db.runs && !HasEvent(at.db.events, doneId)
    ensures var done := [EventOf(task, doneId, RunCompleted(at.used.input, at.used.output))];
      && Append(at.db, done).Ok?
      && Completed(task, at.(db := Commit(at.db, done)), RunDone, at.used, |at.calls|)
  {
    StatusWritten(at.db, task, doneId, RunCompleted(at.used.input, at.used.output));
    ReceiptWritten(at.db, EventOf(task, doneId, RunCompleted(at.used.input, at.used.output)));
  }

  lemma FinishedOutcome(task: Task, db: Db, script: seq<Turn>, doneId: Id, at: Loop)
    requires task.run in db.runs && task.loads && Turns(task, Begun(task, db), script) == (at, Finish)
    requires task.run in at.db.runs && !HasEvent(at.db.events, doneId)
    ensures var (l, verdict) := Outcome(task, db, script, doneId); Completed(task, l, verdict, at.used, |at.calls|)
  {
    LoopCompletes(task, at, doneId);
  }

  lemma LastTurn(task: Task, at: Loop, script: seq<Turn>)
    requires script != [] && Step(task, at, script[0]).1 != Again
    ensures Turns(task, at, script) == Step(task, at, script[0])
  {
  }

  lemma StopsAt(task: Task, db: Db, script: seq<Turn>, doneId: Id, k: nat, at: Loop)
    requires task.run in db.runs && task.loads && k < |script| && Turns(task, Begun(task, db), script) == Turns(task, at, script[k..])
    requires task.run in at.db.runs && OwnIds(at.db, script[k..], doneId) && !BudgetLeft(task.cap, at.used)
    requires |at.calls| == k && at.used == UsedBefore(Begun(task, db).used, script, k)
    ensures var (l, verdict) := Outcome(task, db, script, doneId);
      EndsAt(task, Begun(task, db).used, script, doneId, k, l, verdict)
  {
    assert script[k..][0] == script[k];
    StepStops(task, at, script[k..], doneId);
    LastTurn(task, at, script[k..]);
    var (next, verdict) := Step(task, at, script[k]);
    UnfinishedOutcome(task, db, script, doneId, next, verdict);
  }

  lemma BrokenOutcome(task: Task, db: Db, script: seq<Turn>, doneId: Id, k: nat, next: Loop, verdict: Verdict)
    requires task.run in db.runs && task.loads && k < |script| && Turns(task, Begun(task, db), script) == (next, verdict)
    requires var used := UsedBefore(Begun(task, db).used, script, k);
      BudgetLeft(task.cap, used) && Breaks(task, script[k], used, k, doneId, next, verdict)
    requires !GoesOn(script[k])
    ensures var (l, end) := Outcome(task, db, script, doneId);
      EndsAt(task, Begun(task, db).used, script, doneId, k, l, end)
  {
    if verdict == Finish {
      UsedNext(Begun(task, db).used, script, k);
      FinishedOutcome(task, db, script, doneId, next);
    } else {
      UnfinishedOutcome(task, db, script, doneId, next, verdict);
    }
  }

  lemma BreaksAt(task: Task, db: Db, script: seq<Turn>, doneId: Id, k: nat, at: Loop)
    requires task.run in db.runs && task.loads && k < |script| && Turns(task, Begun(task, db), script) == Turns(task, at, script[k..])
    requires task.run in at.db.runs && OwnIds(at.db, script[k..], doneId) && BudgetLeft(task.cap, at.used) && !GoesOn(script[k])
    requires |at.calls| == k && at.used == UsedBefore(Begun(task, db).used, script, k)
    ensures var (l, verdict) := Outcome(task, db, script, doneId);
      EndsAt(task, Begun(task, db).used, script, doneId, k, l, verdict)
  {
    assert script[k..][0] == script[k];
    StepEnds(task, at, script[k..], doneId);
    LastTurn(task, at, script[k..]);
    var (next, verdict) := Step(task, at, script[k]);
    BrokenOutcome(task, db, script, doneId, k, next, verdict);
  }

  lemma UnfinishedOutcome(task: Task, db: Db, script: seq<Turn>, doneId: Id, next: Loop, verdict: Verdict)
    requires task.run in db.runs && task.loads && Turns(task, Begun(task, db), script) == (next, verdict) && verdict != Finish
    ensures Outcome(task, db, script, doneId) == (next, verdict)
  {
  }

  // Where a loop stops, and how it ends there, told from the script alone.
  lemma LoopEndsAt(task: Task, db: Db, script: seq<Turn>, doneId: Id, k: nat)
    requires task.run in db.runs && task.loads && OwnIds(db, script, doneId)
    requires FirstStop(task, Tokens(db.runs[task.run].inputTokens, db.runs[task.run].outputTokens), script, k)
    ensures var (l, verdict) := Outcome(task, db, script, doneId);
      EndsAt(task, Tokens(db.runs[task.run].inputTokens, db.runs[task.run].outputTokens), script, doneId, k, l, verdict)
  {
    var at := LoopReaches(task, Begun(task, db), script, doneId, k);
    if k == |script| {
      FinishedOutcome(task, db, script, doneId, at);
    } else if !BudgetLeft(task.cap, at.used) {
      StopsAt(task, db, script, doneId, k, at);
    } else {
      BreaksAt(task, db, script, doneId, k, at);
    }
  }

  lemma LoopEnds(task: Task, db: Db, script: seq<Turn>, doneId: Id)
    ensures task.run in db.runs && task.loads && OwnIds(db, script, doneId) ==>
      var start := Tokens(db.runs[task.run].inputTokens, db.runs[task.run].outputTokens);
      var (l, verdict) := Outcome(task, db, script, doneId);
      forall k :: FirstStop(task, start, script, k) ==> EndsAt(task, start, script, doneId, k, l, verdict)
  {
    if task.run in db.runs && task.loads && OwnIds(db, script, doneId) {
      var start := Tokens(db.runs[task.run].inputTokens, db.runs[task.run].outputTokens);
      var (l, verdict) := Outcome(task, db, script, doneId);
      forall k | FirstStop(task, start, script, k) ensures EndsAt(task, start, script, doneId, k, l, verdict) {
        LoopEndsAt(task, db, script, doneId, k);
      }
    }
  }

  // There is always such a turn, or the end of the turns.
  lemma {:induction false} FirstStopExists(task: Task, start: Tokens, script: seq<Turn>, from: nat) returns (k: nat)
    requires from <= |script| && Reached(task, start, script, from)
    ensures FirstStop(task, start, script, k)
    decreases |script| - from
  {
    k := from;
    if from < |script| && GoesOn(script[from]) && BudgetLeft(task.cap, UsedBefore(start, script, from)) {
      k := FirstStopExists(task, start, script, from + 1);
    }
  }

  /// Loops resumed one after the other

  // A run's history as far as its loops do not overlap: whole loops, and commits of others in between.
  datatype Act = Resume(script: seq<Turn>, doneId: Id) | Meanwhile(batches: seq<seq<Event>>)

  ghost function Acted(task: Task, db: Db, acts: seq<Act>): Db {
    if acts == [] then db else
    var before := Acted(task, db, acts[..|acts| - 1]);
    match acts[|acts| - 1]
    case Resume(script, doneId) => Outcome(task, before, script, doneId).0.db
    case Meanwhile(batches) => CommitAll(before, batches)
  }

  ghost predicate QuietAct(act: Act, run: Id, most: int) {
    match act
    case Resume(script, _) => QuietScript(script, run) && forall i :: 0 <= i < |script| ==> script[i].input + script[i].output <= most
    case Meanwhile(batches) => Quiet(batches, run)
  }

  lemma {:induction false} TurnsOvershoot(task: Task, l: Loop, script: seq<Turn>, most: int)
    requires Balanced(task, l) && CallsUnderCap(task, l) && task.cap > 0 && Total(l.used) < task.cap + most
    requires forall i :: 0 <= i < |script| ==> script[i].input + script[i].output <= most
    ensures Total(Turns(task, l, script).0.used) < task.cap + most
    decreases |script|
  {
    if script != [] {
      StepBalanced(task, l, script[0]);
      var (next, verdict) := Step(task, l, script[0]);
      if verdict == Again { TurnsOvershoot(task, next, script[1..], most); }
    }
  }

  // However often a run is resumed, its stored total stays below the cap plus its largest single turn.
  lemma {:induction false} OvershootOneTurn(task: Task, db: Db, acts: seq<Act>, most: int)
    requires task.run in db.runs && task.cap > 0 && Total(Stored(db, task.run)) < task.cap + most
    requires forall i :: 0 <= i < |acts| ==> QuietAct(acts[i], task.run, most)
    ensures var d := Acted(task, db, acts);
      task.run in d.runs && Total(Stored(d, task.run)) < task.cap + most
  {
    if acts != [] {
      var before := Acted(task, db, acts[..|acts| - 1]);
      OvershootOneTurn(task, db, acts[..|acts| - 1], most);
      assert QuietAct(acts[|acts| - 1], task.run, most);
      match acts[|acts| - 1] {
        case Resume(script, doneId) =>
          OutcomeBalanced(task, before, script, doneId);
          TurnsOvershoot(task, Begun(task, before), script, most);
        case Meanwhile(batches) => CommitAllKeepsRun(before, batches, task.run);
      }
    }
  }
}
