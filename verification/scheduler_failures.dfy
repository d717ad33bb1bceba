/** The failure counter of a schedule against the history of the summaries written to it. */
module SchedulerFailures {
  import opened Basics
  import opened Slots
  import opened SchedulerStore
  import opened SchedulerWorld

  // The length of the block of failures at the end.
  function Trailing(log: seq<OccStatus>): nat {
    if log == [] || log[|log| - 1] != Failed then 0 else 1 + Trailing(log[..|log| - 1])
  }

  // The counter: the trailing failures; nothing after another end; untouched by a wait for approval.
  function Expected(log: seq<OccStatus>): nat {
    if log == [] then 0
    else match log[|log| - 1]
         case Failed => Trailing(log)
         case NeedsApproval => Expected(log[..|log| - 1])
         case _ => 0
  }

  function LogOf(w: World, id: Id): seq<OccStatus> {
    if id in w.writes then w.writes[id] else []
  }

  ghost predicate CountOk(w: World, id: Id)
    requires id in w.tables.schedules
  {
    var s, log := w.tables.schedules[id], LogOf(w, id);
    && s.consecutiveFailures == Expected(log)
    && (if log == [] then s.lastStatus.None? && s.lastRunAt.None?
        else s.lastStatus == Some(log[|log| - 1]) && s.lastRunAt.Some?)
  }

  ghost predicate Counted(w: World) {
    && w.writes.Keys <= w.tables.schedules.Keys
    && forall id :: id in w.tables.schedules ==> CountOk(w, id)
  }

  // Writing one more summary moves the counter as its history says.
  lemma SummarizeCounts(s: Schedule, log: seq<OccStatus>, status: OccStatus, slot: int)
    requires s.consecutiveFailures == Expected(log)
    requires if log == [] then s.lastStatus.None? else s.lastStatus == Some(log[|log| - 1]) && s.lastRunAt.Some?
    requires status.Finished() || status.NeedsApproval?
    ensures Summarize(s, status, slot).consecutiveFailures == Expected(log + [status])
    ensures Summarize(s, status, slot).lastStatus == Some(status) && Summarize(s, status, slot).lastRunAt == Some(slot)
  {
    var all := log + [status];
    assert all[..|all| - 1] == log;
    assert Trailing(all) == if status == Failed then 1 + Trailing(log) else 0;
    assert log == [] || log[|log| - 1] != Failed ==> Trailing(log) == 0;
  }

  lemma ReachedCounts(w: World, o: Id, status: OccStatus, now: int)
    requires Counted(w) && Loads(w.tables, o)
    requires status.Finished() || status.NeedsApproval? || status.Active?
    ensures Counted(Reached(w, o, status, now))
  {
    var id := w.tables.occs[o].schedule;
    var d := Reached(w, o, status, now);
    assert CountOk(w, id);
    if !status.Active? { SummarizeCounts(w.tables.schedules[id], LogOf(w, id), status, w.tables.occs[o].slot); }
    forall s | s in d.tables.schedules ensures CountOk(d, s) { assert CountOk(w, s); }
  }

  predicate SameSummary(a: Schedule, b: Schedule) {
    a.lastStatus == b.lastStatus && a.lastRunAt == b.lastRunAt && a.consecutiveFailures == b.consecutiveFailures
  }

  predicate Unrun(s: Schedule) {
    s.lastStatus.None? && s.lastRunAt.None? && s.consecutiveFailures == 0
  }

  // A step that leaves the summary columns alone, and may add schedules.
  lemma SummariesKept(w: World, d: World)
    requires Counted(w) && d.writes == w.writes
    requires forall id :: id in w.tables.schedules ==>
      id in d.tables.schedules && SameSummary(w.tables.schedules[id], d.tables.schedules[id])
    requires forall id :: id in d.tables.schedules && id !in w.tables.schedules ==> Unrun(d.tables.schedules[id])
    ensures Counted(d)
  {
    forall id | id in d.tables.schedules ensures CountOk(d, id) {
      if id in w.tables.schedules { assert CountOk(w, id); }
    }
  }

  // The tables keep every summary, and a schedule that is new has none.
  ghost predicate KeepsSummaries(t: Tables, d: Tables) {
    && (forall id :: id in t.schedules ==> id in d.schedules && SameSummary(t.schedules[id], d.schedules[id]))
    && (forall id :: id in d.schedules && id !in t.schedules ==> Unrun(d.schedules[id]))
  }

  lemma CreateKeeps(t: Tables, id: Id, spec: Spec, enabled: bool, now: int)
    ensures var r := Created(t, id, spec, enabled, now); r.Ok? ==> KeepsSummaries(t, r.value)
  {
  }

  lemma WriteKeeps(t: Tables, id: Id, loaded: Schedule, e: Edit, now: int)
    ensures var r := WriteEdit(t, id, loaded, e, now); r.Ok? ==> KeepsSummaries(t, r.value)
  {
  }

  lemma EditedCounts(w: World, edits: map<Id, Loaded>, r: Result<Tables, StoreError>)
    requires Counted(w) && (r.Ok? ==> KeepsSummaries(w.tables, r.value))
    ensures Counted(Edited(w.(edits := edits), r))
  {
    SummariesKept(w, Edited(w.(edits := edits), r));
  }

  lemma EditCounts(w: World, s: Step)
    requires Counted(w) && Enabled(w, s) && (s.CreateSchedule? || s.LoadRow? || s.WriteRow?)
    ensures Counted(Next(w, s))
  {
    if s.CreateSchedule? {
      CreateKeeps(w.tables, s.id, s.spec, s.enabled, s.now);
      EditedCounts(w, w.edits, Created(w.tables, s.id, s.spec, s.enabled, s.now));
    } else if s.WriteRow? {
      var l := w.edits[s.editor];
      WriteKeeps(w.tables, l.id, l.row, s.edit, s.now);
      EditedCounts(w, w.edits - {s.editor}, WriteEdit(w.tables, l.id, l.row, s.edit, s.now));
    } else {
      SummariesKept(w, Next(w, s));
    }
  }

  lemma EnteredCounts(w: World, manual: set<Id>, a: Id, t: Tables, claim: Claim, occ: Id)
    requires Counted(w) && KeepsSummaries(w.tables, t)
    ensures Counted(Entered(w.(manual := manual), a, t, claim, occ))
  {
    SummariesKept(w, Entered(w.(manual := manual), a, t, claim, occ));
  }

  lemma ClaimCounts(w: World, s: Step)
    requires Counted(w) && Enabled(w, s) && (s.ClaimDue? || s.RunNow?)
    ensures Counted(Next(w, s))
  {
    ClaimFrame(w.tables, s.id, s.now, s.occ);
    if s.ClaimDue? {
      var (t, claim) := SchedulerStore.ClaimDue(w.tables, s.id, s.now, s.occ);
      EnteredCounts(w, w.manual, s.agent, t, claim, s.occ);
    } else {
      var (t, claim) := ClaimManual(w.tables, s.id, s.now, s.occ);
      EnteredCounts(w, if s.occ in t.occs then w.manual + {s.occ} else w.manual, s.agent, t, claim, s.occ);
    }
  }

  lemma SyncCounts(w: World, a: Id, now: int)
    requires Counted(w) && Enabled(w, TakeSync(a, now))
    ensures Counted(Next(w, TakeSync(a, now)))
  {
    var tok := AgentOf(w, a).doing.value;
    if Loads(w.tables, tok.occ) && FromRun(tok.status) != w.tables.occs[tok.occ].status {
      ReachedCounts(w, tok.occ, FromRun(tok.status), now);
      SummariesKept(Reached(w, tok.occ, FromRun(tok.status), now), Next(w, TakeSync(a, now)));
    } else {
      SummariesKept(w, Next(w, TakeSync(a, now)));
    }
  }

  lemma FailCounts(w: World, a: Id, now: int)
    requires Counted(w) && Enabled(w, TakeFail(a, now))
    ensures Counted(Next(w, TakeFail(a, now)))
  {
    var o := AgentOf(w, a).doing.value.occ;
    if Loads(w.tables, o) {
      ReachedCounts(w, o, Failed, now);
      SummariesKept(Reached(w, o, Failed, now), Next(w, TakeFail(a, now)));
    } else {
      SummariesKept(w, Next(w, TakeFail(a, now)));
    }
  }

  lemma DeliverFrame(w: World, s: Step)
    requires Enabled(w, s) && s.Deliver?
    ensures Next(w, s).tables.schedules == w.tables.schedules && Next(w, s).writes == w.writes
  {
  }

  lemma LookupFrame(w: World, s: Step)
    requires Enabled(w, s) && s.Lookup?
    ensures Next(w, s).tables.schedules == w.tables.schedules && Next(w, s).writes == w.writes
  {
  }

  lemma ExamineFrame(w: World, s: Step)
    requires Enabled(w, s) && s.Examine?
    ensures Next(w, s).tables.schedules == w.tables.schedules && Next(w, s).writes == w.writes
  {
    ExaminedTouches(w, s.agent, s.now);
  }

  lemma PassingFrame(w: World, s: Step)
    requires Enabled(w, s) && (s.Tick? || s.TakeAccept? || s.ListOpen? || s.Journal? || s.Abandon? || s.Crash?)
    ensures Next(w, s).tables.schedules == w.tables.schedules && Next(w, s).writes == w.writes
  {
  }

  // The other steps leave schedules and history alone.
  lemma QuietCounts(w: World, s: Step)
    requires Counted(w) && Enabled(w, s)
    requires !s.TakeSync? && !s.TakeFail? && !s.ClaimDue? && !s.RunNow?
    requires !s.CreateSchedule? && !s.LoadRow? && !s.WriteRow?
    ensures Counted(Next(w, s))
  {
    if s.Deliver? {
      DeliverFrame(w, s);
    } else if s.Lookup? {
      LookupFrame(w, s);
    } else if s.Examine? {
      ExamineFrame(w, s);
    } else {
      PassingFrame(w, s);
    }
    SummariesKept(w, Next(w, s));
  }

  lemma StepCounts(w: World, s: Step)
    requires Counted(w) && Enabled(w, s)
    ensures Counted(Next(w, s))
  {
    if s.TakeSync? {
      SyncCounts(w, s.agent, s.now);
    } else if s.TakeFail? {
      FailCounts(w, s.agent, s.now);
    } else if s.ClaimDue? || s.RunNow? {
      ClaimCounts(w, s);
    } else if s.CreateSchedule? || s.LoadRow? || s.WriteRow? {
      EditCounts(w, s);
    } else {
      QuietCounts(w, s);
    }
  }

  lemma {:induction false} RunCounts(w: World, steps: seq<Step>, last: World)
    requires Counted(w) && IsRun(w, steps, last)
    ensures Counted(last)
    decreases |steps|
  {
    if steps != [] {
      StepCounts(w, steps[0]);
      RunCounts(Next(w, steps[0]), steps[1..], last);
    }
  }

  // Over every run: after a failure the counter is the length of the block of failures, after another
  // end it is nothing, and a wait for approval leaves what was there but ends the block.
  lemma FailureCounter(w: World, steps: seq<Step>, last: World, id: Id)
    requires Initial(w) && IsRun(w, steps, last) && id in last.tables.schedules
    ensures var s, log := last.tables.schedules[id], LogOf(last, id);
      && (s.lastStatus.Some? <==> log != [])
      && (log != [] ==> s.lastStatus.value == log[|log| - 1])
      && (s.lastStatus == Some(Failed) ==> s.consecutiveFailures == Trailing(log))
      && (s.lastStatus == Some(Completed) || s.lastStatus == Some(Interrupted) ==> s.consecutiveFailures == 0)
      && (s.lastStatus == Some(NeedsApproval) ==> s.consecutiveFailures == Expected(log[..|log| - 1]))
  {
    assert Counted(w);
    RunCounts(w, steps, last);
    assert CountOk(last, id);
  }
}
