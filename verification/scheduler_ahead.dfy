/**
 When the scheduler's own claims never overlap: as long as every edit writes a next run that is not before
 the slot of an open occurrence. An edit works on a row it loaded earlier, so it can write one that is.
 */
module SchedulerAhead {
  import opened Basics
  import opened Slots
  import opened SchedulerStore
  import opened SchedulerWorld
  import opened SchedulerOverlap
  import opened SchedulerCrowding
  import J = Journal
  import Inbound

  // The next run of an enabled schedule is not before what its own claims have left open.
  ghost predicate Ahead(w: World) {
    forall o :: IsOpen(w, o) && o !in w.manual ==> NotBehind(w, w.tables.occs[o].schedule, w.tables.occs[o].slot)
  }

  predicate NotBehind(w: World, id: Id, slot: int) {
    if id in w.tables.schedules && w.tables.schedules[id].enabled && w.tables.schedules[id].nextRunAt.Some?
    then slot <= w.tables.schedules[id].nextRunAt.value
    else true
  }

  // Before a write: the row it is going to leave.
  function RowAfter(w: World, editor: Id, edit: Edit, now: int): Option<Schedule>
    requires editor in w.edits
  {
    var l := w.edits[editor];
    if l.id !in w.tables.schedules then None else
    match NextWritten(l.row, edit, now)
    case Err(_) => None
    case Ok(next) => Some(RowWritten(w.tables.schedules[l.id], l.row, edit, next))
  }

  // Before a write: if the row stays enabled, its next run is not before the slot of anything open.
  ghost predicate WritesAhead(w: World, editor: Id, edit: Edit, now: int)
    requires editor in w.edits
  {
    var row := RowAfter(w, editor, edit, now);
    row.Some? && row.value.enabled && row.value.nextRunAt.Some? ==>
      forall o :: o in OpenOf(w, w.edits[editor].id) && o !in w.manual ==> w.tables.occs[o].slot <= row.value.nextRunAt.value
  }

  // The 64-bit slot arithmetic of the claims is exact.
  ghost predicate Exact(w: World, s: Step) {
    s.ClaimDue? && s.id in w.tables.schedules ==> InRange(w.tables.schedules[s.id].spec, s.now + 1)
  }

  /// What keeps the next run ahead

  lemma WrittenIs(w: World, s: Step)
    requires Enabled(w, s) && s.WriteRow?
    ensures var d := Next(w, s);
      var row := RowAfter(w, s.editor, s.edit, s.now);
      && d.tables.occs == w.tables.occs && d.manual == w.manual
      && d.tables.schedules == if row.Some? then w.tables.schedules[w.edits[s.editor].id := row.value] else w.tables.schedules
  {
  }

  lemma WriteAheadIff(w: World, s: Step)
    requires Ahead(w) && Enabled(w, s) && s.WriteRow?
    ensures Ahead(Next(w, s)) <==> WritesAhead(w, s.editor, s.edit, s.now)
  {
    var d := Next(w, s);
    WrittenIs(w, s);
    if Ahead(d) {
      forall o | o in OpenOf(w, w.edits[s.editor].id) && o !in w.manual
        ensures NotBehind(d, w.edits[s.editor].id, w.tables.occs[o].slot)
      {
        assert IsOpen(d, o);
      }
    }
    if WritesAhead(w, s.editor, s.edit, s.now) {
      forall o: Id | IsOpen(d, o) && o !in d.manual ensures NotBehind(d, d.tables.occs[o].schedule, d.tables.occs[o].slot) {
        assert IsOpen(w, o);
        assert o in OpenOf(w, d.tables.occs[o].schedule);
      }
    }
  }

  // Nothing opens and no next run moves, unless it is a new schedule's.
  lemma QuietAhead(w: World, d: World)
    requires Base(w) && Ahead(w) && RowsKept(w, d) && OpensNone(w, d, {})
    requires forall id :: id in w.tables.schedules ==> SameNext(d.tables.schedules[id], w.tables.schedules[id])
    ensures Ahead(d)
  {
    forall o: Id | IsOpen(d, o) && o !in d.manual ensures NotBehind(d, d.tables.occs[o].schedule, d.tables.occs[o].slot) {
      assert IsOpen(w, o) && SameSlot(d.tables.occs[o], w.tables.occs[o]) && Placed(w, o);
      assert NotBehind(w, w.tables.occs[o].schedule, w.tables.occs[o].slot);
    }
  }

  lemma QuietNext(w: World, s: Step)
    requires Enabled(w, s) && !s.ClaimDue? && !s.RunNow? && !s.WriteRow?
    ensures forall id :: id in w.tables.schedules ==>
      id in Next(w, s).tables.schedules && SameNext(Next(w, s).tables.schedules[id], w.tables.schedules[id])
  {
    if s.TakeAccept? || s.TakeSync? || s.TakeFail? {
      TookRows(w, s);
    } else if Silent(s) {
      SilentFrame(w, s);
    }
  }

  lemma ClaimDueAhead(w: World, s: Step)
    requires Base(w) && Ahead(w) && Enabled(w, s) && s.ClaimDue? && Exact(w, s)
    ensures Ahead(Next(w, s))
  {
    var (t, claim) := SchedulerStore.ClaimDue(w.tables, s.id, s.now, s.occ);
    EnteredFrame(w, s.agent, t, claim, s.occ);
    DueAhead(w, Next(w, s), s.id, s.now, s.occ);
  }

  lemma DueAhead(w: World, d: World, id: Id, now: int, occ: Id)
    requires Base(w) && Ahead(w) && occ !in w.tables.occs
    requires d.tables == SchedulerStore.ClaimDue(w.tables, id, now, occ).0 && d.manual == w.manual
    requires id in w.tables.schedules ==> InRange(w.tables.schedules[id].spec, now + 1)
    ensures Ahead(d)
  {
    ClaimFrame(w.tables, id, now, occ);
    if id in w.tables.schedules && IsDue(w.tables.schedules[id], now) { ClaimAdvances(w.tables, id, now, occ); }
    forall o: Id | IsOpen(d, o) && o !in d.manual ensures NotBehind(d, d.tables.occs[o].schedule, d.tables.occs[o].slot) {
      if o in w.tables.occs {
        assert IsOpen(w, o) && NotBehind(w, w.tables.occs[o].schedule, w.tables.occs[o].slot);
      }
    }
  }

  lemma RunNowAhead(w: World, s: Step)
    requires Base(w) && Ahead(w) && Enabled(w, s) && s.RunNow?
    ensures Ahead(Next(w, s))
  {
    var d := Next(w, s);
    var (t, claim) := ClaimManual(w.tables, s.id, s.now, s.occ);
    EnteredFrame(w.(manual := if s.occ in t.occs then w.manual + {s.occ} else w.manual), s.agent, t, claim, s.occ);
    ClaimFrame(w.tables, s.id, s.now, s.occ);
    forall o: Id | IsOpen(d, o) && o !in d.manual ensures NotBehind(d, d.tables.occs[o].schedule, d.tables.occs[o].slot) {
      assert o != s.occ;
      assert IsOpen(w, o) && NotBehind(w, w.tables.occs[o].schedule, w.tables.occs[o].slot);
    }
  }

  // Of all steps that reopen nothing, only the write of an edit can put a next run behind, and it does if and
  // only if, before it, the row it is going to write is.
  lemma StepAheadIff(w: World, s: Step)
    requires Base(w) && Ahead(w) && Enabled(w, s) && Exact(w, s) && !Reopens(w, s)
    ensures Ahead(Next(w, s)) <==> (s.WriteRow? ==> WritesAhead(w, s.editor, s.edit, s.now))
  {
    if s.ClaimDue? {
      ClaimDueAhead(w, s);
    } else if s.RunNow? {
      RunNowAhead(w, s);
    } else if s.WriteRow? {
      WriteAheadIff(w, s);
    } else {
      OtherRows(w, s);
      if s.TakeAccept? || s.TakeSync? || s.TakeFail? { TakeStatus(w, s); }
      QuietNext(w, s);
      QuietAhead(w, Next(w, s));
    }
  }

  /// What a next run that is behind leads to

  // Before a write: everything open has its slot at or before the written next run, or that slot is taken.
  ghost predicate Harmless(w: World, editor: Id, edit: Edit, now: int)
    requires editor in w.edits
  {
    var row := RowAfter(w, editor, edit, now);
    row.Some? && row.value.enabled && row.value.nextRunAt.Some? && ValidateSpec(row.value.spec).None? ==>
      || SlotTaken(w.tables.occs, w.edits[editor].id, row.value.nextRunAt.value)
      || forall o :: o in OpenOf(w, w.edits[editor].id) ==> w.tables.occs[o].slot <= row.value.nextRunAt.value
  }

  lemma NewId(used: set<Id>) returns (id: Id)
    ensures id !in used
  {
    id := 0;
    ghost var rest := used;
    while id in used
      invariant rest <= used && forall i :: i in used && i !in rest ==> i < id
      invariant forall i :: i in rest ==> i >= id
      decreases rest
    {
      rest := rest - {id};
      id := id + 1;
    }
  }

  // No claim of that schedule that may come next makes two open.
  ghost predicate NextClaimSafe(d: World, id: Id) {
    forall a, now, occ :: Enabled(d, Step.ClaimDue(a, id, now, occ)) && Exact(d, Step.ClaimDue(a, id, now, occ))
      ==> AtMost(Next(d, Step.ClaimDue(a, id, now, occ)), 1)
  }

  lemma SameOpen(w: World, d: World)
    requires d.tables.occs == w.tables.occs
    ensures forall id :: OpenOf(d, id) == OpenOf(w, id)
    ensures forall k: nat :: AtMost(w, k) ==> AtMost(d, k)
  {
    forall id ensures OpenOf(d, id) == OpenOf(w, id) { }
  }

  lemma BehindClaims(w: World, d: World, id: Id, o: Id)
    requires Base(w) && AtMost(w, 1) && d.tables.occs == w.tables.occs && d.clock == w.clock && id in d.tables.schedules
    requires var row := d.tables.schedules[id];
      && row.enabled && row.nextRunAt.Some? && ValidateSpec(row.spec).None? && InRange(row.spec, d.clock + 1)
      && !SlotTaken(d.tables.occs, id, row.nextRunAt.value)
      && o in OpenOf(w, id) && row.nextRunAt.value < w.tables.occs[o].slot
    ensures !NextClaimSafe(d, id)
  {
    var a := NewId(d.agents.Keys);
    var occ := NewId(d.tables.occs.Keys);
    var s := Step.ClaimDue(a, id, d.clock, occ);
    var row := d.tables.schedules[id];
    assert Placed(w, o);
    NextDefined(row.spec, d.clock + 1);
    SameOpen(w, d);
    OnlyOne(w, id, o);
    assert ComesBeforeAll(d, id, row.nextRunAt.value);
    assert Enabled(d, s) && Crowds(d, s, 1);
    StepCrowdsIff(d, s, 1);
  }

  lemma OnlyOne(w: World, id: Id, o: Id)
    requires AtMost(w, 1) && o in OpenOf(w, id)
    ensures OpenOf(w, id) == {o}
  {
    Fewer({o}, OpenOf(w, id));
    assert |OpenOf(w, id) - {o}| == |OpenOf(w, id)| - 1;
  }

  lemma HarmlessClaims(w: World, d: World, id: Id)
    requires AtMost(w, 1) && d.tables.occs == w.tables.occs
    requires id in d.tables.schedules ==>
      var row := d.tables.schedules[id];
      row.enabled && row.nextRunAt.Some? && ValidateSpec(row.spec).None? ==>
        || SlotTaken(w.tables.occs, id, row.nextRunAt.value)
        || forall o :: o in OpenOf(w, id) ==> w.tables.occs[o].slot <= row.nextRunAt.value
    ensures NextClaimSafe(d, id)
  {
    SameOpen(w, d);
    forall a, now, occ | Enabled(d, Step.ClaimDue(a, id, now, occ)) && Exact(d, Step.ClaimDue(a, id, now, occ))
      ensures AtMost(Next(d, Step.ClaimDue(a, id, now, occ)), 1)
    {
      var s := Step.ClaimDue(a, id, now, occ);
      StepCrowdsIff(d, s, 1);
      if |OpenOf(d, id)| == 1 { var o :| o in OpenOf(d, id); }
    }
  }

  // While no more than one occurrence of a schedule is open, the write of an edit rules out that the next
  // claim overlaps it if and only if, before the write, the row it is going to leave is disabled or invalid,
  // or its next run is none, a taken slot, or not before the slot of the open occurrence.
  lemma WriteExcludesOverlapIff(w: World, s: Step)
    requires Base(w) && AtMost(w, 1) && Enabled(w, s) && s.WriteRow?
    requires RowAfter(w, s.editor, s.edit, s.now).Some?
    requires InRange(RowAfter(w, s.editor, s.edit, s.now).value.spec, w.clock + 1)
    ensures NextClaimSafe(Next(w, s), w.edits[s.editor].id) <==> Harmless(w, s.editor, s.edit, s.now)
  {
    var d, id := Next(w, s), w.edits[s.editor].id;
    WrittenIs(w, s);
    EditRows(w, s);
    if Harmless(w, s.editor, s.edit, s.now) {
      HarmlessClaims(w, d, id);
    } else {
      var o :| o in OpenOf(w, id) && d.tables.schedules[id].nextRunAt.value < w.tables.occs[o].slot;
      BehindClaims(w, d, id, o);
    }
  }

  /// The scheduler loop alone

  // Only the scheduler's own loop, agent 0, acts on the occurrences, and nobody runs a schedule by hand.
  predicate Solo(s: Step) {
    match s
    case RunNow(_, _, _, _) => false
    case ClaimDue(a, _, _, _) => a == 0
    case Deliver(a, _, _, _) => a == 0
    case Lookup(a) => a == 0
    case TakeAccept(a, _) => a == 0
    case TakeSync(a, _) => a == 0
    case TakeFail(a, _) => a == 0
    case ListOpen(a, _) => a == 0
    case Examine(a, _) => a == 0
    case Abandon(a) => a == 0
    case _ => true
  }

  predicate Held(t: Tables, o: Id) {
    o in t.occs && t.occs[o].status.Open()
  }

  // Whatever the loop has in hand or in its listing is still open.
  ghost predicate InHand(t: Tables, agent: Agent) {
    && (agent.doing.Some? ==> Held(t, agent.doing.value.occ))
    && (forall i :: 0 <= i < |agent.queue| ==>
          Held(t, agent.queue[i].id) && (agent.doing.Some? ==> agent.queue[i].id != agent.doing.value.occ))
    && (forall i, j :: 0 <= i < j < |agent.queue| ==> agent.queue[i].id != agent.queue[j].id)
  }

  ghost predicate Sequential(w: World) {
    w.agents.Keys <= {0} && w.manual == {} && InHand(w.tables, AgentOf(w, 0))
  }

  lemma SequentialNeverReopens(w: World, s: Step)
    requires Sequential(w) && Enabled(w, s) && Solo(s)
    ensures !Reopens(w, s)
  {
  }

  // The tables change for one occurrence at most, which the agent lets go of or keeps open.
  lemma InHandKept(t: Tables, d: Tables, agent: Agent, next: Agent, o: Id)
    requires InHand(t, agent)
    requires forall p :: p in t.occs && p != o ==> p in d.occs && d.occs[p].status == t.occs[p].status
    requires next.queue == agent.queue || next.queue == []
    requires forall i :: 0 <= i < |next.queue| ==> next.queue[i].id != o
    requires next.doing.Some? ==> next.doing.value.occ == o && Held(d, o)
    ensures InHand(d, next)
  {
  }

  lemma InHandSame(t: Tables, d: Tables, agent: Agent)
    requires InHand(t, agent)
    requires forall p :: p in t.occs ==> p in d.occs && d.occs[p].status == t.occs[p].status
    ensures InHand(d, agent)
  {
  }

  lemma SequentialExamine(w: World, now: int)
    requires Sequential(w) && Enabled(w, Examine(0, now))
    ensures InHand(w.tables, AgentOf(Next(w, Examine(0, now)), 0))
  {
    var q := AgentOf(w, 0).queue;
    var d := Next(w, Examine(0, now));
    assert AgentOf(d, 0).queue == q[1..] || AgentOf(d, 0) == Agent([], None);
    assert forall i :: 0 <= i < |q| - 1 ==> q[1..][i] == q[i + 1];
    assert AgentOf(d, 0).doing.Some? ==> AgentOf(d, 0).doing.value.occ == q[0].id;
  }

  lemma SequentialEdit(w: World, s: Step)
    requires Sequential(w) && Enabled(w, s) && (s.CreateSchedule? || s.LoadRow? || s.WriteRow?)
    ensures Sequential(Next(w, s))
  {
    assert Next(w, s).tables.occs == w.tables.occs;
    InHandSame(w.tables, Next(w, s).tables, AgentOf(w, 0));
  }

  lemma SequentialClaim(w: World, s: Step)
    requires Sequential(w) && Enabled(w, s) && Solo(s) && s.ClaimDue?
    ensures Sequential(Next(w, s))
  {
    var (t, claim) := SchedulerStore.ClaimDue(w.tables, s.id, s.now, s.occ);
    var agent := AgentOf(w, 0);
    if claim.Claimed? {
      InHandKept(w.tables, t, agent, agent.(doing := Some(Dispatch(s.occ))), s.occ);
    } else {
      InHandSame(w.tables, t, agent);
    }
  }

  lemma SequentialCall(w: World, s: Step)
    requires Sequential(w) && Enabled(w, s) && Solo(s) && (s.Deliver? || s.Lookup?)
    ensures Sequential(Next(w, s))
  {
    var o := AgentOf(w, 0).doing.value.occ;
    var next := AgentOf(Next(w, s), 0);
    assert next == Agent([], None) || (next.queue == AgentOf(w, 0).queue && next.doing.Some? && next.doing.value.occ == o);
    InHandKept(w.tables, w.tables, AgentOf(w, 0), next, o);
  }

  lemma SequentialTake(w: World, s: Step)
    requires Sequential(w) && Enabled(w, s) && Solo(s) && (s.TakeAccept? || s.TakeSync? || s.TakeFail?)
    ensures Sequential(Next(w, s))
  {
    var o := AgentOf(w, 0).doing.value.occ;
    var next := AgentOf(Next(w, s), 0);
    assert next.doing.Some? ==> next.doing.value.occ == o;
    InHandKept(w.tables, Next(w, s).tables, AgentOf(w, 0), next, o);
  }

  lemma SequentialSilent(w: World, s: Step)
    requires Sequential(w) && Enabled(w, s) && Solo(s)
    requires s.Tick? || s.ListOpen? || s.Journal? || s.Abandon? || s.Crash?
    ensures Sequential(Next(w, s))
  {
  }

  lemma SequentialExamined(w: World, s: Step)
    requires Sequential(w) && Enabled(w, s) && Solo(s) && s.Examine?
    ensures Sequential(Next(w, s))
  {
    SequentialExamine(w, s.now);
    ExaminedTouches(w, 0, s.now);
  }

  lemma SequentialStep(w: World, s: Step)
    requires Sequential(w) && Enabled(w, s) && Solo(s)
    ensures Sequential(Next(w, s))
  {
    if s.CreateSchedule? || s.LoadRow? || s.WriteRow? {
      SequentialEdit(w, s);
    } else if s.ClaimDue? {
      SequentialClaim(w, s);
    } else if s.Deliver? || s.Lookup? {
      SequentialCall(w, s);
    } else if s.TakeAccept? || s.TakeSync? || s.TakeFail? {
      SequentialTake(w, s);
    } else if s.Examine? {
      SequentialExamined(w, s);
    } else {
      SequentialSilent(w, s);
    }
  }

  // A claim finds nothing open with a slot past the next run, so it opens only where nothing is open.
  lemma AheadNeverCrowds(w: World, s: Step)
    requires Ahead(w) && w.manual == {} && Enabled(w, s) && !Reopens(w, s) && !s.RunNow?
    ensures !Crowds(w, s, 1)
  {
    if s.ClaimDue? && |OpenOf(w, s.id)| == 1 {
      var o :| o in OpenOf(w, s.id);
      assert IsOpen(w, o) && NotBehind(w, s.id, w.tables.occs[o].slot);
    }
  }

  // A run in range whose writes leave no next run behind anything open.
  ghost predicate WritesAheadRun(w: World, steps: seq<Step>)
    decreases |steps|
  {
    steps == [] ||
    (&& Enabled(w, steps[0]) && Exact(w, steps[0])
     && (steps[0].WriteRow? ==> WritesAhead(w, steps[0].editor, steps[0].edit, steps[0].now))
     && WritesAheadRun(Next(w, steps[0]), steps[1..]))
  }

  lemma {:induction false} SoloRun(w: World, steps: seq<Step>, last: World)
    requires Base(w) && Ahead(w) && AtMost(w, 1) && Sequential(w) && IsRun(w, steps, last)
    requires (forall i :: 0 <= i < |steps| ==> Solo(steps[i])) && WritesAheadRun(w, steps)
    ensures AlwaysAtMost(w, steps, 1) && AtMost(last, 1)
    decreases |steps|
  {
    if steps != [] {
      var s := steps[0];
      SequentialNeverReopens(w, s);
      AheadNeverCrowds(w, s);
      StepCrowdsIff(w, s, 1);
      StepBase(w, s);
      StepAheadIff(w, s);
      SequentialStep(w, s);
      assert forall i :: 0 <= i < |steps| - 1 ==> steps[1..][i] == steps[i + 1];
      SoloRun(Next(w, s), steps[1..], last);
    }
  }

  // Without RunNow, and with edits that write no next run before the slot of anything open, a schedule never
  // has two open occurrences, whatever crashes.
  lemma SoloNoOverlap(w: World, steps: seq<Step>, last: World)
    requires Initial(w) && IsRun(w, steps, last) && WritesAheadRun(w, steps)
    requires forall i :: 0 <= i < |steps| ==> Solo(steps[i])
    ensures AlwaysAtMost(w, steps, 1)
    ensures forall o, p :: OpenTogether(last, o, p) ==> o == p
  {
    forall id ensures |OpenOf(w, id)| <= 1 { assert OpenOf(w, id) == {}; }
    SoloRun(w, steps, last);
    forall o, p | OpenTogether(last, o, p) ensures o == p {
      OnlyOne(last, last.tables.occs[o].schedule, o);
      assert p in OpenOf(last, last.tables.occs[o].schedule);
    }
  }

  /// RunNow beside the loop

  // Of what is open for a schedule at most one was claimed by hand and at most one was not.
  ghost predicate Twofold(w: World) {
    forall o, p :: OpenTogether(w, o, p) && (o in w.manual <==> p in w.manual) ==> o == p
  }

  // A caller of RunNow read the clock after the slots of everything open.
  ghost predicate Timely(w: World, s: Step) {
    s.RunNow? ==> forall o :: o in OpenOf(w, s.id) ==> w.tables.occs[o].slot <= s.now
  }

  // A run in range that reopens nothing, reads in time and writes no next run behind anything open.
  ghost predicate TimelyRun(w: World, steps: seq<Step>)
    decreases |steps|
  {
    steps == [] ||
    (&& Enabled(w, steps[0]) && Exact(w, steps[0]) && !Reopens(w, steps[0]) && Timely(w, steps[0])
     && (steps[0].WriteRow? ==> WritesAhead(w, steps[0].editor, steps[0].edit, steps[0].now))
     && TimelyRun(Next(w, steps[0]), steps[1..]))
  }

  // Only the loop opens beside something open, and only beside what was claimed by hand.
  lemma OpensBeside(w: World, s: Step)
    requires Ahead(w) && Enabled(w, s) && (s.ClaimDue? || s.RunNow?) && Timely(w, s) && Opens(w, s).Some?
    ensures forall q :: q in OpenOf(w, s.id) ==> s.ClaimDue? && q in w.manual
  {
    forall q | q in OpenOf(w, s.id) ensures s.ClaimDue? && q in w.manual {
      assert IsOpen(w, q);
      assert q !in w.manual ==> NotBehind(w, s.id, w.tables.occs[q].slot);
    }
  }

  // What the step has opened stands beside at most something claimed by hand, and was not itself.
  lemma OpenedBeside(w: World, s: Step, q: Id)
    requires Base(w) && Ahead(w) && Enabled(w, s) && (s.ClaimDue? || s.RunNow?) && Timely(w, s)
    requires OpenTogether(Next(w, s), s.occ, q) && q != s.occ
    ensures s.occ !in Next(w, s).manual && q in Next(w, s).manual
  {
    ClaimOpensIff(w, s);
    ManualMarked(w, s);
    OpensBeside(w, s);
    assert q in OpenOf(w, s.id);
  }

  // What stood before stands as it was; what is new is told from anything open beside it.
  lemma JoinedTwofold(w: World, d: World, n: Id)
    requires Twofold(w) && n !in w.tables.occs && w.manual <= d.manual <= w.manual + {n}
    requires forall o: Id :: o in w.tables.occs ==> o in d.tables.occs && d.tables.occs[o] == w.tables.occs[o]
    requires forall o: Id :: o in d.tables.occs ==> o in w.tables.occs || o == n
    requires forall q: Id :: OpenTogether(d, n, q) && q != n ==> n !in d.manual && q in d.manual
    ensures Twofold(d)
  {
    forall o: Id, p: Id | OpenTogether(d, o, p) && (o in d.manual <==> p in d.manual) ensures o == p {
      assert OpenTogether(d, p, o);
      assert o in w.tables.occs && p in w.tables.occs ==> OpenTogether(w, o, p);
    }
  }

  lemma ClaimTwofold(w: World, s: Step)
    requires Base(w) && Ahead(w) && Twofold(w) && Enabled(w, s) && (s.ClaimDue? || s.RunNow?) && Timely(w, s)
    ensures Twofold(Next(w, s))
  {
    ClaimOpensIff(w, s);
    ManualMarked(w, s);
    forall q: Id | OpenTogether(Next(w, s), s.occ, q) && q != s.occ
      ensures s.occ !in Next(w, s).manual && q in Next(w, s).manual
    {
      OpenedBeside(w, s, q);
    }
    JoinedTwofold(w, Next(w, s), s.occ);
  }

  lemma ManualMarked(w: World, s: Step)
    requires Enabled(w, s) && (s.ClaimDue? || s.RunNow?)
    ensures Next(w, s).manual == if s.RunNow? && s.occ in Next(w, s).tables.occs then w.manual + {s.occ} else w.manual
  {
    if s.ClaimDue? {
      var (t, claim) := SchedulerStore.ClaimDue(w.tables, s.id, s.now, s.occ);
      EnteredFrame(w, s.agent, t, claim, s.occ);
    } else {
      var (t, claim) := ClaimManual(w.tables, s.id, s.now, s.occ);
      EnteredFrame(w.(manual := if s.occ in t.occs then w.manual + {s.occ} else w.manual), s.agent, t, claim, s.occ);
    }
  }

  lemma KeptTwofold(w: World, d: World)
    requires Twofold(w) && RowsKept(w, d) && OpensNone(w, d, {})
    ensures Twofold(d)
  {
    forall o, p | OpenTogether(d, o, p) && (o in d.manual <==> p in d.manual) ensures o == p {
      assert IsOpen(w, o) && IsOpen(w, p);
      assert SameSlot(d.tables.occs[o], w.tables.occs[o]) && SameSlot(d.tables.occs[p], w.tables.occs[p]);
      assert OpenTogether(w, o, p);
    }
  }

  lemma StepTwofold(w: World, s: Step)
    requires Base(w) && Ahead(w) && Twofold(w) && Enabled(w, s) && !Reopens(w, s) && Timely(w, s)
    ensures Twofold(Next(w, s))
  {
    if s.ClaimDue? || s.RunNow? {
      ClaimTwofold(w, s);
    } else {
      OtherRows(w, s);
      if s.TakeAccept? || s.TakeSync? || s.TakeFail? { TakeStatus(w, s); }
      KeptTwofold(w, Next(w, s));
    }
  }

  lemma {:induction false} TimelyRunTwofold(w: World, steps: seq<Step>, last: World)
    requires Base(w) && Ahead(w) && Twofold(w) && IsRun(w, steps, last) && TimelyRun(w, steps)
    ensures Twofold(last)
    decreases |steps|
  {
    if steps != [] {
      StepTwofold(w, steps[0]);
      StepBase(w, steps[0]);
      StepAheadIff(w, steps[0]);
      TimelyRunTwofold(Next(w, steps[0]), steps[1..], last);
    }
  }

  // With RunNow read in time at most two are open: one that was claimed by hand, and one the loop claimed
  // after it for a slot that had passed by then.
  lemma TimelyAtMostTwo(w: World, steps: seq<Step>, last: World)
    requires Initial(w) && IsRun(w, steps, last) && TimelyRun(w, steps)
    ensures Twofold(last)
    ensures forall o, p, q :: OpenTogether(last, o, p) && OpenTogether(last, p, q) ==> o == p || p == q || o == q
  {
    TimelyRunTwofold(w, steps, last);
    forall o, p, q | OpenTogether(last, o, p) && OpenTogether(last, p, q) ensures o == p || p == q || o == q {
      assert OpenTogether(last, o, q);
    }
  }
}
