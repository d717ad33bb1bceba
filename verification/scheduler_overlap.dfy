/**
 How the open occurrences of one schedule can overlap. In the order they were claimed their slots go back:
 each later claim was for a slot before those already open, unless a stale decision reopens a closed one.
 */
module SchedulerOverlap {
  import opened Basics
  import opened Slots
  import opened SchedulerStore
  import opened SchedulerWorld
  import J = Journal
  import Inbound

  // `second` was claimed after `first`, for an earlier slot; that slot had passed when `first` was claimed.
  ghost predicate Overtaken(w: World, first: Id, second: Id)
    requires first in w.tables.occs && second in w.tables.occs
  {
    && first in w.order && second in w.order && w.order[first] < w.order[second]
    && w.tables.occs[second].slot < w.tables.occs[first].slot <= w.tables.occs[first].createdAt
  }

  ghost predicate MayBothBeOpen(w: World, o: Id, p: Id)
    requires o in w.tables.occs && p in w.tables.occs
  {
    o == p || w.tables.occs[o].schedule != w.tables.occs[p].schedule || Overtaken(w, o, p) || Overtaken(w, p, o)
  }

  ghost predicate Placed(w: World, o: Id)
    requires o in w.tables.occs
  {
    var row := w.tables.occs[o];
    && row.schedule in w.tables.schedules
    && row.slot <= row.createdAt <= w.clock
    && o in w.order && w.order[o] < |w.order|
  }

  ghost predicate UniqueSlots(occs: map<Id, Occurrence>) {
    forall o, p :: o in occs && p in occs && o != p && occs[o].schedule == occs[p].schedule ==> occs[o].slot != occs[p].slot
  }

  ghost predicate InSequence(order: map<Id, nat>) {
    forall o, p :: o in order && p in order && o != p ==> order[o] != order[p]
  }

  // What every step keeps.
  ghost predicate Base(w: World) {
    && (forall o :: o in w.tables.occs ==> Placed(w, o))
    && w.order.Keys == w.tables.occs.Keys
    && w.manual <= w.tables.occs.Keys
    && InSequence(w.order)
    && UniqueSlots(w.tables.occs)
  }

  predicate IsOpen(w: World, o: Id) {
    o in w.tables.occs && w.tables.occs[o].status.Open()
  }

  ghost predicate OverlapOk(w: World) {
    forall o, p :: IsOpen(w, o) && IsOpen(w, p) ==> MayBothBeOpen(w, o, p)
  }

  ghost predicate Shape(w: World) {
    Base(w) && OverlapOk(w)
  }

  /// What the steps do to the rows

  predicate SameSlot(a: Occurrence, b: Occurrence) {
    a.schedule == b.schedule && a.slot == b.slot && a.createdAt == b.createdAt
  }

  // The rows stay in their places; statuses may change.
  ghost predicate RowsKept(w: World, d: World) {
    && d.tables.occs.Keys == w.tables.occs.Keys
    && (forall o :: o in w.tables.occs ==> SameSlot(d.tables.occs[o], w.tables.occs[o]))
    && d.order == w.order && d.manual == w.manual && w.clock <= d.clock
    && w.tables.schedules.Keys <= d.tables.schedules.Keys
  }

  // No occurrence is opened but `except`.
  ghost predicate OpensNone(w: World, d: World, except: set<Id>) {
    forall o :: o !in except && IsOpen(d, o) ==> IsOpen(w, o)
  }

  // A claim's row has entered: its slot was free and had passed, and it is open only if no open one is earlier.
  ghost predicate Enters(w: World, d: World, o: Id) {
    && o !in w.tables.occs && o in d.tables.occs
    && (var row := d.tables.occs[o];
        && d.tables.occs == w.tables.occs[o := row]
        && row.schedule in w.tables.schedules && row.slot <= row.createdAt <= w.clock
        && !SlotTaken(w.tables.occs, row.schedule, row.slot)
        && (row.status.Open() <==> !HasPreviousActive(w.tables.occs, row.schedule, row.slot)))
    && d.order == w.order[o := |w.order|] && w.manual <= d.manual <= w.manual + {o} && d.clock == w.clock
    && d.tables.schedules.Keys == w.tables.schedules.Keys
  }

  lemma EnteredFrame(w: World, a: Id, t: Tables, claim: Claim, occ: Id)
    ensures var e := Entered(w, a, t, claim, occ);
      && e.tables == t && e.manual == w.manual && e.clock == w.clock
      && e.order == if occ in t.occs then w.order[occ := |w.order|] else w.order
  {
  }

  ghost predicate EntersIfAny(w: World, d: World, o: Id) {
    if o in d.tables.occs then Enters(w, d, o) else RowsKept(w, d) && d.tables.occs == w.tables.occs
  }

  lemma DueEnters(w: World, s: Step)
    requires Base(w) && Enabled(w, s) && s.ClaimDue?
    ensures EntersIfAny(w, Next(w, s), s.occ)
  {
    var (t, claim) := SchedulerStore.ClaimDue(w.tables, s.id, s.now, s.occ);
    EnteredFrame(w, s.agent, t, claim, s.occ);
  }

  lemma ManualEnters(w: World, s: Step)
    requires Base(w) && Enabled(w, s) && s.RunNow?
    ensures EntersIfAny(w, Next(w, s), s.occ)
  {
    var (t, claim) := ClaimManual(w.tables, s.id, s.now, s.occ);
    EnteredFrame(w.(manual := if s.occ in t.occs then w.manual + {s.occ} else w.manual), s.agent, t, claim, s.occ);
  }

  lemma ClaimEnters(w: World, s: Step)
    requires Base(w) && Enabled(w, s) && (s.ClaimDue? || s.RunNow?)
    ensures EntersIfAny(w, Next(w, s), s.occ)
  {
    if s.ClaimDue? { DueEnters(w, s); } else { ManualEnters(w, s); }
  }

  // The occurrence an acceptance, a sync or a failure writes.
  ghost function Written(w: World, s: Step): set<Id>
    requires Enabled(w, s)
  {
    if s.TakeAccept? || s.TakeSync? || s.TakeFail? then {AgentOf(w, s.agent).doing.value.occ} else {}
  }

  lemma AcceptRows(w: World, a: Id, now: int)
    requires Enabled(w, TakeAccept(a, now))
    ensures TookOne(w, Next(w, TakeAccept(a, now)), AgentOf(w, a).doing.value.occ)
  {
  }

  lemma ReachedRows(w: World, o: Id, status: OccStatus, now: int)
    requires Loads(w.tables, o)
    ensures TookOne(w, Reached(w, o, status, now), o) && Reached(w, o, status, now).tables.occs[o].status == status
  {
    ReachFrame(w.tables, o, status, now);
  }

  lemma SyncRows(w: World, a: Id, now: int)
    requires Enabled(w, TakeSync(a, now))
    ensures TookOne(w, Next(w, TakeSync(a, now)), AgentOf(w, a).doing.value.occ)
  {
    var tok := AgentOf(w, a).doing.value;
    if Loads(w.tables, tok.occ) { ReachedRows(w, tok.occ, FromRun(tok.status), now); }
  }

  lemma FailRows(w: World, a: Id, now: int)
    requires Enabled(w, TakeFail(a, now))
    ensures TookOne(w, Next(w, TakeFail(a, now)), AgentOf(w, a).doing.value.occ)
  {
    var o := AgentOf(w, a).doing.value.occ;
    if Loads(w.tables, o) { ReachedRows(w, o, Failed, now); }
  }

  // One occurrence at most changed more than nothing, and no schedule its next run.
  ghost predicate TookOne(w: World, d: World, o: Id) {
    && d.tables.occs.Keys == w.tables.occs.Keys && (forall p :: p in w.tables.occs && p != o ==> d.tables.occs[p] == w.tables.occs[p])
    && (o in w.tables.occs ==> SameSlot(d.tables.occs[o], w.tables.occs[o]))
    && d.order == w.order && d.manual == w.manual && w.clock == d.clock
    && d.tables.schedules.Keys == w.tables.schedules.Keys
    && forall id :: id in w.tables.schedules ==> SameNext(d.tables.schedules[id], w.tables.schedules[id])
  }

  lemma TookRows(w: World, s: Step)
    requires Enabled(w, s) && (s.TakeAccept? || s.TakeSync? || s.TakeFail?)
    ensures TookOne(w, Next(w, s), AgentOf(w, s.agent).doing.value.occ)
  {
    if s.TakeAccept? {
      AcceptRows(w, s.agent, s.now);
    } else if s.TakeSync? {
      SyncRows(w, s.agent, s.now);
    } else {
      FailRows(w, s.agent, s.now);
    }
  }

  lemma TookKeeps(w: World, d: World, o: Id)
    requires TookOne(w, d, o)
    ensures RowsKept(w, d) && OpensNone(w, d, {o})
  {
  }

  predicate SameNext(a: Schedule, b: Schedule) {
    a.enabled == b.enabled && a.nextRunAt == b.nextRunAt
  }

  lemma EditRows(w: World, s: Step)
    requires Enabled(w, s) && (s.CreateSchedule? || s.LoadRow? || s.WriteRow?)
    ensures var d := Next(w, s); RowsKept(w, d) && d.tables.occs == w.tables.occs && d.clock == w.clock
  {
  }

  predicate Silent(s: Step) {
    s.Tick? || s.Deliver? || s.Lookup? || s.ListOpen? || s.Examine? || s.Journal? || s.Abandon? || s.Crash?
  }

  ghost predicate TablesKept(w: World, d: World) {
    d.tables == w.tables && d.order == w.order && d.manual == w.manual && w.clock <= d.clock
  }

  lemma DeliverFrame(w: World, s: Step)
    requires Enabled(w, s) && s.Deliver?
    ensures TablesKept(w, Next(w, s))
  {
  }

  lemma ExamineFrame(w: World, s: Step)
    requires Enabled(w, s) && (s.Examine? || s.Lookup?)
    ensures TablesKept(w, Next(w, s))
  {
    if s.Examine? { ExaminedTouches(w, s.agent, s.now); }
  }

  lemma SilentFrame(w: World, s: Step)
    requires Enabled(w, s) && Silent(s)
    ensures TablesKept(w, Next(w, s))
  {
    if s.Deliver? { DeliverFrame(w, s); } else if s.Examine? || s.Lookup? { ExamineFrame(w, s); }
  }

  lemma SilentRows(w: World, s: Step)
    requires Enabled(w, s) && Silent(s)
    ensures RowsKept(w, Next(w, s)) && OpensNone(w, Next(w, s), {})
  {
    SilentFrame(w, s);
  }

  lemma OtherRows(w: World, s: Step)
    requires Enabled(w, s) && !s.ClaimDue? && !s.RunNow?
    ensures RowsKept(w, Next(w, s)) && OpensNone(w, Next(w, s), Written(w, s))
  {
    if s.TakeAccept? || s.TakeSync? || s.TakeFail? {
      TookRows(w, s);
      TookKeeps(w, Next(w, s), AgentOf(w, s.agent).doing.value.occ);
    } else if s.CreateSchedule? || s.LoadRow? || s.WriteRow? {
      EditRows(w, s);
    } else {
      SilentRows(w, s);
    }
  }

  /// The invariants

  lemma KeptBase(w: World, d: World)
    requires Base(w) && RowsKept(w, d)
    ensures Base(d)
  {
    forall o | o in d.tables.occs ensures Placed(d, o) { assert Placed(w, o) && SameSlot(d.tables.occs[o], w.tables.occs[o]); }
    forall o, p | o in d.tables.occs && p in d.tables.occs && o != p && d.tables.occs[o].schedule == d.tables.occs[p].schedule
      ensures d.tables.occs[o].slot != d.tables.occs[p].slot
    {
      assert SameSlot(d.tables.occs[o], w.tables.occs[o]) && SameSlot(d.tables.occs[p], w.tables.occs[p]);
    }
  }

  lemma FreshSlotIsUnique(occs: map<Id, Occurrence>, o: Id, row: Occurrence)
    requires UniqueSlots(occs) && o !in occs && !SlotTaken(occs, row.schedule, row.slot)
    ensures UniqueSlots(occs[o := row])
  {
  }

  lemma NextInSequence(order: map<Id, nat>, o: Id)
    requires InSequence(order) && o !in order && forall p :: p in order ==> order[p] < |order|
    ensures InSequence(order[o := |order|])
  {
  }

  lemma EnteredBase(w: World, d: World, o: Id)
    requires Base(w) && Enters(w, d, o)
    ensures Base(d)
  {
    FreshSlotIsUnique(w.tables.occs, o, d.tables.occs[o]);
    assert forall p :: p in w.order ==> Placed(w, p);
    NextInSequence(w.order, o);
    assert |d.order| == |w.order| + 1;
    forall p | p in d.tables.occs ensures Placed(d, p) {
      if p != o { assert Placed(w, p); }
    }
  }

  lemma StepBase(w: World, s: Step)
    requires Base(w) && Enabled(w, s)
    ensures Base(Next(w, s))
  {
    var d := Next(w, s);
    if s.ClaimDue? || s.RunNow? {
      ClaimEnters(w, s);
      if s.occ in d.tables.occs { EnteredBase(w, d, s.occ); } else { KeptBase(w, d); }
    } else {
      OtherRows(w, s);
      KeptBase(w, d);
    }
  }

  lemma {:induction false} RunBase(w: World, steps: seq<Step>, last: World)
    requires Base(w) && IsRun(w, steps, last)
    ensures Base(last)
    decreases |steps|
  {
    if steps != [] {
      StepBase(w, steps[0]);
      RunBase(Next(w, steps[0]), steps[1..], last);
    }
  }

  // Over every run a schedule has at most one occurrence per slot, and no slot is claimed before it comes.
  lemma OnePerSlot(w: World, steps: seq<Step>, last: World)
    requires Initial(w) && IsRun(w, steps, last)
    ensures UniqueSlots(last.tables.occs)
    ensures forall o :: o in last.tables.occs ==> last.tables.occs[o].slot <= last.tables.occs[o].createdAt <= last.clock
  {
    assert Base(w);
    RunBase(w, steps, last);
    assert forall o :: o in last.tables.occs ==> Placed(last, o);
  }

  lemma SamePlaces(w: World, d: World, o: Id, p: Id)
    requires RowsKept(w, d) && o in w.tables.occs && p in w.tables.occs
    ensures MayBothBeOpen(d, o, p) <==> MayBothBeOpen(w, o, p)
  {
    assert SameSlot(d.tables.occs[o], w.tables.occs[o]) && SameSlot(d.tables.occs[p], w.tables.occs[p]);
  }

  lemma KeptOverlap(w: World, d: World)
    requires OverlapOk(w) && RowsKept(w, d) && OpensNone(w, d, {})
    ensures OverlapOk(d)
  {
    forall o: Id, p: Id | IsOpen(d, o) && IsOpen(d, p) ensures MayBothBeOpen(d, o, p) {
      assert IsOpen(w, o) && IsOpen(w, p);
      SamePlaces(w, d, o, p);
    }
  }

  // What is open when a claim opens another has later slots, and was claimed before.
  lemma EnteredOverlap(w: World, d: World, o: Id)
    requires Shape(w) && Enters(w, d, o)
    ensures OverlapOk(d)
  {
    forall p: Id, q: Id | IsOpen(d, p) && IsOpen(d, q) ensures MayBothBeOpen(d, p, q) {
      if p != o && q != o {
        assert MayBothBeOpen(w, p, q);
      } else {
        EnteredPair(w, d, o, if p == o then q else p);
      }
    }
  }

  lemma EnteredPair(w: World, d: World, o: Id, p: Id)
    requires Base(w) && Enters(w, d, o) && IsOpen(d, o) && IsOpen(d, p)
    ensures MayBothBeOpen(d, o, p) && MayBothBeOpen(d, p, o)
  {
    if p != o { assert Placed(w, p); }
  }

  /// Reopening

  // The step opens an occurrence that is closed: an acceptance or a sync decided before it closed.
  ghost predicate Reopens(w: World, s: Step)
    requires Enabled(w, s)
  {
    match s
    case TakeAccept(a, _) =>
      var o := AgentOf(w, a).doing.value.occ;
      o in w.tables.occs && !w.tables.occs[o].status.Open()
    case TakeSync(a, _) =>
      var tok := AgentOf(w, a).doing.value;
      Loads(w.tables, tok.occ) && !w.tables.occs[tok.occ].status.Open() && FromRun(tok.status).Open()
    case _ => false
  }

  // The occurrence a reopening step opens.
  ghost function Reopened(w: World, s: Step): Id
    requires Enabled(w, s) && Reopens(w, s)
  {
    AgentOf(w, s.agent).doing.value.occ
  }

  // Before the step: it was claimed before an open one of its schedule exactly if its slot is the later.
  predicate ReopensInPlace(w: World, o: Id)
    requires o in w.tables.occs && w.tables.occs.Keys <= w.order.Keys
  {
    forall p :: p in w.tables.occs && IsOpen(w, p) && w.tables.occs[p].schedule == w.tables.occs[o].schedule ==>
      (w.order[o] < w.order[p] <==> w.tables.occs[p].slot < w.tables.occs[o].slot)
  }

  lemma TakeStatus(w: World, s: Step)
    requires Enabled(w, s) && (s.TakeAccept? || s.TakeSync? || s.TakeFail?)
    ensures OpensNone(w, Next(w, s), if Reopens(w, s) then {Reopened(w, s)} else {})
    ensures Reopens(w, s) ==> IsOpen(Next(w, s), Reopened(w, s))
    ensures forall o :: o !in Written(w, s) && IsOpen(w, o) ==> IsOpen(Next(w, s), o)
  {
    TookRows(w, s);
    TakenStatus(w, s);
  }

  // The row opens exactly in a step that reopens it.
  lemma TakenStatus(w: World, s: Step)
    requires Enabled(w, s) && (s.TakeAccept? || s.TakeSync? || s.TakeFail?)
    ensures var o := AgentOf(w, s.agent).doing.value.occ;
      if Reopens(w, s) then IsOpen(Next(w, s), o) else IsOpen(Next(w, s), o) ==> IsOpen(w, o)
  {
    var o := AgentOf(w, s.agent).doing.value.occ;
    if s.TakeSync? && Loads(w.tables, o) {
      ReachedRows(w, o, FromRun(AgentOf(w, s.agent).doing.value.status), s.now);
    } else if s.TakeFail? && Loads(w.tables, o) {
      ReachedRows(w, o, Failed, s.now);
    }
  }

  lemma InPlacePair(w: World, o: Id, p: Id)
    requires Base(w) && o in w.tables.occs && p in w.tables.occs && o != p
    requires w.tables.occs[o].schedule == w.tables.occs[p].schedule
    ensures MayBothBeOpen(w, o, p) <==> (w.order[o] < w.order[p] <==> w.tables.occs[p].slot < w.tables.occs[o].slot)
    ensures MayBothBeOpen(w, o, p) <==> MayBothBeOpen(w, p, o)
  {
    assert Placed(w, o) && Placed(w, p);
  }

  lemma ReopenedOverlapIff(w: World, d: World, o: Id)
    requires Shape(w) && RowsKept(w, d) && o in w.tables.occs && !IsOpen(w, o) && IsOpen(d, o)
    requires OpensNone(w, d, {o}) && forall p :: p != o && IsOpen(w, p) ==> IsOpen(d, p)
    ensures OverlapOk(d) <==> ReopensInPlace(w, o)
  {
    forall p | IsOpen(w, p) && w.tables.occs[p].schedule == w.tables.occs[o].schedule
      ensures MayBothBeOpen(d, o, p) <==> (w.order[o] < w.order[p] <==> w.tables.occs[p].slot < w.tables.occs[o].slot)
      ensures MayBothBeOpen(d, o, p) <==> MayBothBeOpen(d, p, o)
    {
      InPlacePair(w, o, p);
      SamePlaces(w, d, o, p);
      SamePlaces(w, d, p, o);
    }
    if ReopensInPlace(w, o) {
      forall p: Id, q: Id | IsOpen(d, p) && IsOpen(d, q) ensures MayBothBeOpen(d, p, q) {
        if p != o && q != o {
          assert MayBothBeOpen(w, p, q);
          SamePlaces(w, d, p, q);
        } else {
          ReopenedPair(w, d, o, if p == o then q else p);
        }
      }
    }
  }

  lemma ReopenedPair(w: World, d: World, o: Id, p: Id)
    requires Base(w) && RowsKept(w, d) && o in w.tables.occs && !IsOpen(w, o)
    requires OpensNone(w, d, {o}) && ReopensInPlace(w, o) && IsOpen(d, p)
    ensures MayBothBeOpen(d, o, p) && MayBothBeOpen(d, p, o)
  {
    if p != o {
      assert IsOpen(w, p);
      assert SameSlot(d.tables.occs[o], w.tables.occs[o]) && SameSlot(d.tables.occs[p], w.tables.occs[p]);
      if w.tables.occs[p].schedule == w.tables.occs[o].schedule {
        InPlacePair(w, o, p);
        SamePlaces(w, d, o, p);
        SamePlaces(w, d, p, o);
      }
    }
  }

  lemma ClaimShape(w: World, s: Step)
    requires Shape(w) && Enabled(w, s) && (s.ClaimDue? || s.RunNow?)
    ensures Shape(Next(w, s))
  {
    var d := Next(w, s);
    StepBase(w, s);
    ClaimEnters(w, s);
    if s.occ in d.tables.occs { EnteredOverlap(w, d, s.occ); } else { KeptOverlap(w, d); }
  }

  // The step opens one closed row and closes none.
  ghost predicate OpensOne(w: World, d: World, o: Id) {
    && RowsKept(w, d) && OpensNone(w, d, {o})
    && o in w.tables.occs && !IsOpen(w, o) && IsOpen(d, o)
    && forall p :: p != o && IsOpen(w, p) ==> IsOpen(d, p)
  }

  lemma ReopenOpensOne(w: World, s: Step)
    requires Enabled(w, s) && Reopens(w, s)
    ensures OpensOne(w, Next(w, s), Reopened(w, s))
  {
    OtherRows(w, s);
    TakeStatus(w, s);
  }

  lemma ReopenShapeIff(w: World, s: Step)
    requires Shape(w) && Enabled(w, s) && Reopens(w, s)
    ensures Shape(Next(w, s)) <==> ReopensInPlace(w, Reopened(w, s))
  {
    ReopenOpensOne(w, s);
    KeptBase(w, Next(w, s));
    ReopenedOverlapIff(w, Next(w, s), Reopened(w, s));
  }

  lemma QuietShape(w: World, s: Step)
    requires Shape(w) && Enabled(w, s) && !s.ClaimDue? && !s.RunNow? && !Reopens(w, s)
    ensures Shape(Next(w, s))
  {
    StepBase(w, s);
    OtherRows(w, s);
    if s.TakeAccept? || s.TakeSync? || s.TakeFail? { TakeStatus(w, s); }
    KeptOverlap(w, Next(w, s));
  }

  // Every step keeps the shape, and a reopening one keeps it exactly when what it opens was claimed before
  // the open occurrences with earlier slots and after those with later ones.
  lemma StepShapeIff(w: World, s: Step)
    requires Shape(w) && Enabled(w, s)
    ensures Shape(Next(w, s)) <==> (Reopens(w, s) ==> ReopensInPlace(w, Reopened(w, s)))
  {
    if s.ClaimDue? || s.RunNow? {
      ClaimShape(w, s);
    } else if Reopens(w, s) {
      ReopenShapeIff(w, s);
    } else {
      QuietShape(w, s);
    }
  }

  // A run none of whose steps reopens an occurrence.
  ghost predicate Orderly(w: World, steps: seq<Step>)
    decreases |steps|
  {
    steps == [] || (Enabled(w, steps[0]) && !Reopens(w, steps[0]) && Orderly(Next(w, steps[0]), steps[1..]))
  }

  lemma {:induction false} OrderlyRunShape(w: World, steps: seq<Step>, last: World)
    requires Shape(w) && IsRun(w, steps, last) && Orderly(w, steps)
    ensures Shape(last)
    decreases |steps|
  {
    if steps != [] {
      StepShapeIff(w, steps[0]);
      OrderlyRunShape(Next(w, steps[0]), steps[1..], last);
    }
  }

  // Of two open occurrences of one schedule the later claimed has the strictly earlier slot, which had
  // passed when the other was claimed: over every run that reopens none, with RunNow, edits and crashes.
  lemma OrderlyRunOverlap(w: World, steps: seq<Step>, last: World)
    requires Initial(w) && IsRun(w, steps, last) && Orderly(w, steps)
    ensures forall o, p :: OpenTogether(last, o, p) && o != p ==>
      && o in last.order && p in last.order && last.order[o] != last.order[p]
      && (last.order[o] < last.order[p] ==> last.tables.occs[p].slot < last.tables.occs[o].slot <= last.tables.occs[o].createdAt)
  {
    assert Shape(w);
    OrderlyRunShape(w, steps, last);
    forall o, p | OpenTogether(last, o, p) && o != p
      ensures o in last.order && p in last.order && last.order[o] != last.order[p]
      ensures last.order[o] < last.order[p] ==> last.tables.occs[p].slot < last.tables.occs[o].slot <= last.tables.occs[o].createdAt
    {
      assert MayBothBeOpen(last, o, p);
    }
  }

  // Two open occurrences of one schedule.
  ghost predicate OpenTogether(w: World, o: Id, p: Id) {
    IsOpen(w, o) && IsOpen(w, p) && w.tables.occs[o].schedule == w.tables.occs[p].schedule
  }
}
