/**
 Exactly when how many occurrences of one schedule are open: whatever the runners of schedules, their clock
 readings and the edits do, a further one opens in one of two ways only.
 */
module SchedulerCrowding {
  import opened Basics
  import opened Slots
  import opened SchedulerStore
  import opened SchedulerWorld
  import opened SchedulerOverlap
  import J = Journal
  import Inbound

  function OpenOf(w: World, id: Id): set<Id> {
    set o | o in w.tables.occs && w.tables.occs[o].status.Open() && w.tables.occs[o].schedule == id
  }

  ghost predicate AtMost(w: World, k: nat) {
    forall id :: |OpenOf(w, id)| <= k
  }

  // Before a claim: its slot is free, and earlier than the slot of every open occurrence of the schedule.
  predicate ComesBeforeAll(w: World, id: Id, slot: int) {
    !SlotTaken(w.tables.occs, id, slot) && forall o :: o in OpenOf(w, id) ==> slot < w.tables.occs[o].slot
  }

  // Before the step: the schedule of which it is going to open an occurrence, if any. A due claim does so
  // for the schedule's next run, RunNow for the instant it read, and a late decision by reopening.
  ghost function Opens(w: World, s: Step): Option<Id>
    requires Enabled(w, s)
  {
    if s.ClaimDue? then
      if s.id in w.tables.schedules && IsDue(w.tables.schedules[s.id], s.now)
         && ComputeNextRun(w.tables.schedules[s.id].spec, s.now + 1).Ok?
         && ComesBeforeAll(w, s.id, w.tables.schedules[s.id].nextRunAt.value) then Some(s.id)
      else None
    else if s.RunNow? then
      if s.id in w.tables.schedules && ComesBeforeAll(w, s.id, s.now) then Some(s.id) else None
    else if Reopens(w, s) then Some(w.tables.occs[Reopened(w, s)].schedule)
    else None
  }

  // The step opens one more than there may be.
  ghost predicate Crowds(w: World, s: Step, k: nat)
    requires Enabled(w, s)
  {
    Opens(w, s).Some? && |OpenOf(w, Opens(w, s).value)| == k
  }

  // A slot that is free has an open predecessor unless it comes before every open one.
  lemma FirstIffBeforeAll(w: World, id: Id, slot: int)
    requires !SlotTaken(w.tables.occs, id, slot)
    ensures HasPreviousActive(w.tables.occs, id, slot) <==> !ComesBeforeAll(w, id, slot)
  {
    if !ComesBeforeAll(w, id, slot) {
      var o :| o in OpenOf(w, id) && !(slot < w.tables.occs[o].slot);
      assert w.tables.occs[o].slot != slot;
    }
  }

  // The claim's new row is open exactly when the step opens.
  lemma ClaimOpensIff(w: World, s: Step)
    requires Enabled(w, s) && (s.ClaimDue? || s.RunNow?)
    ensures var d := Next(w, s);
      && (forall o :: o in w.tables.occs ==> o in d.tables.occs && d.tables.occs[o] == w.tables.occs[o])
      && (forall o :: o in d.tables.occs ==> o in w.tables.occs || o == s.occ)
      && (Opens(w, s).Some? <==> IsOpen(d, s.occ))
      && (IsOpen(d, s.occ) ==> d.tables.occs[s.occ].schedule == s.id == Opens(w, s).value)
  {
    if s.ClaimDue? {
      var (t, claim) := SchedulerStore.ClaimDue(w.tables, s.id, s.now, s.occ);
      EnteredFrame(w, s.agent, t, claim, s.occ);
      DueOpensIff(w, s.id, s.now, s.occ);
    } else {
      var (t, claim) := ClaimManual(w.tables, s.id, s.now, s.occ);
      EnteredFrame(w.(manual := if s.occ in t.occs then w.manual + {s.occ} else w.manual), s.agent, t, claim, s.occ);
      ManualOpensIff(w, s.id, s.now, s.occ);
    }
  }

  lemma DueOpensIff(w: World, id: Id, now: int, occ: Id)
    requires occ !in w.tables.occs
    ensures var t := SchedulerStore.ClaimDue(w.tables, id, now, occ).0;
      && (forall o :: o in w.tables.occs ==> o in t.occs && t.occs[o] == w.tables.occs[o])
      && (forall o :: o in t.occs ==> o in w.tables.occs || o == occ)
      && (occ in t.occs ==> t.occs[occ].schedule == id)
      && (occ in t.occs && t.occs[occ].status.Open() <==>
            && id in w.tables.schedules && IsDue(w.tables.schedules[id], now)
            && ComputeNextRun(w.tables.schedules[id].spec, now + 1).Ok?
            && ComesBeforeAll(w, id, w.tables.schedules[id].nextRunAt.value))
  {
    if id in w.tables.schedules && IsDue(w.tables.schedules[id], now) {
      var slot := w.tables.schedules[id].nextRunAt.value;
      if !SlotTaken(w.tables.occs, id, slot) { FirstIffBeforeAll(w, id, slot); }
    }
  }

  lemma ManualOpensIff(w: World, id: Id, now: int, occ: Id)
    requires occ !in w.tables.occs
    ensures var t := ClaimManual(w.tables, id, now, occ).0;
      && (forall o :: o in w.tables.occs ==> o in t.occs && t.occs[o] == w.tables.occs[o])
      && (forall o :: o in t.occs ==> o in w.tables.occs || o == occ)
      && (occ in t.occs ==> t.occs[occ].schedule == id)
      && (occ in t.occs && t.occs[occ].status.Open() <==> id in w.tables.schedules && ComesBeforeAll(w, id, now))
  {
    if !SlotTaken(w.tables.occs, id, now) { FirstIffBeforeAll(w, id, now); }
  }

  // One more open occurrence of one schedule, and no other.
  lemma OneMore(w: World, d: World, o: Id, id: Id, k: nat)
    requires AtMost(w, k) && o !in OpenOf(w, id) && o in OpenOf(d, id)
    requires forall i :: OpenOf(d, i) <= OpenOf(w, i) + if i == id then {o} else {}
    requires OpenOf(w, id) <= OpenOf(d, id)
    ensures AtMost(d, k) <==> |OpenOf(w, id)| < k
  {
    assert OpenOf(d, id) == OpenOf(w, id) + {o};
    forall i | i != id ensures |OpenOf(d, i)| <= k {
      assert OpenOf(d, i) <= OpenOf(w, i);
      Fewer(OpenOf(d, i), OpenOf(w, i));
    }
  }

  lemma NoMore(w: World, d: World, k: nat)
    requires AtMost(w, k) && forall i :: OpenOf(d, i) <= OpenOf(w, i)
    ensures AtMost(d, k)
  {
    forall i ensures |OpenOf(d, i)| <= k { Fewer(OpenOf(d, i), OpenOf(w, i)); }
  }

  lemma Fewer(a: set<Id>, b: set<Id>)
    requires a <= b
    ensures |a| <= |b|
  {
    assert b == a + (b - a);
  }

  lemma ClaimCrowdsIff(w: World, s: Step, k: nat)
    requires AtMost(w, k) && Enabled(w, s) && (s.ClaimDue? || s.RunNow?)
    ensures AtMost(Next(w, s), k) <==> !Crowds(w, s, k)
  {
    ClaimOpensIff(w, s);
    if Opens(w, s).Some? { OneMore(w, Next(w, s), s.occ, s.id, k); } else { NoMore(w, Next(w, s), k); }
  }

  // Rows that keep their places are open for the schedules they were.
  lemma KeptOpen(w: World, d: World, except: set<Id>)
    requires RowsKept(w, d) && OpensNone(w, d, except)
    ensures forall id :: OpenOf(d, id) - except <= OpenOf(w, id)
  {
    forall id, o | o in OpenOf(d, id) && o !in except ensures o in OpenOf(w, id) {
      assert IsOpen(d, o) && SameSlot(d.tables.occs[o], w.tables.occs[o]);
    }
  }

  lemma ReopenedOne(w: World, d: World, o: Id)
    requires RowsKept(w, d) && OpensNone(w, d, {o}) && o in w.tables.occs && IsOpen(d, o)
    requires forall p :: p != o && IsOpen(w, p) ==> IsOpen(d, p)
    requires !IsOpen(w, o)
    ensures var id := w.tables.occs[o].schedule;
      && o in OpenOf(d, id) && OpenOf(w, id) <= OpenOf(d, id)
      && forall i :: OpenOf(d, i) <= OpenOf(w, i) + if i == id then {o} else {}
  {
    KeptOpen(w, d, {o});
    assert SameSlot(d.tables.occs[o], w.tables.occs[o]);
    forall p | p in OpenOf(w, w.tables.occs[o].schedule) ensures p in OpenOf(d, w.tables.occs[o].schedule) {
      assert IsOpen(w, p) && SameSlot(d.tables.occs[p], w.tables.occs[p]);
    }
  }

  lemma OtherCrowdsIff(w: World, s: Step, k: nat)
    requires AtMost(w, k) && Enabled(w, s) && !s.ClaimDue? && !s.RunNow?
    ensures AtMost(Next(w, s), k) <==> !Crowds(w, s, k)
  {
    var d := Next(w, s);
    OtherRows(w, s);
    if s.TakeAccept? || s.TakeSync? || s.TakeFail? { TakeStatus(w, s); }
    if Reopens(w, s) {
      var o := Reopened(w, s);
      ReopenedOne(w, d, o);
      OneMore(w, d, o, w.tables.occs[o].schedule, k);
    } else {
      KeptOpen(w, d, {});
      NoMore(w, d, k);
    }
  }

  // A step leaves at most `k` open per schedule if and only if it does not open one where `k` are open.
  lemma StepCrowdsIff(w: World, s: Step, k: nat)
    requires AtMost(w, k) && Enabled(w, s)
    ensures AtMost(Next(w, s), k) <==> !Crowds(w, s, k)
  {
    if s.ClaimDue? || s.RunNow? { ClaimCrowdsIff(w, s, k); } else { OtherCrowdsIff(w, s, k); }
  }

  /// Whole runs

  ghost predicate AlwaysAtMost(w: World, steps: seq<Step>, k: nat)
    decreases |steps|
  {
    AtMost(w, k) && (steps != [] && Enabled(w, steps[0]) ==> AlwaysAtMost(Next(w, steps[0]), steps[1..], k))
  }

  ghost predicate NeverCrowds(w: World, steps: seq<Step>, k: nat)
    decreases |steps|
  {
    steps != [] && Enabled(w, steps[0]) ==> !Crowds(w, steps[0], k) && NeverCrowds(Next(w, steps[0]), steps[1..], k)
  }

  lemma {:induction false} CrowdedIff(w: World, steps: seq<Step>, last: World, k: nat)
    requires AtMost(w, k) && IsRun(w, steps, last)
    ensures AlwaysAtMost(w, steps, k) <==> NeverCrowds(w, steps, k)
    decreases |steps|
  {
    if steps != [] {
      StepCrowdsIff(w, steps[0], k);
      if !Crowds(w, steps[0], k) { CrowdedIff(Next(w, steps[0]), steps[1..], last, k); }
    }
  }

  // Over every run from an empty database, with RunNow, edits, crashes and late decisions: at most `k`
  // occurrences of a schedule are open in every state if and only if no claim comes with a free slot that is
  // earlier than those of `k` open ones, and no late decision reopens one next to `k`.
  lemma RunCrowdedIff(w: World, steps: seq<Step>, last: World, k: nat)
    requires Initial(w) && IsRun(w, steps, last)
    ensures AlwaysAtMost(w, steps, k) <==> NeverCrowds(w, steps, k)
  {
    forall id ensures |OpenOf(w, id)| <= k { assert OpenOf(w, id) == {}; }
    CrowdedIff(w, steps, last, k);
  }

  // A claim whose instant is not before the slot of any open occurrence does not crowd any.
  lemma TimelyNeverCrowds(w: World, s: Step, k: nat)
    requires Enabled(w, s) && s.RunNow? && k > 0
    requires forall o :: o in OpenOf(w, s.id) ==> w.tables.occs[o].slot <= s.now
    ensures !Crowds(w, s, k)
  {
    if |OpenOf(w, s.id)| == k {
      var o :| o in OpenOf(w, s.id);
    }
  }
}
