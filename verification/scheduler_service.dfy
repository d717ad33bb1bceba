/**
 The scheduler's loops, run by one thread: reconciliation, the due drain of RunOnce, and the recovery that
 startup performs before anything else runs.
 */
module SchedulerService {
  import opened Basics
  import opened Slots
  import opened SchedulerStore
  import opened SchedulerWorld
  import SchedulerExactlyOnce
  import Ordering
  import J = Journal
  import Inbound

  /// Reconciliation as a function

  // One turn of the loop, on the row as it was listed.
  function ReconcileOne(t: Tables, j: J.Db, l: Listed, now: int, grace: nat): Result<Tables, StoreError> {
    match l.row.runId
    case Some(run) =>
      if run !in j.runs then Err(NoRow) else SyncWithRun(t, l.id, j.runs[run].status, now)
    case None =>
      match ReceiptRun(j.inbound, l.row.Thread(), l.id)
      case Some(run) =>
        if run !in j.runs then Err(NoRow)
        else SyncWithRun(MarkAccepted(t, l.id, run, now), l.id, j.runs[run].status, now)
      case None =>
        if l.row.status == Dispatching && l.row.createdAt < now - grace then MarkFailed(t, l.id, now) else Ok(t)
  }

  function ReconcileAll(t: Tables, j: J.Db, listed: seq<Listed>, now: int, grace: nat): Result<Tables, StoreError>
    decreases |listed|
  {
    if listed == [] then Ok(t) else
    match ReconcileOne(t, j, listed[0], now, grace)
    case Err(e) => Err(e)
    case Ok(d) => ReconcileAll(d, j, listed[1..], now, grace)
  }

  function Snapshot(t: Tables, places: seq<Place>): seq<Listed>
    requires forall i :: 0 <= i < |places| ==> places[i].id in t.occs
  {
    seq(|places|, i requires 0 <= i < |places| => Listed(places[i].id, t.occs[places[i].id]))
  }

  lemma OpenPlacesExist(t: Tables)
    ensures var places := (PlacesTotal(); Ordering.Sorted(PlaceBefore, OpenPlaces(t)));
      && (forall i :: 0 <= i < |places| ==> places[i].id in t.occs)
      && Lists(t, Snapshot(t, places))
      && (forall o :: o in t.occs && t.occs[o].status.Open() ==> exists i :: 0 <= i < |places| && places[i].id == o)
  {
    PlacesTotal();
    var places := Ordering.Sorted(PlaceBefore, OpenPlaces(t));
    Ordering.SortedIsListing(PlaceBefore, OpenPlaces(t));
    forall i | 0 <= i < |places|
      ensures places[i].id in t.occs && t.occs[places[i].id].status.Open() && places[i].at == t.occs[places[i].id].createdAt
    {
      assert places[i] in Ordering.Elements(places);
    }
    forall o | o in t.occs && t.occs[o].status.Open() ensures exists i :: 0 <= i < |places| && places[i].id == o {
      assert Place(t.occs[o].createdAt, o) in OpenPlaces(t);
      assert Place(t.occs[o].createdAt, o) in Ordering.Elements(places);
      var i :| 0 <= i < |places| && places[i] == Place(t.occs[o].createdAt, o);
    }
  }

  // The listing the loop works through.
  ghost function OpenListing(t: Tables): seq<Listed> {
    OpenPlacesExist(t);
    PlacesTotal();
    Snapshot(t, Ordering.Sorted(PlaceBefore, OpenPlaces(t)))
  }

  /// What a reconciliation reaches

  // Rows an error-free pass relies on; every reachable world has them.
  ghost predicate Sound(t: Tables, j: J.Db) {
    forall o :: o in t.occs ==> SoundRow(t, j, o)
  }

  ghost predicate SoundRow(t: Tables, j: J.Db, o: Id)
    requires o in t.occs
  {
    var row := t.occs[o];
    && row.schedule in t.schedules
    && (row.runId.Some? ==> row.runId.value in j.runs)
    && (row.status.Active? || row.status.NeedsApproval? ==> row.runId.Some?)
    && (row.status.Dispatching? ==> row.runId.None?)
    && (ReceiptRun(j.inbound, row.Thread(), o).Some? ==> ReceiptRun(j.inbound, row.Thread(), o).value in j.runs)
  }

  lemma LinkedIsSound(w: World)
    requires Linked(w)
    ensures Sound(w.tables, w.journal)
  {
    forall o | o in w.tables.occs ensures SoundRow(w.tables, w.journal, o) {
      assert RowOk(w, o);
      ReceiptRunFound(w.journal.inbound, w.tables.occs[o].Thread(), o);
    }
  }

  // Where a reconciliation leaves an occurrence: it follows its run, or it is young and undelivered.
  ghost predicate Reconciled(t: Tables, j: J.Db, o: Id, now: int, grace: nat)
    requires o in t.occs
  {
    var row := t.occs[o];
    row.status.Open() ==>
      if row.runId.Some? then
        && row.runId.value in j.runs
        && (var run := j.runs[row.runId.value].status;
            if row.status.Active? then run.Active? || run.Pending? else row.status.NeedsApproval? && run.NeedsApproval?)
      else
        row.status.Dispatching? && ReceiptRun(j.inbound, row.Thread(), o).None? && now - grace <= row.createdAt
  }

  // The status of an occurrence that follows its run, a pending run counting as active.
  predicate Follows(status: OccStatus, run: J.RunStatus) {
    && (status.Active? <==> run.Active? || run.Pending?)
    && (status.NeedsApproval? <==> run.NeedsApproval?)
    && (status.Completed? <==> run.Completed?)
    && (status.Interrupted? <==> run.Interrupted?)
    && (status.Failed? <==> run.Failed?)
  }

  // What a pass makes of an occurrence: a closed one stays; one with a run, its own or its receipt's, has that
  // run and its status; one without is failed if it has been dispatching past the grace period, and waits
  // otherwise.
  ghost predicate CaughtUp(was: Occurrence, row: Occurrence, j: J.Db, o: Id, now: int, grace: nat) {
    var run := if was.runId.Some? then was.runId else ReceiptRun(j.inbound, was.Thread(), o);
    if !(was.status.Dispatching? || was.status.Active? || was.status.NeedsApproval?) then row == was
    else if run.Some? then
      && row.runId == run && run.value in j.runs && Follows(row.status, j.runs[run.value].status)
      && SameSlot(row, was) && (was.runId.None? ==> row.startedAt == Some(now))
    else if was.status.Dispatching? && was.createdAt < now - grace then
      row == was.(status := Failed, finishedAt := Some(now))
    else row == was
  }

  // Only this occurrence changed, and of the schedules only their summaries.
  ghost predicate Touches(t: Tables, d: Tables, o: Id) {
    && d.occs.Keys == t.occs.Keys && (forall p :: p in t.occs && p != o ==> d.occs[p] == t.occs[p])
    && SameTimes(t, d)
  }

  ghost predicate SameTimes(t: Tables, d: Tables) {
    && d.schedules.Keys == t.schedules.Keys
    && forall s :: s in t.schedules ==>
         && d.schedules[s].spec == t.schedules[s].spec
         && d.schedules[s].enabled == t.schedules[s].enabled
         && d.schedules[s].nextRunAt == t.schedules[s].nextRunAt
  }

  ghost predicate SameSlot(a: Occurrence, b: Occurrence) {
    a.schedule == b.schedule && a.slot == b.slot && a.createdAt == b.createdAt
  }

  lemma SyncEffect(t: Tables, o: Id, status: J.RunStatus, now: int)
    requires Loads(t, o)
    ensures var r := SyncWithRun(t, o, status, now);
      && r.Ok? && Touches(t, r.value, o)
      && SameSlot(r.value.occs[o], t.occs[o]) && r.value.occs[o].runId == t.occs[o].runId
      && r.value.occs[o].status == FromRun(status)
  {
    if FromRun(status) != t.occs[o].status { ReachFrame(t, o, FromRun(status), now); }
  }

  lemma WithRunTouches(t: Tables, j: J.Db, o: Id, run: Id, now: int, grace: nat)
    requires Loads(t, o) && run in j.runs && t.occs[o].runId == Some(run)
    requires var receipt := ReceiptRun(j.inbound, t.occs[o].Thread(), o); receipt.Some? ==> receipt.value in j.runs
    ensures var r := SyncWithRun(t, o, j.runs[run].status, now);
      && r.Ok? && Touches(t, r.value, o) && SameSlot(r.value.occs[o], t.occs[o])
      && SoundRow(r.value, j, o) && Reconciled(r.value, j, o, now, grace)
  {
    SyncEffect(t, o, j.runs[run].status, now);
  }

  lemma OneTouches(t: Tables, j: J.Db, l: Listed, now: int, grace: nat)
    requires Sound(t, j) && l.id in t.occs && l.row == t.occs[l.id] && l.row.status.Open()
    ensures var r := ReconcileOne(t, j, l, now, grace);
      && r.Ok? && Touches(t, r.value, l.id) && SameSlot(r.value.occs[l.id], t.occs[l.id])
      && SoundRow(r.value, j, l.id) && Reconciled(r.value, j, l.id, now, grace)
      && CaughtUp(t.occs[l.id], r.value.occs[l.id], j, l.id, now, grace)
  {
    assert SoundRow(t, j, l.id);
    match l.row.runId {
      case Some(run) =>
        WithRunTouches(t, j, l.id, run, now, grace);
        SyncFollows(t, l.id, j.runs[run].status, now);
      case None =>
        match ReceiptRun(j.inbound, l.row.Thread(), l.id) {
          case Some(run) =>
            WithRunTouches(MarkAccepted(t, l.id, run, now), j, l.id, run, now, grace);
            SyncFollows(MarkAccepted(t, l.id, run, now), l.id, j.runs[run].status, now);
          case None => ReachFrame(t, l.id, Failed, now);
        }
    }
  }

  lemma OneReconciles(t: Tables, j: J.Db, l: Listed, now: int, grace: nat)
    requires Sound(t, j) && l.id in t.occs && l.row == t.occs[l.id] && l.row.status.Open()
    ensures var r := ReconcileOne(t, j, l, now, grace);
      && r.Ok? && Touches(t, r.value, l.id) && Sound(r.value, j) && Reconciled(r.value, j, l.id, now, grace)
      && CaughtUp(t.occs[l.id], r.value.occs[l.id], j, l.id, now, grace)
  {
    OneTouches(t, j, l, now, grace);
    var d := ReconcileOne(t, j, l, now, grace).value;
    forall o | o in d.occs ensures SoundRow(d, j, o) { assert SoundRow(t, j, o); }
  }

  ghost predicate InListing(listed: seq<Listed>, o: Id) {
    exists i :: 0 <= i < |listed| && listed[i].id == o
  }

  lemma ListingSplit(listed: seq<Listed>)
    requires listed != []
    ensures forall o :: InListing(listed, o) <==> o == listed[0].id || InListing(listed[1..], o)
  {
    var rest := listed[1..];
    forall o ensures InListing(listed, o) <==> o == listed[0].id || InListing(rest, o) {
      if InListing(rest, o) {
        var i :| 0 <= i < |rest| && rest[i].id == o;
        assert listed[i + 1].id == o;
      }
      if InListing(listed, o) && o != listed[0].id {
        var i :| 0 <= i < |listed| && listed[i].id == o;
        assert rest[i - 1].id == o;
      }
      if o == listed[0].id { assert listed[0].id == o; }
    }
  }

  lemma RestListed(t: Tables, d: Tables, listed: seq<Listed>)
    requires Lists(t, listed) && listed != [] && Touches(t, d, listed[0].id)
    ensures Lists(d, listed[1..]) && !InListing(listed[1..], listed[0].id)
  {
    var rest := listed[1..];
    assert forall i :: 0 <= i < |rest| ==> rest[i] == listed[i + 1];
  }

  lemma {:induction false} AllReconcile(t: Tables, j: J.Db, listed: seq<Listed>, now: int, grace: nat)
    requires Sound(t, j) && Lists(t, listed)
    ensures var r := ReconcileAll(t, j, listed, now, grace);
      && r.Ok? && SameTimes(t, r.value) && r.value.occs.Keys == t.occs.Keys && Sound(r.value, j)
      && (forall o :: o in t.occs && !InListing(listed, o) ==> r.value.occs[o] == t.occs[o])
      && (forall o :: InListing(listed, o) ==>
            o in t.occs && Reconciled(r.value, j, o, now, grace) && CaughtUp(t.occs[o], r.value.occs[o], j, o, now, grace))
    decreases |listed|
  {
    if listed != [] {
      var head, rest := listed[0], listed[1..];
      OneReconciles(t, j, head, now, grace);
      var d := ReconcileOne(t, j, head, now, grace).value;
      RestListed(t, d, listed);
      AllReconcile(d, j, rest, now, grace);
      ListingSplit(listed);
      var last := ReconcileAll(d, j, rest, now, grace).value;
      assert last.occs[head.id] == d.occs[head.id];
    }
  }

  // A pass over every open occurrence reconciles them all, without an error, and leaves the schedules'
  // times alone.
  lemma PassReconciles(t: Tables, j: J.Db, now: int, grace: nat)
    requires Sound(t, j)
    ensures var r := ReconcileAll(t, j, OpenListing(t), now, grace);
      && r.Ok? && SameTimes(t, r.value) && r.value.occs.Keys == t.occs.Keys && Sound(r.value, j)
      && forall o :: o in t.occs ==>
           Reconciled(r.value, j, o, now, grace) && CaughtUp(t.occs[o], r.value.occs[o], j, o, now, grace)
  {
    OpenPlacesExist(t);
    PlacesTotal();
    var places := Ordering.Sorted(PlaceBefore, OpenPlaces(t));
    var listed := OpenListing(t);
    AllReconcile(t, j, listed, now, grace);
    var d := ReconcileAll(t, j, listed, now, grace).value;
    forall o | o in t.occs ensures Reconciled(d, j, o, now, grace) && CaughtUp(t.occs[o], d.occs[o], j, o, now, grace) {
      if t.occs[o].status.Open() {
        var i :| 0 <= i < |places| && places[i].id == o;
        assert listed[i].id == o;
        assert InListing(listed, o);
      } else if InListing(listed, o) {
        assert Reconciled(d, j, o, now, grace);
      }
    }
  }

  lemma SameTimesSameDue(t: Tables, d: Tables, now: int, at: int)
    requires SameTimes(t, d)
    ensures DueIds(Repaired(d, now), at) == DueIds(Repaired(t, now), at)
  {
    forall id ensures id in DueIds(Repaired(d, now), at) <==> id in DueIds(Repaired(t, now), at) {
    }
  }

  /// The due drain

  lemma {:induction false} DistinctCount(s: seq<Id>)
    requires forall i, j :: 0 <= i < j < |s| ==> s[i] != s[j]
    ensures |Ordering.Elements(s)| == |s|
  {
    if s != [] {
      var n := |s| - 1;
      DistinctCount(s[..n]);
      assert s == s[..n] + [s[n]];
      assert Ordering.Elements(s) == Ordering.Elements(s[..n]) + {s[n]};
    }
  }

  function IdsOf(places: seq<Place>): seq<Id> {
    seq(|places|, i requires 0 <= i < |places| => places[i].id)
  }

  ghost function DueListing(t: Tables, now: int): seq<Place> {
    PlacesTotal();
    Ordering.Sorted(PlaceBefore, DuePlaces(t, now))
  }

  // The listing names every due schedule once.
  lemma DueListed(t: Tables, now: int)
    ensures var ids := IdsOf(DueListing(t, now));
      && (forall i, j :: 0 <= i < j < |ids| ==> ids[i] != ids[j])
      && Ordering.Elements(ids) == DueIds(t, now)
      && |ids| == |DueIds(t, now)|
  {
    PlacesTotal();
    var places := DueListing(t, now);
    Ordering.SortedIsListing(PlaceBefore, DuePlaces(t, now));
    var ids := IdsOf(places);
    forall i | 0 <= i < |ids| ensures ids[i] in DueIds(t, now) && places[i].at == t.schedules[ids[i]].nextRunAt.value {
      assert places[i] in Ordering.Elements(places);
    }
    forall id | id in DueIds(t, now) ensures id in ids {
      var p := Place(t.schedules[id].nextRunAt.value, id);
      assert p in Ordering.Elements(places);
      var i :| 0 <= i < |places| && places[i] == p;
      assert ids[i] == id;
    }
    DistinctCount(ids);
  }

  // The schedules a pass takes: as many as the limit allows, in the order of the listing.
  ghost function FirstDue(t: Tables, now: int, n: nat): seq<Id> {
    var ids := IdsOf(DueListing(t, now));
    if |ids| <= n then ids else ids[..n]
  }

  // What a pass takes is due before what it leaves.
  lemma FirstDueEarliest(t: Tables, now: int, n: nat, a: Id, b: Id)
    requires a in FirstDue(t, now, n) && b in DueIds(t, now) && b !in FirstDue(t, now, n)
    ensures a in t.schedules && t.schedules[a].nextRunAt.Some? && b in t.schedules && t.schedules[b].nextRunAt.Some?
    ensures var x, y := t.schedules[a].nextRunAt.value, t.schedules[b].nextRunAt.value; x < y || (x == y && a < b)
  {
    var places, first := DueListing(t, now), FirstDue(t, now, n);
    DueListed(t, now);
    var i :| 0 <= i < |first| && first[i] == a;
    assert b in Ordering.Elements(IdsOf(places));
    var j :| 0 <= j < |places| && IdsOf(places)[j] == b;
    assert forall k :: 0 <= k < |first| ==> first[k] == IdsOf(places)[k];
    assert j >= |first|;
    PlacesListed(DuePlaces(t, now), places[i]);
    PlacesListed(DuePlaces(t, now), places[j]);
    assert places[i] in places && places[j] in places;
  }

  // A claim that does not fail takes its schedule out of the due ones, and no other.
  lemma ClaimDrains(t: Tables, id: Id, now: int, occ: Id)
    requires id in DueIds(t, now) && InRange(t.schedules[id].spec, now + 1)
    requires !SchedulerStore.ClaimDue(t, id, now, occ).1.ClaimFailed?
    ensures DueIds(SchedulerStore.ClaimDue(t, id, now, occ).0, now) == DueIds(t, now) - {id}
  {
    ClaimAdvances(t, id, now, occ);
  }

  ghost predicate AllInRange(t: Tables, now: int) {
    forall id :: id in t.schedules ==> InRange(t.schedules[id].spec, now + 1)
  }

  /// The service

  // What the runtime supplies for one dispatch: fresh ids, and whether it refuses or fails late.
  datatype Call = Call(occ: Id, plan: Inbound.Plan, refused: bool, lateError: bool)

  // The message the dispatcher is called with for an occurrence.
  function PlanOf(call: Call, thread: J.Thread): Inbound.Plan {
    call.plan.(channel := J.ScheduleLocal, thread := thread, source := Some(call.occ))
  }

  // The runtime takes the message: nothing refuses it, its conversation has no open root run, and the session
  // it would open is not there.
  ghost predicate Deliverable(db: J.Db, plan: Inbound.Plan, refused: bool) {
    && !refused && Inbound.FreshFor(db, plan)
    && (forall r :: r in db.runs && db.runs[r].conversation == plan.conversation && db.runs[r].parent.None? ==>
          !(db.runs[r].status.Pending? || db.runs[r].status.Active? || db.runs[r].status.NeedsApproval?))
    && (plan.createSession ==> J.FrontKey(plan.conversation) !in db.sessions.Values)
  }

  // What comes of a first dispatch: its run and receipt are journaled and the occurrence is active with that
  // run, or the journal is as it was and the occurrence has failed without one.
  ghost predicate Answered(before: J.Db, after: J.Db, row: Occurrence, call: Call, now: int) {
    var plan := PlanOf(call, J.SlotThread(row.slot));
    if Deliverable(before, plan, call.refused) then
      && after == Inbound.Recorded(before, plan)
      && row.runId == Some(plan.run) && row.status.Active? && row.startedAt == Some(now)
    else
      after == before && row.runId.None? && row.status.Failed? && row.finishedAt == Some(now)
  }

  // An occurrence that is done with: skipped, or with the run of its receipt, or failed without a receipt.
  ghost predicate Settled(row: Occurrence, j: J.Db, o: Id) {
    var receipt := ReceiptRun(j.inbound, row.Thread(), o);
    || row.status.Skipped?
    || (receipt.Some? && row.runId == receipt && !row.status.Dispatching?)
    || (receipt.None? && row.runId.None? && row.status.Failed?)
  }

  // One round for a schedule: its slot was taken already, or there is one row more, which is skipped behind an
  // earlier open one or else has had its dispatch.
  ghost predicate Round(t: Tables, before: J.Db, occs: map<Id, Occurrence>, after: J.Db, id: Id, call: Call, now: int)
    requires id in t.schedules && t.schedules[id].nextRunAt.Some?
  {
    var slot := t.schedules[id].nextRunAt.value;
    if exists o :: o in t.occs && t.occs[o].schedule == id && t.occs[o].slot == slot then
      occs == t.occs && after == before
    else
      && call.occ in occs && occs == t.occs[call.occ := occs[call.occ]]
      && occs[call.occ].schedule == id && occs[call.occ].slot == slot && occs[call.occ].createdAt == now
      && (if exists o :: o in t.occs && t.occs[o].schedule == id && t.occs[o].slot < slot
                         && (t.occs[o].status.Dispatching? || t.occs[o].status.Active? || t.occs[o].status.NeedsApproval?) then
            occs[call.occ].status.Skipped? && after == before
          else
            Answered(before, after, occs[call.occ], call, now))
  }

  // How a claim under a new id begins a round.
  ghost predicate Begins(t: Tables, occs: map<Id, Occurrence>, claim: Claim, id: Id, occ: Id, now: int)
    requires id in t.schedules && t.schedules[id].nextRunAt.Some?
  {
    var slot := t.schedules[id].nextRunAt.value;
    if exists o :: o in t.occs && t.occs[o].schedule == id && t.occs[o].slot == slot then
      occs == t.occs && !claim.Claimed?
    else
      && occ in occs && occs == t.occs[occ := occs[occ]]
      && occs[occ].schedule == id && occs[occ].slot == slot && occs[occ].createdAt == now && occs[occ].runId.None?
      && (if exists o :: o in t.occs && t.occs[o].schedule == id && t.occs[o].slot < slot
                         && (t.occs[o].status.Dispatching? || t.occs[o].status.Active? || t.occs[o].status.NeedsApproval?) then
            occs[occ].status.Skipped? && !claim.Claimed?
          else
            occs[occ].status.Dispatching? && claim.Claimed?)
  }

  lemma ClaimBegins(t: Tables, id: Id, now: int, occ: Id)
    requires id in DueIds(t, now) && occ !in t.occs && !SchedulerStore.ClaimDue(t, id, now, occ).1.ClaimFailed?
    ensures var (d, claim) := SchedulerStore.ClaimDue(t, id, now, occ); Begins(t, d.occs, claim, id, occ, now)
  {
    ClaimDueExact(t, id, now, occ);
    AddedRow(t.occs, id, t.schedules[id].nextRunAt.value, now);
  }

  lemma BegunRound(t: Tables, before: J.Db, mid: map<Id, Occurrence>, claim: Claim, occs: map<Id, Occurrence>, after: J.Db,
                   id: Id, call: Call, now: int)
    requires id in t.schedules && t.schedules[id].nextRunAt.Some? && Begins(t, mid, claim, id, call.occ, now)
    requires if claim.Claimed? then
               && occs.Keys == mid.Keys && (forall p :: p in mid && p != call.occ ==> occs[p] == mid[p])
               && SameSlot(occs[call.occ], mid[call.occ]) && Answered(before, after, occs[call.occ], call, now)
             else
               occs == mid && after == before
    ensures Round(t, before, occs, after, id, call, now)
  {
    if claim.Claimed? { assert occs == t.occs[call.occ := occs[call.occ]]; }
  }

  // No occurrence and no receipt of the scheduler's has this id.
  ghost predicate NewCall(occs: map<Id, Occurrence>, j: J.Db, occ: Id) {
    occ !in occs && forall i :: 0 <= i < |j.inbound| && Ours(j.inbound[i]) ==> j.inbound[i].key.source != occ
  }

  lemma NewHasNoReceipt(occs: map<Id, Occurrence>, j: J.Db, occ: Id, thread: J.Thread)
    requires NewCall(occs, j, occ)
    ensures ReceiptRun(j.inbound, thread, occ).None?
  {
    ReceiptRunFound(j.inbound, thread, occ);
  }

  // The first `n` calls have ids of their own, new to the tables and the receipts.
  ghost predicate NewCalls(occs: map<Id, Occurrence>, j: J.Db, calls: seq<Call>, from: nat, n: nat)
    requires from <= n <= |calls|
  {
    && (forall i :: from <= i < n ==> NewCall(occs, j, calls[i].occ))
    && (forall i, k :: from <= i < k < n ==> calls[i].occ != calls[k].occ)
  }

  // Every occurrence that was not there before is done with.
  ghost predicate NewSettled(was: map<Id, Occurrence>, occs: map<Id, Occurrence>, j: J.Db) {
    forall o :: o in occs && o !in was ==> Settled(occs[o], j, o)
  }

  ghost predicate SameRows(was: map<Id, Occurrence>, occs: map<Id, Occurrence>) {
    forall o :: o in was ==> o in occs && occs[o] == was[o]
  }

  // A recorded message is the receipt of its own thread and source, and of no other.
  lemma RecordedReceipt(db: J.Db, plan: Inbound.Plan, thread: J.Thread, o: Id)
    requires Inbound.WellFormed(plan) && plan.channel.ScheduleLocal? && plan.source.Some?
    ensures ReceiptRun(Inbound.Recorded(db, plan).inbound, thread, o) ==
      if plan.thread == thread && plan.source == Some(o) then Some(plan.run) else ReceiptRun(db.inbound, thread, o)
  {
    SchedulerExactlyOnce.ReceiptRunAppend(db.inbound, J.Inbound(plan.Key(), plan.run, plan.session, plan.message), thread, o);
  }

  lemma AnsweredSettles(before: J.Db, after: J.Db, row: Occurrence, call: Call, now: int)
    requires Answered(before, after, row, call, now) && ReceiptRun(before.inbound, row.Thread(), call.occ).None?
    ensures Settled(row, after, call.occ)
  {
    var plan := PlanOf(call, row.Thread());
    if Deliverable(before, plan, call.refused) { RecordedReceipt(before, plan, row.Thread(), call.occ); }
  }

  // A round leaves the receipts of all other ids as they are.
  lemma AnsweredAdds(before: J.Db, after: J.Db, row: Occurrence, call: Call, now: int, thread: J.Thread, o: Id)
    requires Answered(before, after, row, call, now) && o != call.occ
    ensures ReceiptRun(after.inbound, thread, o) == ReceiptRun(before.inbound, thread, o)
  {
    var plan := PlanOf(call, row.Thread());
    if Deliverable(before, plan, call.refused) { RecordedReceipt(before, plan, thread, o); }
  }

  lemma AnsweredKeepsNew(before: J.Db, after: J.Db, row: Occurrence, call: Call, now: int, occ: Id)
    requires Answered(before, after, row, call, now) && occ != call.occ
    requires forall i :: 0 <= i < |before.inbound| && Ours(before.inbound[i]) ==> before.inbound[i].key.source != occ
    ensures forall i :: 0 <= i < |after.inbound| && Ours(after.inbound[i]) ==> after.inbound[i].key.source != occ
  {
  }

  lemma RoundSettles(t: Tables, before: J.Db, occs: map<Id, Occurrence>, after: J.Db, id: Id, call: Call, now: int, was: map<Id, Occurrence>)
    requires id in t.schedules && t.schedules[id].nextRunAt.Some? && Round(t, before, occs, after, id, call, now)
    requires NewCall(t.occs, before, call.occ) && NewSettled(was, t.occs, before)
    ensures NewSettled(was, occs, after)
  {
    if occs != t.occs || after != before {
      var row := occs[call.occ];
      NewHasNoReceipt(t.occs, before, call.occ, row.Thread());
      if Answered(before, after, row, call, now) { AnsweredSettles(before, after, row, call, now); }
      forall o | o in occs && o !in was && o != call.occ ensures Settled(occs[o], after, o) {
        assert Settled(t.occs[o], before, o);
        if Answered(before, after, row, call, now) { AnsweredAdds(before, after, row, call, now, occs[o].Thread(), o); }
      }
    }
  }

  // How a drain stands after `i` rounds that began with `was`.
  ghost predicate Drained(was: map<Id, Occurrence>, occs: map<Id, Occurrence>, j: J.Db, calls: seq<Call>, i: nat, n: nat)
    requires i <= n <= |calls|
  {
    NewCalls(occs, j, calls, i, n) && SameRows(was, occs) && NewSettled(was, occs, j)
  }

  lemma RoundDrains(t: Tables, before: J.Db, occs: map<Id, Occurrence>, after: J.Db, id: Id, now: int,
                    was: map<Id, Occurrence>, calls: seq<Call>, i: nat, n: nat)
    requires i < n <= |calls| && Drained(was, t.occs, before, calls, i, n)
    requires id in t.schedules && t.schedules[id].nextRunAt.Some? && Round(t, before, occs, after, id, calls[i], now)
    ensures Drained(was, occs, after, calls, i + 1, n)
  {
    RoundSettles(t, before, occs, after, id, calls[i], now, was);
    forall k | i < k < n ensures NewCall(occs, after, calls[k].occ) {
      RoundKeepsNew(t, before, occs, after, id, calls[i], now, calls[k].occ);
    }
  }

  lemma RoundKeepsNew(t: Tables, before: J.Db, occs: map<Id, Occurrence>, after: J.Db, id: Id, call: Call, now: int, occ: Id)
    requires id in t.schedules && t.schedules[id].nextRunAt.Some? && Round(t, before, occs, after, id, call, now)
    requires NewCall(t.occs, before, occ) && occ != call.occ
    ensures NewCall(occs, after, occ)
  {
    if after != before { AnsweredKeepsNew(before, after, occs[call.occ], call, now, occ); }
  }

  class Service {
    const store: Store
    const journal: J.ConversationStore
    const grace: nat
    const dueLimit: int

    constructor (store: Store, journal: J.ConversationStore)
      ensures this.store == store && this.journal == journal
      ensures grace == 30 * SECOND && dueLimit == 100
    {
      this.store, this.journal := store, journal;
      grace, dueLimit := 30 * SECOND, 100;
    }

    method ReconcileOccurrence(l: Listed, now: int) returns (r: Result<(), StoreError>)
      modifies store
      ensures match ReconcileOne(old(store.State()), journal.db, l, now, grace)
              case Ok(t) => store.State() == t && r == Ok(())
              case Err(e) => r == Err(e)
    {
      if l.row.runId.Some? {
        if l.row.runId.value !in journal.db.runs { return Err(NoRow); }
        r := store.SyncOccurrenceWithRun(l.id, journal.db.runs[l.row.runId.value].status, now);
        return;
      }
      var found := ReceiptRun(journal.db.inbound, l.row.Thread(), l.id);
      if found.Some? {
        if found.value !in journal.db.runs { return Err(NoRow); }
        store.MarkOccurrenceAccepted(l.id, found.value, now);
        r := store.SyncOccurrenceWithRun(l.id, journal.db.runs[found.value].status, now);
        return;
      }
      r := Ok(());
      if l.row.status == Dispatching && l.row.createdAt < now - grace {
        r := store.MarkOccurrenceFailed(l.id, now);
      }
    }

    method ReconcileOpenOccurrences(now: int) returns (r: Result<(), StoreError>)
      modifies store
      ensures match ReconcileAll(old(store.State()), journal.db, OpenListing(old(store.State())), now, grace)
              case Ok(t) => store.State() == t && r == Ok(())
              case Err(e) => r == Err(e)
    {
      ghost var was := store.State();
      OpenPlacesExist(was);
      var places := store.ListOpenOccurrences();
      var listed := Snapshot(Tables(store.schedules, store.occs), places);
      assert listed == OpenListing(was);
      var i := 0;
      while i < |listed|
        invariant 0 <= i <= |listed|
        invariant ReconcileAll(was, journal.db, listed, now, grace)
               == ReconcileAll(store.State(), journal.db, listed[i..], now, grace)
      {
        assert listed[i..][0] == listed[i] && listed[i..][1..] == listed[i + 1..];
        r := ReconcileOccurrence(listed[i], now);
        if r.Err? { return r; }
        i := i + 1;
      }
      r := Ok(());
    }

    // Reconcile, then give a next run to every enabled schedule that lacks one.
    method Repair(now: int) returns (r: Result<(), StoreError>)
      requires Sound(store.State(), journal.db)
      modifies store
      ensures r.Ok? ==>
        && SameTimes(Repaired(old(store.State()), now), store.State())
        && store.occs.Keys == old(store.occs).Keys
        && Sound(store.State(), journal.db)
        && (forall o :: o in store.occs ==> Reconciled(store.State(), journal.db, o, now, grace))
        && forall o :: o in store.occs ==> CaughtUp(old(store.occs)[o], store.occs[o], journal.db, o, now, grace)
    {
      ghost var was := store.State();
      PassReconciles(was, journal.db, now, grace);
      r := ReconcileOpenOccurrences(now);
      ghost var mid := store.State();
      r := store.RepairMissingNextRunAt(now);
      if r.Ok? {
        ghost var d := store.State();
        forall o | o in d.occs
          ensures SoundRow(d, journal.db, o) && Reconciled(d, journal.db, o, now, grace)
        {
          assert SoundRow(mid, journal.db, o) && Reconciled(mid, journal.db, o, now, grace);
        }
      }
    }

    // The dispatcher's call for this occurrence, as the runtime receives it.
    method CallDispatcher(call: Call) returns (reply: Inbound.Reply)
      requires call.occ in store.occs
      modifies journal
      ensures var thread := store.occs[call.occ].Thread();
        old(ReceiptRun(journal.db.inbound, thread, call.occ)).None? ==>
          && !reply.Existing?
          && (reply.Started? <==> Deliverable(old(journal.db), PlanOf(call, thread), call.refused))
          && (reply.Started? ==> reply.run == call.plan.run && journal.db == Inbound.Recorded(old(journal.db), PlanOf(call, thread)))
          && (!reply.Started? ==> journal.db == old(journal.db))
      ensures var plan := PlanOf(call, store.occs[call.occ].Thread());
        Inbound.FreshFor(old(journal.db), plan) && Inbound.Lookup(old(journal.db), plan).Some? ==>
          reply == Inbound.Existing(Inbound.Lookup(old(journal.db), plan).value) && journal.db == old(journal.db)
    {
      var plan := PlanOf(call, store.occs[call.occ].Thread());
      reply := Inbound.Refused;
      ReceiptRunFound(journal.db.inbound, plan.thread, call.occ);
      if Inbound.FreshFor(journal.db, plan) {
        Inbound.BatchOutcome(journal.db, plan);
        Inbound.ReceiveAlone(journal.db, plan, call.refused);
        reply := Inbound.ReceiveInboundMessage(journal, plan, call.refused, Inbound.NOBODY);
      }
    }

    // Calls the dispatcher for an occurrence just claimed and records what came of it.
    method DispatchClaimedOccurrence(call: Call, now: int) returns (r: Result<(), StoreError>)
      requires Loads(store.State(), call.occ)
      requires store.occs[call.occ].status == Dispatching && store.occs[call.occ].runId.None?
      modifies store, journal
      ensures Touches(old(store.State()), store.State(), call.occ)
      ensures SameSlot(store.occs[call.occ], old(store.occs)[call.occ])
      ensures old(ReceiptRun(journal.db.inbound, store.occs[call.occ].Thread(), call.occ)).None? ==>
        r.Ok? && Answered(old(journal.db), journal.db, store.occs[call.occ], call, now)
      ensures var plan := PlanOf(call, old(store.occs)[call.occ].Thread());
        Inbound.FreshFor(old(journal.db), plan) && Inbound.Lookup(old(journal.db), plan).Some? ==>
          && r.Ok? && journal.db == old(journal.db)
          && store.occs[call.occ] == old(store.occs)[call.occ].(
               runId := Inbound.Lookup(old(journal.db), plan), status := Active, startedAt := Some(now))
    {
      ghost var db := journal.db;
      ghost var plan := PlanOf(call, store.occs[call.occ].Thread());
      if Deliverable(db, plan, call.refused) { RecordedReceipt(db, plan, plan.thread, call.occ); }
      var reply := CallDispatcher(call);
      if reply.Existing? || (reply.Started? && !call.lateError) {
        store.MarkOccurrenceAccepted(call.occ, reply.run, now);
        return Ok(());
      }
      var found := ReceiptRun(journal.db.inbound, store.occs[call.occ].Thread(), call.occ);
      if found.Some? {
        if found.value !in journal.db.runs { return Err(NoRow); }
        store.MarkOccurrenceAccepted(call.occ, found.value, now);
        SyncEffect(store.State(), call.occ, journal.db.runs[found.value].status, now);
        r := store.SyncOccurrenceWithRun(call.occ, journal.db.runs[found.value].status, now);
      } else {
        ReachFrame(store.State(), call.occ, Failed, now);
        r := store.MarkOccurrenceFailed(call.occ, now);
      }
    }

    // Claims one due schedule and dispatches what it claimed.
    method ClaimAndDispatch(id: Id, call: Call, now: int) returns (r: Result<(), StoreError>)
      requires id in DueIds(store.State(), now) && AllInRange(store.State(), now)
      requires ValidRefs(store.State())
      modifies store, journal
      ensures r.Ok? ==> DueIds(store.State(), now) == DueIds(old(store.State()), now) - {id}
      ensures r.Ok? ==> AllInRange(store.State(), now) && ValidRefs(store.State())
      ensures r.Ok? && NewCall(old(store.occs), old(journal.db), call.occ) ==>
        Round(old(store.State()), old(journal.db), store.occs, journal.db, id, call, now)
    {
      ghost var before := store.State();
      ghost var db := journal.db;
      ghost var unseen := NewCall(store.occs, db, call.occ);
      if unseen { NewHasNoReceipt(store.occs, db, call.occ, J.SlotThread(before.schedules[id].nextRunAt.value)); }
      ClaimFrame(before, id, now, call.occ);
      ClaimRefs(before, id, now, call.occ);
      var claim := store.ClaimDueOccurrence(id, now, call.occ);
      if claim.ClaimFailed? { return Err(claim.error); }
      ClaimDrains(before, id, now, call.occ);
      if unseen { ClaimBegins(before, id, now, call.occ); }
      ghost var mid := store.State();
      r := Ok(());
      if claim.Claimed? {
        r := DispatchClaimedOccurrence(call, now);
        TouchesKeep(mid, store.State(), call.occ, now);
      }
      if unseen && r.Ok? { BegunRound(before, db, mid.occs, claim, store.occs, journal.db, id, call, now); }
    }

    // The ids of the due schedules, up to the limit.
    method ListDue(now: int) returns (due: seq<Id>)
      ensures forall i, j :: 0 <= i < j < |due| ==> due[i] != due[j]
      ensures Ordering.Elements(due) <= DueIds(store.State(), now)
      ensures due == FirstDue(store.State(), now, Limit(dueLimit))
      ensures |due| == if |DueIds(store.State(), now)| <= Limit(dueLimit) then |DueIds(store.State(), now)| else Limit(dueLimit)
    {
      var places := store.ListDueSchedules(now, dueLimit);
      ghost var ids := IdsOf(DueListing(store.State(), now));
      DueListed(store.State(), now);
      due := IdsOf(places);
      assert due == ids[..|places|];
      assert forall x :: x in due ==> x in ids;
    }

    // Claims and dispatches the schedules that are due, up to the limit.
    method DrainDue(now: int, calls: seq<Call>) returns (r: Result<(), StoreError>)
      requires AllInRange(store.State(), now) && ValidRefs(store.State())
      requires |calls| >= Limit(dueLimit)
      modifies store, journal
      ensures r.Ok? ==>
        var due := |DueIds(old(store.State()), now)|;
        |DueIds(store.State(), now)| == if due <= Limit(dueLimit) then 0 else due - Limit(dueLimit)
      ensures r.Ok? ==>
        DueIds(store.State(), now)
        == DueIds(old(store.State()), now) - Ordering.Elements(FirstDue(old(store.State()), now, Limit(dueLimit)))
      ensures r.Ok? && NewCalls(old(store.occs), old(journal.db), calls, 0, Limit(dueLimit)) ==>
        SameRows(old(store.occs), store.occs) && NewSettled(old(store.occs), store.occs, journal.db)
    {
      ghost var was := store.occs;
      ghost var n := Limit(dueLimit);
      ghost var unseen := NewCalls(was, journal.db, calls, 0, n);
      ghost var all := DueIds(store.State(), now);
      var due := ListDue(now);
      var i := 0;
      while i < |due|
        invariant 0 <= i <= |due|
        invariant AllInRange(store.State(), now) && ValidRefs(store.State())
        invariant DueIds(store.State(), now) == all - Ordering.Elements(due[..i])
        invariant unseen ==> Drained(was, store.occs, journal.db, calls, i, n)
      {
        NextListed(due, i, all);
        ghost var t, db := store.State(), journal.db;
        r := ClaimAndDispatch(due[i], calls[i], now);
        if r.Err? { return r; }
        if unseen { RoundDrains(t, db, store.occs, journal.db, due[i], now, was, calls, i, n); }
        i := i + 1;
      }
      assert due[..i] == due;
      CountLeft(all, due);
      r := Ok(());
    }

    // Reconcile, repair, then drain what is due.
    method RunOnce(now: int, calls: seq<Call>) returns (r: Result<(), StoreError>)
      requires Sound(store.State(), journal.db) && AllInRange(store.State(), now)
      requires |calls| >= Limit(dueLimit)
      modifies store, journal
      ensures r.Ok? ==>
        var due := |DueIds(Repaired(old(store.State()), now), now)|;
        |DueIds(store.State(), now)| == if due <= Limit(dueLimit) then 0 else due - Limit(dueLimit)
      ensures r.Ok? ==>
        var t := Repaired(old(store.State()), now);
        DueIds(store.State(), now) == DueIds(t, now) - Ordering.Elements(FirstDue(t, now, Limit(dueLimit)))
      ensures r.Ok? && NewCalls(old(store.occs), old(journal.db), calls, 0, Limit(dueLimit)) ==>
        && (forall o :: o in old(store.occs) ==>
              o in store.occs && CaughtUp(old(store.occs)[o], store.occs[o], old(journal.db), o, now, grace))
        && NewSettled(old(store.occs), store.occs, journal.db)
    {
      ghost var start := Repaired(store.State(), now);
      r := Repair(now);
      if r.Err? { return r; }
      ghost var was := store.State();
      SameDueListing(start, was, now);
      assert forall o :: o in was.occs ==> SoundRow(was, journal.db, o);
      assert NewCalls(old(store.occs), journal.db, calls, 0, Limit(dueLimit)) ==>
        NewCalls(store.occs, journal.db, calls, 0, Limit(dueLimit));
      r := DrainDue(now, calls);
      assert was.occs.Keys == old(store.occs).Keys;
    }
  }

  lemma SameDueListing(t: Tables, d: Tables, now: int)
    requires SameTimes(t, d)
    ensures DueIds(d, now) == DueIds(t, now)
    ensures forall n: nat :: FirstDue(d, now, n) == FirstDue(t, now, n)
  {
    assert DuePlaces(d, now) == DuePlaces(t, now);
  }

  lemma NextListed(ids: seq<Id>, i: nat, all: set<Id>)
    requires i < |ids| && forall j, k :: 0 <= j < k < |ids| ==> ids[j] != ids[k]
    requires Ordering.Elements(ids) <= all
    ensures ids[i] in all - Ordering.Elements(ids[..i])
    ensures all - Ordering.Elements(ids[..i + 1]) == all - Ordering.Elements(ids[..i]) - {ids[i]}
  {
    assert ids[..i + 1] == ids[..i] + [ids[i]];
    assert ids[i] in Ordering.Elements(ids);
  }

  lemma CountLeft(all: set<Id>, ids: seq<Id>)
    requires (forall j, k :: 0 <= j < k < |ids| ==> ids[j] != ids[k]) && Ordering.Elements(ids) <= all
    ensures |all - Ordering.Elements(ids)| == |all| - |ids|
  {
    DistinctCount(ids);
  }

  ghost predicate ValidRefs(t: Tables) {
    forall o :: o in t.occs ==> t.occs[o].schedule in t.schedules
  }

  // A row that keeps its place moves no schedule's times.
  lemma TouchesKeep(t: Tables, d: Tables, o: Id, now: int)
    requires Touches(t, d, o) && o in t.occs && SameSlot(d.occs[o], t.occs[o])
    ensures DueIds(d, now) == DueIds(t, now)
    ensures AllInRange(t, now) ==> AllInRange(d, now)
    ensures ValidRefs(t) ==> ValidRefs(d)
  {
  }

  lemma ClaimRefs(t: Tables, id: Id, now: int, occ: Id)
    requires ValidRefs(t)
    ensures var (d, claim) := SchedulerStore.ClaimDue(t, id, now, occ);
      ValidRefs(d) && (claim.Claimed? ==> occ in d.occs && d.occs[occ].status == Dispatching && d.occs[occ].runId.None?)
  {
  }
}
