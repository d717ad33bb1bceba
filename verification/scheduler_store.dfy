/** The scheduler's tables and its transactions, one function for each, and the store that runs them. */
module SchedulerStore {
  import opened Basics
  import opened Slots
  import Journal
  import Ordering

  datatype OccStatus =
    | Dispatching | Active | NeedsApproval      // open
    | Completed | Failed | Interrupted | Skipped // closed
  {
    predicate Open() { Dispatching? || Active? || NeedsApproval? }
    predicate Finished() { Completed? || Failed? || Interrupted? }
  }

  datatype Schedule = Schedule(spec: Spec, enabled: bool, nextRunAt: Option<int>,
                               lastRunAt: Option<int>, lastStatus: Option<OccStatus>, consecutiveFailures: nat)

  datatype Occurrence = Occurrence(schedule: Id, slot: int, status: OccStatus, runId: Option<Id>,
                                   startedAt: Option<int>, finishedAt: Option<int>, createdAt: int)
  {
    // The thread column: the slot, formatted to the nanosecond.
    function Thread(): Journal.Thread { Journal.SlotThread(slot) }
  }

  // Schedules are unique on id; occurrences on id and on (schedule, slot).
  datatype Tables = Tables(schedules: map<Id, Schedule>, occs: map<Id, Occurrence>)

  datatype StoreError = NoRow | DuplicateId | BadSpec(error: SpecError)

  function FromRun(status: Journal.RunStatus): OccStatus {
    match status
    case Active => Active
    case Pending => Active
    case NeedsApproval => NeedsApproval
    case Completed => Completed
    case Interrupted => Interrupted
    case Failed => Failed
  }

  predicate IsDue(s: Schedule, now: int) {
    s.enabled && s.nextRunAt.Some? && s.nextRunAt.value <= now
  }

  predicate SlotTaken(occs: map<Id, Occurrence>, schedule: Id, slot: int) {
    exists o :: o in occs && occs[o].schedule == schedule && occs[o].slot == slot
  }

  predicate HasPreviousActive(occs: map<Id, Occurrence>, schedule: Id, slot: int) {
    exists o :: o in occs && occs[o].schedule == schedule && occs[o].slot < slot && occs[o].status.Open()
  }

  function NewOccurrence(occs: map<Id, Occurrence>, schedule: Id, slot: int, now: int): Occurrence {
    Occurrence(schedule, slot, if HasPreviousActive(occs, schedule, slot) then Skipped else Dispatching,
               None, None, None, now)
  }

  // The last-run columns of a schedule after one of its occurrences reached this status.
  function Summarize(s: Schedule, status: OccStatus, slot: int): Schedule {
    match status
    case NeedsApproval => s.(lastRunAt := Some(slot), lastStatus := Some(status))
    case Completed => s.(lastRunAt := Some(slot), lastStatus := Some(status), consecutiveFailures := 0)
    case Interrupted => s.(lastRunAt := Some(slot), lastStatus := Some(status), consecutiveFailures := 0)
    case Failed =>
      s.(lastRunAt := Some(slot), lastStatus := Some(status),
         consecutiveFailures := if s.lastRunAt.Some? && s.lastStatus == Some(Failed) then s.consecutiveFailures + 1 else 1)
    case _ => s
  }

  /// Transactions

  function NextFor(spec: Spec, enabled: bool, now: int): Result<Option<int>, StoreError> {
    if !enabled then Ok(None) else
    match ComputeNextRun(spec, now) case Err(e) => Err(BadSpec(e)) case Ok(next) => Ok(next)
  }

  function Created(t: Tables, id: Id, spec: Spec, enabled: bool, now: int): Result<Tables, StoreError> {
    match ValidateSpec(spec)
    case Some(e) => Err(BadSpec(e))
    case None =>
      match NextFor(spec, enabled, now)
      case Err(e) => Err(e)
      case Ok(next) =>
        if id in t.schedules then Err(DuplicateId)
        else Ok(t.(schedules := t.schedules[id := Schedule(spec, enabled, next, None, None, 0)]))
  }

  predicate MissingNext(s: Schedule) {
    s.enabled && s.nextRunAt.None?
  }

  // The edits of a schedule: a row is loaded, and a later statement writes what was made of it. Without a
  // new spec an update only means the descriptive columns, yet it writes spec and next run back as loaded.
  datatype Edit = UpdateEdit(patch: Option<Spec>) | EnableEdit(enabled: bool) | RepairEdit

  // The next run an edit of the loaded row is going to write.
  function NextWritten(loaded: Schedule, e: Edit, now: int): Result<Option<int>, StoreError> {
    match e
    case UpdateEdit(None) => Ok(loaded.nextRunAt)
    case UpdateEdit(Some(spec)) =>
      (match ValidateSpec(spec)
       case Some(error) => Err(BadSpec(error))
       case None => NextFor(spec, loaded.enabled, now))
    case EnableEdit(enabled) => NextFor(loaded.spec, enabled, now)
    case RepairEdit => NextFor(loaded.spec, true, now)
  }

  // The columns an edit writes, on whatever the row has become since it was loaded.
  function RowWritten(row: Schedule, loaded: Schedule, e: Edit, next: Option<int>): Schedule {
    match e
    case UpdateEdit(patch) => row.(spec := if patch.Some? then patch.value else loaded.spec, nextRunAt := next)
    case EnableEdit(enabled) => row.(enabled := enabled, nextRunAt := next)
    case RepairEdit => row.(nextRunAt := next)
  }

  function WriteEdit(t: Tables, id: Id, loaded: Schedule, e: Edit, now: int): Result<Tables, StoreError> {
    match NextWritten(loaded, e, now)
    case Err(error) => Err(error)
    case Ok(next) =>
      if id !in t.schedules then Ok(t)
      else Ok(t.(schedules := t.schedules[id := RowWritten(t.schedules[id], loaded, e, next)]))
  }

  datatype Claim = ClaimFailed(error: StoreError) | NotClaimed | Claimed

  function AdvanceNext(t: Tables, id: Id, next: Option<int>): Tables
    requires id in t.schedules
  {
    t.(schedules := t.schedules[id := t.schedules[id].(nextRunAt := next)])
  }

  // Claims the due slot of a schedule under the occurrence id `occ`.
  function ClaimDue(t: Tables, id: Id, now: int, occ: Id): (Tables, Claim) {
    if id !in t.schedules then (t, NotClaimed) else
    var s := t.schedules[id];
    if !IsDue(s, now) then (t, NotClaimed) else
    match ComputeNextRun(s.spec, now + 1)
    case Err(e) => (t, ClaimFailed(BadSpec(e)))
    case Ok(next) =>
      var slot := s.nextRunAt.value;
      if occ in t.occs || SlotTaken(t.occs, id, slot) then
        (AdvanceNext(t, id, next), NotClaimed)
      else
        var row := NewOccurrence(t.occs, id, slot, now);
        (AdvanceNext(t.(occs := t.occs[occ := row]), id, next),
         if row.status == Dispatching then Claimed else NotClaimed)
  }

  function ClaimManual(t: Tables, id: Id, slot: int, occ: Id): (Tables, Claim) {
    if id !in t.schedules then (t, ClaimFailed(NoRow))
    else if occ in t.occs || SlotTaken(t.occs, id, slot) then (t, NotClaimed)
    else
      var row := NewOccurrence(t.occs, id, slot, slot);
      (t.(occs := t.occs[occ := row]), if row.status == Dispatching then Claimed else NotClaimed)
  }

  function MarkAccepted(t: Tables, occ: Id, run: Id, now: int): Tables {
    if occ !in t.occs then t
    else t.(occs := t.occs[occ := t.occs[occ].(runId := Some(run), status := Active, startedAt := Some(now))])
  }

  // The occurrence reaches a status and its schedule's summary follows.
  function Reach(t: Tables, occ: Id, status: OccStatus, now: int): Tables
    requires occ in t.occs && t.occs[occ].schedule in t.schedules
  {
    var row := t.occs[occ];
    var id := row.schedule;
    Tables(t.schedules[id := Summarize(t.schedules[id], status, row.slot)],
           t.occs[occ := row.(status := status, finishedAt := if status.Finished() then Some(now) else row.finishedAt)])
  }

  predicate Loads(t: Tables, occ: Id) {
    occ in t.occs && t.occs[occ].schedule in t.schedules
  }

  function MarkFailed(t: Tables, occ: Id, now: int): Result<Tables, StoreError> {
    if !Loads(t, occ) then Err(NoRow) else Ok(Reach(t, occ, Failed, now))
  }

  function SyncWithRun(t: Tables, occ: Id, status: Journal.RunStatus, now: int): Result<Tables, StoreError> {
    if !Loads(t, occ) then Err(NoRow)
    else if FromRun(status) == t.occs[occ].status then Ok(t)
    else Ok(Reach(t, occ, FromRun(status), now))
  }

  // The run of the latest receipt the scheduler's channel holds for this thread and message.
  function ReceiptRun(rows: seq<Journal.Inbound>, thread: Journal.Thread, source: Id): Option<Id> {
    if rows == [] then None else
    var last := rows[|rows| - 1];
    if last.key.channel.ScheduleLocal? && last.key.thread == thread && last.key.source == source then Some(last.run)
    else ReceiptRun(rows[..|rows| - 1], thread, source)
  }

  /// What the transactions come to, column by column

  // The occurrence takes the status of its run, a pending run counting as active. The first time it does, a
  // failed run extends or starts the schedule's count of failures, a completed or interrupted one ends it,
  // and one that waits for approval leaves it.
  lemma SyncFollows(t: Tables, occ: Id, status: Journal.RunStatus, now: int)
    ensures !(occ in t.occs && t.occs[occ].schedule in t.schedules) ==> SyncWithRun(t, occ, status, now) == Err(NoRow)
    ensures occ in t.occs && t.occs[occ].schedule in t.schedules ==>
      && SyncWithRun(t, occ, status, now).Ok?
      && (var d := SyncWithRun(t, occ, status, now).value;
          && d.occs.Keys == t.occs.Keys && d.schedules.Keys == t.schedules.Keys
          && (forall o :: o in t.occs && o != occ ==> d.occs[o] == t.occs[o])
          && (forall s :: s in t.schedules && s != t.occs[occ].schedule ==> d.schedules[s] == t.schedules[s])
          && (var row, was := d.occs[occ], t.occs[occ];
              && (row.status.Active? <==> status.Active? || status.Pending?)
              && (row.status.NeedsApproval? <==> status.NeedsApproval?)
              && (row.status.Completed? <==> status.Completed?)
              && (row.status.Interrupted? <==> status.Interrupted?)
              && (row.status.Failed? <==> status.Failed?)
              && row == was.(status := row.status, finishedAt := row.finishedAt)
              && (row.status == was.status ==> d == t)
              && (row.status != was.status ==>
                    var s, p := d.schedules[was.schedule], t.schedules[was.schedule];
                    && row.finishedAt == (if status.Completed? || status.Interrupted? || status.Failed? then Some(now) else was.finishedAt)
                    && s == p.(lastRunAt := s.lastRunAt, lastStatus := s.lastStatus, consecutiveFailures := s.consecutiveFailures)
                    && (if status.Active? || status.Pending? then s == p
                        else s.lastRunAt == Some(was.slot) && s.lastStatus == Some(row.status))
                    && (status.NeedsApproval? ==> s.consecutiveFailures == p.consecutiveFailures)
                    && (status.Completed? || status.Interrupted? ==> s.consecutiveFailures == 0)
                    && (status.Failed? ==>
                          s.consecutiveFailures ==
                            (if p.lastRunAt.Some? && p.lastStatus == Some(OccStatus.Failed) then p.consecutiveFailures + 1 else 1)))))
  {
  }

  // A failure closes the occurrence and counts; an acceptance makes it active with its run. Nothing else moves.
  lemma MarksOne(t: Tables, occ: Id, run: Id, now: int)
    ensures MarkAccepted(t, occ, run, now) ==
      if occ in t.occs then
        t.(occs := t.occs[occ := t.occs[occ].(runId := Some(run), status := OccStatus.Active, startedAt := Some(now))])
      else t
    ensures !(occ in t.occs && t.occs[occ].schedule in t.schedules) ==> MarkFailed(t, occ, now) == Err(NoRow)
    ensures occ in t.occs && t.occs[occ].schedule in t.schedules ==>
      var row, s := t.occs[occ], t.schedules[t.occs[occ].schedule];
      MarkFailed(t, occ, now) == Ok(Tables(
        t.schedules[row.schedule := s.(lastRunAt := Some(row.slot), lastStatus := Some(OccStatus.Failed),
          consecutiveFailures := if s.lastRunAt.Some? && s.lastStatus == Some(OccStatus.Failed) then s.consecutiveFailures + 1 else 1)],
        t.occs[occ := row.(status := OccStatus.Failed, finishedAt := Some(now))]))
  {
  }

  // The row a claim adds: skipped if and only if an occurrence of the schedule with an earlier slot is
  // dispatching, active or waiting for approval.
  lemma AddedRow(occs: map<Id, Occurrence>, schedule: Id, slot: int, now: int)
    ensures var row := NewOccurrence(occs, schedule, slot, now);
      && row == Occurrence(schedule, slot, row.status, None, None, None, now)
      && row.status in {Skipped, Dispatching}
      && (row.status.Skipped? <==>
            exists o :: o in occs && occs[o].schedule == schedule && occs[o].slot < slot
                        && (occs[o].status.Dispatching? || occs[o].status.Active? || occs[o].status.NeedsApproval?))
  {
  }

  // A due claim: nothing unless the schedule is enabled and its next run has come; then, if its spec
  // computes, the next run moves on, and the row is added unless its id or its slot is taken.
  lemma ClaimDueExact(t: Tables, id: Id, now: int, occ: Id)
    ensures var (d, claim) := ClaimDue(t, id, now, occ);
      if !(id in t.schedules && t.schedules[id].enabled && t.schedules[id].nextRunAt.Some? && t.schedules[id].nextRunAt.value <= now) then
        d == t && claim == NotClaimed
      else
        var s := t.schedules[id];
        match ComputeNextRun(s.spec, now + 1)
        case Err(e) => d == t && claim == ClaimFailed(BadSpec(e))
        case Ok(next) =>
          && d.schedules == t.schedules[id := s.(nextRunAt := next)]
          && (if occ in t.occs || exists o :: o in t.occs && t.occs[o].schedule == id && t.occs[o].slot == s.nextRunAt.value then
                d.occs == t.occs && claim == NotClaimed
              else
                && d.occs == t.occs[occ := NewOccurrence(t.occs, id, s.nextRunAt.value, now)]
                && claim == if d.occs[occ].status.Dispatching? then Claimed else NotClaimed)
  {
  }

  lemma ClaimManualExact(t: Tables, id: Id, slot: int, occ: Id)
    ensures var (d, claim) := ClaimManual(t, id, slot, occ);
      && d.schedules == t.schedules
      && (if id !in t.schedules then d == t && claim == ClaimFailed(NoRow)
          else if occ in t.occs || exists o :: o in t.occs && t.occs[o].schedule == id && t.occs[o].slot == slot then
            d == t && claim == NotClaimed
          else
            && d.occs == t.occs[occ := NewOccurrence(t.occs, id, slot, slot)]
            && claim == if d.occs[occ].status.Dispatching? then Claimed else NotClaimed)
  {
  }

  // A new schedule has the next run of its spec, or none while it is disabled.
  lemma CreatesOne(t: Tables, id: Id, spec: Spec, enabled: bool, now: int)
    ensures var r := Created(t, id, spec, enabled, now);
      && (ValidateSpec(spec).Some? ==> r == Err(BadSpec(ValidateSpec(spec).value)))
      && (ValidateSpec(spec).None? && enabled && ComputeNextRun(spec, now).Err? ==> r == Err(BadSpec(ComputeNextRun(spec, now).error)))
      && (ValidateSpec(spec).None? && (enabled ==> ComputeNextRun(spec, now).Ok?) ==>
            r == if id in t.schedules then Err(DuplicateId)
                 else Ok(t.(schedules := t.schedules[id :=
                   Schedule(spec, enabled, if enabled then ComputeNextRun(spec, now).value else None, None, None, 0)])))
  {
  }

  // What each edit writes into the row that is there now, and when it is refused.
  lemma EditWrites(t: Tables, id: Id, loaded: Schedule, now: int, spec: Spec, on: bool)
    requires id in t.schedules
    ensures var row := t.schedules[id];
      && WriteEdit(t, id, loaded, UpdateEdit(None), now)
         == Ok(t.(schedules := t.schedules[id := row.(spec := loaded.spec, nextRunAt := loaded.nextRunAt)]))
      && (var r := WriteEdit(t, id, loaded, UpdateEdit(Some(spec)), now);
          if ValidateSpec(spec).Some? then r == Err(BadSpec(ValidateSpec(spec).value))
          else if loaded.enabled && ComputeNextRun(spec, now).Err? then r == Err(BadSpec(ComputeNextRun(spec, now).error))
          else r == Ok(t.(schedules := t.schedules[id :=
                 row.(spec := spec, nextRunAt := if loaded.enabled then ComputeNextRun(spec, now).value else None)])))
      && (var r := WriteEdit(t, id, loaded, EnableEdit(on), now);
          if on && ComputeNextRun(loaded.spec, now).Err? then r == Err(BadSpec(ComputeNextRun(loaded.spec, now).error))
          else r == Ok(t.(schedules := t.schedules[id :=
                 row.(enabled := on, nextRunAt := if on then ComputeNextRun(loaded.spec, now).value else None)])))
      && (var r := WriteEdit(t, id, loaded, RepairEdit, now);
          if ComputeNextRun(loaded.spec, now).Err? then r == Err(BadSpec(ComputeNextRun(loaded.spec, now).error))
          else r == Ok(t.(schedules := t.schedules[id := row.(nextRunAt := ComputeNextRun(loaded.spec, now).value)])))
  {
  }

  // An edit of a row that has gone meanwhile writes nothing.
  lemma EditMissesRow(t: Tables, id: Id, loaded: Schedule, e: Edit, now: int)
    requires id !in t.schedules
    ensures WriteEdit(t, id, loaded, e, now).Ok? ==> WriteEdit(t, id, loaded, e, now).value == t
  {
  }

  // The latest receipt of the thread and message on the scheduler's own channel.
  lemma {:induction false} ReceiptRunLatest(rows: seq<Journal.Inbound>, thread: Journal.Thread, source: Id)
    ensures var ours := (r: Journal.Inbound) => r.key.channel.ScheduleLocal? && r.key.thread == thread && r.key.source == source;
      match ReceiptRun(rows, thread, source)
      case None => forall i :: 0 <= i < |rows| ==> !ours(rows[i])
      case Some(run) =>
        exists i :: 0 <= i < |rows| && ours(rows[i]) && rows[i].run == run && forall j :: i < j < |rows| ==> !ours(rows[j])
  {
    if rows != [] {
      ReceiptRunLatest(rows[..|rows| - 1], thread, source);
      var last := |rows| - 1;
      assert rows[..last] + [rows[last]] == rows;
    }
  }

  /// What a claim does, whichever path it takes

  // A claim never changes another schedule or another occurrence; its own schedule moves past the
  // claim time or stops, whether the slot was claimed, skipped or already taken.
  lemma ClaimAdvances(t: Tables, id: Id, now: int, occ: Id)
    requires id in t.schedules && IsDue(t.schedules[id], now)
    requires InRange(t.schedules[id].spec, now + 1)
    ensures var (d, claim) := ClaimDue(t, id, now, occ);
      && d.schedules.Keys == t.schedules.Keys
      && (forall s :: s in t.schedules && s != id ==> d.schedules[s] == t.schedules[s])
      && (forall o :: o in t.occs ==> o in d.occs && d.occs[o] == t.occs[o])
      && (!claim.ClaimFailed? ==>
            && !IsDue(d.schedules[id], now)
            && (d.schedules[id].nextRunAt.Some? ==> now < d.schedules[id].nextRunAt.value)
            && (occ !in t.occs ==> SlotTaken(d.occs, id, t.schedules[id].nextRunAt.value)))
      && (claim.Claimed? <==>
            && occ !in t.occs && occ in d.occs && d.occs[occ].status == Dispatching
            && d.occs[occ].slot == t.schedules[id].nextRunAt.value)
      && (claim.ClaimFailed? <==> ValidateSpec(t.schedules[id].spec).Some?)
  {
    NextNotBefore(t.schedules[id].spec, now + 1);
    if ValidateSpec(t.schedules[id].spec).None? { NextDefined(t.schedules[id].spec, now + 1); }
    var (d, claim) := ClaimDue(t, id, now, occ);
    if occ !in t.occs && occ in d.occs { assert d.occs[occ].slot == t.schedules[id].nextRunAt.value; }
  }

  // Claims leave every column of every schedule but the next run.
  lemma ClaimFrame(t: Tables, id: Id, now: int, occ: Id)
    ensures ClaimManual(t, id, now, occ).0.schedules == t.schedules
    ensures var d := ClaimDue(t, id, now, occ).0;
      && d.schedules.Keys == t.schedules.Keys
      && forall s :: s in t.schedules ==> d.schedules[s] == t.schedules[s].(nextRunAt := d.schedules[s].nextRunAt)
  {
  }

  // Reaching a status touches one occurrence and the summary columns of its schedule.
  lemma ReachFrame(t: Tables, occ: Id, status: OccStatus, now: int)
    requires Loads(t, occ)
    ensures var d := Reach(t, occ, status, now);
      && d.occs.Keys == t.occs.Keys && d.schedules.Keys == t.schedules.Keys
      && (forall o :: o in t.occs && o != occ ==> d.occs[o] == t.occs[o])
      && (var row, was := d.occs[occ], t.occs[occ];
          row.status == status && row == was.(status := status, finishedAt := row.finishedAt))
      && (forall s :: s in t.schedules ==>
            d.schedules[s] == t.schedules[s].(lastRunAt := d.schedules[s].lastRunAt, lastStatus := d.schedules[s].lastStatus,
                                              consecutiveFailures := d.schedules[s].consecutiveFailures))
  {
  }

  /// Listings

  // A row's place in an `ORDER BY time, id`.
  datatype Place = Place(at: int, id: Id)

  predicate PlaceBefore(a: Place, b: Place) {
    a.at < b.at || (a.at == b.at && a.id < b.id)
  }

  function OpenPlaces(t: Tables): set<Place> {
    set o | o in t.occs && t.occs[o].status.Open() :: Place(t.occs[o].createdAt, o)
  }

  function DueIds(t: Tables, now: int): set<Id> {
    set id | id in t.schedules && IsDue(t.schedules[id], now)
  }

  function DuePlaces(t: Tables, now: int): set<Place> {
    set id | id in t.schedules && IsDue(t.schedules[id], now) :: Place(t.schedules[id].nextRunAt.value, id)
  }

  function MissingIds(t: Tables): set<Id> {
    set id | id in t.schedules && MissingNext(t.schedules[id])
  }

  // The effective limit of a listing of due schedules.
  function Limit(limit: int): (n: nat)
    ensures (limit > 0 ==> n == limit) && (limit <= 0 ==> n == 100)
  {
    if limit <= 0 then 100 else limit
  }

  /// The store

  class Store {
    var schedules: map<Id, Schedule>
    var occs: map<Id, Occurrence>

    ghost function State(): Tables
      reads this
    {
      Tables(schedules, occs)
    }

    constructor ()
      ensures State() == Tables(map[], map[])
    {
      schedules, occs := map[], map[];
    }

    method CreateSchedule(id: Id, spec: Spec, enabled: bool, now: int) returns (r: Result<(), StoreError>)
      modifies this`schedules
      ensures match Created(old(State()), id, spec, enabled, now)
              case Ok(t) => State() == t && r == Ok(())
              case Err(e) => State() == old(State()) && r == Err(e)
    {
      var invalid := ValidateSpec(spec);
      if invalid.Some? { return Err(BadSpec(invalid.value)); }
      var next: Option<int> := None;
      if enabled {
        var computed := ComputeNextRun(spec, now);
        if computed.Err? { return Err(BadSpec(computed.error)); }
        next := computed.value;
      }
      if id in schedules { return Err(DuplicateId); }
      schedules := schedules[id := Schedule(spec, enabled, next, None, None, 0)];
      r := Ok(());
    }

    // `meanwhile` is what other writers leave of the tables between the load and the write.
    method UpdateSchedule(id: Id, patch: Option<Spec>, now: int, meanwhile: Tables) returns (r: Result<(), StoreError>)
      modifies this
      ensures id !in old(schedules) ==> State() == old(State()) && r == Err(NoRow)
      ensures id in old(schedules) ==>
        match WriteEdit(meanwhile, id, old(schedules)[id], UpdateEdit(patch), now)
        case Ok(t) => State() == t && r == Ok(())
        case Err(e) => State() == old(State()) && r == Err(e)
    {
      if id !in schedules { return Err(NoRow); }
      var schedule := schedules[id];
      var next := schedule.nextRunAt;
      if patch.Some? {
        var invalid := ValidateSpec(patch.value);
        if invalid.Some? { return Err(BadSpec(invalid.value)); }
        next := None;
        if schedule.enabled {
          var computed := ComputeNextRun(patch.value, now);
          if computed.Err? { return Err(BadSpec(computed.error)); }
          next := computed.value;
        }
        schedule := schedule.(spec := patch.value);
      }
      schedules, occs := meanwhile.schedules, meanwhile.occs;
      if id in schedules {
        schedules := schedules[id := schedules[id].(spec := schedule.spec, nextRunAt := next)];
      }
      r := Ok(());
    }

    method SetScheduleEnabled(id: Id, enabled: bool, now: int, meanwhile: Tables) returns (r: Result<(), StoreError>)
      modifies this
      ensures id !in old(schedules) ==> State() == old(State()) && r == Err(NoRow)
      ensures id in old(schedules) ==>
        match WriteEdit(meanwhile, id, old(schedules)[id], EnableEdit(enabled), now)
        case Ok(t) => State() == t && r == Ok(())
        case Err(e) => State() == old(State()) && r == Err(e)
    {
      if id !in schedules { return Err(NoRow); }
      var next: Option<int> := None;
      if enabled {
        var computed := ComputeNextRun(schedules[id].spec, now);
        if computed.Err? { return Err(BadSpec(computed.error)); }
        next := computed.value;
      }
      schedules, occs := meanwhile.schedules, meanwhile.occs;
      if id in schedules { schedules := schedules[id := schedules[id].(enabled := enabled, nextRunAt := next)]; }
      r := Ok(());
    }

    method ClaimDueOccurrence(id: Id, now: int, occ: Id) returns (claim: Claim)
      modifies this
      ensures (State(), claim) == ClaimDue(old(State()), id, now, occ)
    {
      if id !in schedules { return NotClaimed; }
      var s := schedules[id];
      if !s.enabled || s.nextRunAt.None? || now < s.nextRunAt.value { return NotClaimed; }
      var next := ComputeNextRun(s.spec, now + 1);
      if next.Err? { return ClaimFailed(BadSpec(next.error)); }
      var slot := s.nextRunAt.value;
      var status := if HasPreviousActive(occs, id, slot) then Skipped else Dispatching;
      var duplicate := occ in occs || SlotTaken(occs, id, slot);
      if !duplicate {
        occs := occs[occ := Occurrence(id, slot, status, None, None, None, now)];
      }
      schedules := schedules[id := s.(nextRunAt := next.value)];
      claim := if !duplicate && status == Dispatching then Claimed else NotClaimed;
    }

    method ClaimManualOccurrence(id: Id, slot: int, occ: Id) returns (claim: Claim)
      modifies this`occs
      ensures (State(), claim) == ClaimManual(old(State()), id, slot, occ)
    {
      if id !in schedules { return ClaimFailed(NoRow); }
      var status := if HasPreviousActive(occs, id, slot) then Skipped else Dispatching;
      if occ in occs || SlotTaken(occs, id, slot) { return NotClaimed; }
      occs := occs[occ := Occurrence(id, slot, status, None, None, None, slot)];
      claim := if status == Dispatching then Claimed else NotClaimed;
    }

    method MarkOccurrenceAccepted(occ: Id, run: Id, startedAt: int)
      modifies this`occs
      ensures State() == MarkAccepted(old(State()), occ, run, startedAt)
    {
      if occ in occs {
        occs := occs[occ := occs[occ].(runId := Some(run), status := Active, startedAt := Some(startedAt))];
      }
    }

    method MarkOccurrenceFailed(occ: Id, now: int) returns (r: Result<(), StoreError>)
      modifies this
      ensures match MarkFailed(old(State()), occ, now)
              case Ok(t) => State() == t && r == Ok(())
              case Err(e) => State() == old(State()) && r == Err(e)
    {
      if occ !in occs || occs[occ].schedule !in schedules { return Err(NoRow); }
      var row := occs[occ];
      var s := schedules[row.schedule];
      occs := occs[occ := row.(status := Failed, finishedAt := Some(now))];
      var failures := 1;
      if s.lastRunAt.Some? && s.lastStatus == Some(Failed) {
        failures := s.consecutiveFailures + 1;
      }
      schedules := schedules[row.schedule :=
        s.(lastRunAt := Some(row.slot), lastStatus := Some(Failed), consecutiveFailures := failures)];
      r := Ok(());
    }

    method SyncOccurrenceWithRun(occ: Id, status: Journal.RunStatus, now: int) returns (r: Result<(), StoreError>)
      modifies this
      ensures match SyncWithRun(old(State()), occ, status, now)
              case Ok(t) => State() == t && r == Ok(())
              case Err(e) => State() == old(State()) && r == Err(e)
      ensures r.Ok? <==> occ in old(occs) && old(occs)[occ].schedule in old(schedules)
      ensures r.Ok? ==> occ in occs && old(occs)[occ].schedule in schedules
      ensures r.Ok? ==>
        && (occs[occ].status.Active? <==> status.Active? || status.Pending?)
        && (occs[occ].status.NeedsApproval? <==> status.NeedsApproval?)
        && (occs[occ].status.Completed? <==> status.Completed?)
        && (occs[occ].status.Interrupted? <==> status.Interrupted?)
        && (occs[occ].status.Failed? <==> status.Failed?)
      ensures r.Ok? && occs[occ].status != old(occs)[occ].status ==>
        var s, p := schedules[old(occs)[occ].schedule], old(schedules)[old(occs)[occ].schedule];
        && (status.Failed? ==>
              && s.lastStatus == Some(OccStatus.Failed)
              && s.consecutiveFailures ==
                 if p.lastRunAt.Some? && p.lastStatus == Some(OccStatus.Failed) then p.consecutiveFailures + 1 else 1)
        && (status.Completed? ==> s.lastStatus == Some(OccStatus.Completed) && s.consecutiveFailures == 0)
        && (status.Interrupted? ==> s.lastStatus == Some(OccStatus.Interrupted) && s.consecutiveFailures == 0)
    {
      SyncFollows(Tables(schedules, occs), occ, status, now);
      if occ !in occs || occs[occ].schedule !in schedules { return Err(NoRow); }
      var row := occs[occ];
      var s := schedules[row.schedule];
      var target := FromRun(status);
      r := Ok(());
      if target == row.status { return; }
      var finished := if target.Completed? || target.Failed? || target.Interrupted? then Some(now) else row.finishedAt;
      occs := occs[occ := row.(status := target, finishedAt := finished)];
      match target {
        case NeedsApproval => s := s.(lastRunAt := Some(row.slot), lastStatus := Some(target));
        case Completed => s := s.(lastRunAt := Some(row.slot), lastStatus := Some(target), consecutiveFailures := 0);
        case Interrupted => s := s.(lastRunAt := Some(row.slot), lastStatus := Some(target), consecutiveFailures := 0);
        case Failed =>
          var failures := 1;
          if s.lastRunAt.Some? && s.lastStatus == Some(Failed) {
            failures := s.consecutiveFailures + 1;
          }
          s := s.(lastRunAt := Some(row.slot), lastStatus := Some(target), consecutiveFailures := failures);
        case _ =>
      }
      schedules := schedules[row.schedule := s];
    }

    // `ORDER BY created_at, id`.
    method ListOpenOccurrences() returns (places: seq<Place>)
      ensures places == Ordering.Sorted(PlaceBefore, OpenPlaces(State()))
    {
      PlacesTotal();
      var open := set o | o in occs && occs[o].status.Open() :: Place(occs[o].createdAt, o);
      places := Ordering.List(PlaceBefore, open);
    }

    // `ORDER BY next_run_at, id LIMIT ?`.
    method ListDueSchedules(now: int, limit: int) returns (places: seq<Place>)
      ensures var all := Ordering.Sorted(PlaceBefore, DuePlaces(State(), now));
        var most := if limit <= 0 then 100 else limit;
        places == if |all| <= most then all else all[..most]
    {
      PlacesTotal();
      var due := set id | id in schedules && IsDue(schedules[id], now) :: Place(schedules[id].nextRunAt.value, id);
      var all := Ordering.List(PlaceBefore, due);
      var n := if limit <= 0 then 100 else limit;
      places := if |all| <= n then all else all[..n];
    }

    // Every enabled schedule without a next run gets one; the first that has none stops the repair.
    method RepairMissingNextRunAt(now: int) returns (r: Result<(), StoreError>)
      modifies this`schedules
      ensures r.Ok? ==> State() == Repaired(old(State()), now)
      ensures old(State()).schedules.Keys == schedules.Keys
    {
      var rest := MissingIds(Tables(schedules, occs));
      ghost var missing := rest;
      while rest != {}
        invariant rest <= missing == MissingIds(old(State()))
        invariant schedules.Keys == old(schedules).Keys
        invariant forall id :: id in schedules ==>
          schedules[id] == if id in missing - rest then Repaired(old(State()), now).schedules[id] else old(schedules)[id]
        decreases rest
      {
        var id :| id in rest;
        rest := rest - {id};
        var next := ComputeNextRun(schedules[id].spec, now);
        if next.Err? { return Err(BadSpec(next.error)); }
        schedules := schedules[id := schedules[id].(nextRunAt := next.value)];
      }
      r := Ok(());
    }
  }

  lemma PlacesTotal()
    ensures Ordering.StrictTotal(PlaceBefore)
  {
  }

  // A place in a listing: earlier times first, equal times by id.
  ghost predicate InOrder(places: seq<Place>) {
    forall i, j :: 0 <= i < j < |places| ==>
      places[i].at < places[j].at || (places[i].at == places[j].at && places[i].id < places[j].id)
  }

  lemma PlacesListed(places: set<Place>, p: Place)
    ensures var listed := (PlacesTotal(); Ordering.Sorted(PlaceBefore, places));
      InOrder(listed) && |listed| == |places| && (p in listed <==> p in places)
  {
    PlacesTotal();
    Ordering.SortedIsListing(PlaceBefore, places);
    var listed := Ordering.Sorted(PlaceBefore, places);
    assert p in listed <==> p in Ordering.Elements(listed);
    forall i, j | 0 <= i < j < |listed|
      ensures listed[i].at < listed[j].at || (listed[i].at == listed[j].at && listed[i].id < listed[j].id)
    {
      assert PlaceBefore(listed[i], listed[j]);
    }
  }

  // The open listing shows exactly the occurrences that are dispatching, active or waiting for approval, by
  // creation time and id.
  lemma ListsOpen(t: Tables, at: int, o: Id)
    ensures var listed := (PlacesTotal(); Ordering.Sorted(PlaceBefore, OpenPlaces(t)));
      && InOrder(listed)
      && (Place(at, o) in listed <==>
            && o in t.occs && t.occs[o].createdAt == at
            && (t.occs[o].status.Dispatching? || t.occs[o].status.Active? || t.occs[o].status.NeedsApproval?))
  {
    PlacesListed(OpenPlaces(t), Place(at, o));
  }

  // The due listing shows exactly the enabled schedules whose next run has come, by next run and id.
  lemma ListsDue(t: Tables, now: int, at: int, id: Id)
    ensures var listed := (PlacesTotal(); Ordering.Sorted(PlaceBefore, DuePlaces(t, now)));
      && InOrder(listed)
      && (Place(at, id) in listed <==>
            id in t.schedules && t.schedules[id].enabled && t.schedules[id].nextRunAt == Some(at) && at <= now)
  {
    PlacesListed(DuePlaces(t, now), Place(at, id));
  }

  // A repair gives the enabled schedules without a next run the one computed for now, and nothing else.
  lemma RepairsMissing(t: Tables, now: int)
    ensures var d := Repaired(t, now);
      && d.occs == t.occs && d.schedules.Keys == t.schedules.Keys
      && forall id :: id in t.schedules ==>
           var s, computed := t.schedules[id], ComputeNextRun(t.schedules[id].spec, now);
           d.schedules[id] == if s.enabled && s.nextRunAt.None? && computed.Ok? then s.(nextRunAt := computed.value) else s
  {
  }

  // What the repair leaves when no schedule is in error.
  function Repaired(t: Tables, now: int): Tables {
    t.(schedules := map id | id in t.schedules ::
      if MissingNext(t.schedules[id]) && ComputeNextRun(t.schedules[id].spec, now).Ok? then
        t.schedules[id].(nextRunAt := ComputeNextRun(t.schedules[id].spec, now).value)
      else
        t.schedules[id])
  }
}
