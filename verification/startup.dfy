/** Startup recovery: interrupted runs first, then the scheduler's occurrences, before anything else runs. */
module Startup {
  import opened Basics
  import opened Slots
  import opened SchedulerStore
  import opened SchedulerWorld
  import opened SchedulerService
  import SchedulerExactlyOnce
  import J = Journal

  predicate Live(run: J.Run) {
    run.status.Active? || run.status.Pending?
  }

  function LiveRuns(db: J.Db): set<Id> {
    set r | r in db.runs && Live(db.runs[r])
  }

  // Every run that was live when the process died, interrupted.
  function InterruptLive(runs: map<Id, J.Run>): map<Id, J.Run> {
    map r | r in runs :: if Live(runs[r]) then runs[r].(status := J.Interrupted) else runs[r]
  }

  lemma InterruptOne(db: J.Db, e: J.Event)
    requires e.payload.RunInterrupted? && e.run in db.runs && !J.HasEvent(db.events, e.id)
    ensures J.Append(db, [e])
         == Ok(db.(events := db.events + [e], runs := db.runs[e.run := db.runs[e.run].(status := J.Interrupted)]))
  {
    J.AppendSingle(db, e);
  }

  method ReconcileInterrupted(journal: J.ConversationStore, ids: seq<Id>) returns (count: nat)
    requires |ids| >= |LiveRuns(journal.db)|
    requires forall i, j :: 0 <= i < j < |ids| ==> ids[i] != ids[j]
    requires forall i :: 0 <= i < |ids| ==> !J.HasEvent(journal.db.events, ids[i])
    modifies journal
    ensures journal.db.runs.Keys == old(journal.db.runs).Keys
    ensures forall r :: r in journal.db.runs ==>
      var was := old(journal.db.runs)[r];
      journal.db.runs[r] == if was.status.Active? || was.status.Pending? then was.(status := J.Interrupted) else was
    ensures journal.db.inbound == old(journal.db.inbound)
    ensures count == |set r | r in old(journal.db.runs)
                              && (old(journal.db.runs)[r].status.Active? || old(journal.db.runs)[r].status.Pending?)|
  {
    var rest := LiveRuns(journal.db);
    ghost var live := rest;
    assert live == set r | r in journal.db.runs && (journal.db.runs[r].status.Active? || journal.db.runs[r].status.Pending?);
    ghost var was := journal.db;
    count := 0;
    while rest != {}
      invariant rest <= live
      invariant count + |rest| == |live|
      invariant journal.db.inbound == was.inbound
      invariant journal.db.runs.Keys == was.runs.Keys
      invariant forall r :: r in was.runs ==>
        journal.db.runs[r] == if r in live - rest then InterruptLive(was.runs)[r] else was.runs[r]
      invariant forall i :: count <= i < |ids| ==> !J.HasEvent(journal.db.events, ids[i])
      decreases rest
    {
      var r :| r in rest;
      var e := J.Event(ids[count], journal.db.runs[r].conversation, r, None, J.RunInterrupted);
      InterruptOne(journal.db, e);
      var appended := journal.AppendEvents([e]);
      rest := rest - {r};
      count := count + 1;
    }
  }

  lemma InterruptKeepsSound(t: Tables, j: J.Db, d: J.Db)
    requires Sound(t, j) && d.runs.Keys == j.runs.Keys && d.inbound == j.inbound
    ensures Sound(t, d)
  {
    forall o | o in t.occs ensures SoundRow(t, d, o) { assert SoundRow(t, j, o); }
  }

  // An open occurrence that startup leaves as it is: it waits on a run that waits for approval, or its
  // dispatch is young and has no receipt.
  ghost predicate Accounted(t: Tables, j: J.Db, o: Id, now: int, grace: nat)
    requires o in t.occs
  {
    var row := t.occs[o];
    || (row.status.NeedsApproval? && row.runId.Some? && row.runId.value in j.runs
        && j.runs[row.runId.value].status.NeedsApproval?)
    || (row.status.Dispatching? && ReceiptRun(j.inbound, row.Thread(), o).None? && now - grace <= row.createdAt)
  }

  lemma OpenAccounted(t: Tables, j: J.Db, now: int, grace: nat)
    requires Sound(t, j) && forall o :: o in t.occs ==> Reconciled(t, j, o, now, grace)
    requires forall r :: r in j.runs ==> !j.runs[r].status.Active? && !j.runs[r].status.Pending?
    ensures forall o :: o in t.occs && t.occs[o].status.Open() ==> Accounted(t, j, o, now, grace)
  {
    forall o | o in t.occs && t.occs[o].status.Open() ensures Accounted(t, j, o, now, grace) {
      assert Reconciled(t, j, o, now, grace) && SoundRow(t, j, o);
    }
  }

  class App {
    const scheduler: Service
    const journal: J.ConversationStore
    var prepared: bool

    constructor (scheduler: Service)
      ensures this.scheduler == scheduler && this.journal == scheduler.journal && !prepared
    {
      this.scheduler, this.journal, this.prepared := scheduler, scheduler.journal, false;
    }

    // The sweep of stale approvals between the two steps touches neither runs nor occurrences.
    method Prepare(now: int, ids: seq<Id>) returns (r: Result<(), StoreError>)
      requires journal == scheduler.journal && Sound(scheduler.store.State(), journal.db)
      requires |ids| >= |LiveRuns(journal.db)|
      requires forall i, j :: 0 <= i < j < |ids| ==> ids[i] != ids[j]
      requires forall i :: 0 <= i < |ids| ==> !J.HasEvent(journal.db.events, ids[i])
      modifies this, journal, scheduler.store
      ensures old(prepared) ==> journal.db == old(journal.db) && scheduler.store.State() == old(scheduler.store.State())
      ensures !old(prepared) && r.Ok? ==>
        && prepared
        && journal.db.runs.Keys == old(journal.db.runs).Keys
        && (forall run :: run in journal.db.runs ==>
              var was := old(journal.db.runs)[run];
              journal.db.runs[run] == if was.status.Active? || was.status.Pending? then was.(status := J.Interrupted) else was)
        && (forall run :: run in journal.db.runs ==>
              !journal.db.runs[run].status.Active? && !journal.db.runs[run].status.Pending?)
        && (forall o :: o in scheduler.store.occs && scheduler.store.occs[o].status.Open() ==>
              Accounted(scheduler.store.State(), journal.db, o, now, scheduler.grace))
    {
      if prepared { return Ok(()); }
      ghost var before := journal.db;
      ghost var tables := scheduler.store.State();
      var count := ReconcileInterrupted(journal, ids);
      InterruptKeepsSound(tables, before, journal.db);
      r := scheduler.Repair(now);
      if r.Err? { return r; }
      OpenAccounted(scheduler.store.State(), journal.db, now, scheduler.grace);
      prepared := true;
    }
  }

  // Startup may rely on sound tables after any crash of any run.
  lemma EveryCrashIsSound(w: World, steps: seq<Step>, last: World)
    requires Initial(w) && IsRun(w, steps, last)
    ensures Sound(last.tables, last.journal)
  {
    assert Linked(w);
    SchedulerExactlyOnce.RunLinked(w, steps, last);
    LinkedIsSound(last);
  }
}
