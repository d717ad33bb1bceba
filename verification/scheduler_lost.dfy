/**
 When a committed dispatch is marked failed without its run: the occurrence's receipt is in the journal,
 yet its row says failed and names no run. A dispatcher may answer at any time after the claim, so the
 scheduler can give an occurrence up while its call is still under way.
 */
module SchedulerLost {
  import opened Basics
  import opened Slots
  import opened SchedulerStore
  import opened SchedulerWorld
  import opened SchedulerExactlyOnce
  import opened SchedulerOverlap
  import opened SchedulerCrowding
  import J = Journal
  import Inbound

  predicate GivenUp(row: Occurrence) {
    row.status.Failed? && row.runId.None?
  }

  predicate Lost(w: World, o: Id)
    requires o in w.tables.occs
  {
    GivenUp(w.tables.occs[o]) && ReceiptOf(w, o).Some?
  }

  function LostOnes(w: World): set<Id> {
    set o | o in w.tables.occs && Lost(w, o)
  }

  // Before the step: its batch is going to commit.
  predicate Commits(w: World, s: Step)
    requires s.Deliver? && Inbound.FreshFor(w.journal, s.plan)
  {
    !s.refused && Inbound.Outcome(w.journal, s.plan).Ok?
  }

  // Before the step: the occurrence it is going to lose. A call commits for a row that has been given up, or
  // a decision to give up is carried out on a row that has got a receipt since, and no run.
  ghost function Loses(w: World, s: Step): set<Id>
    requires Enabled(w, s)
  {
    if s.Deliver? then
      var o := AgentOf(w, s.agent).doing.value.occ;
      if GivenUp(w.tables.occs[o]) && Commits(w, s) then {o} else {}
    else if s.TakeFail? then
      var o := AgentOf(w, s.agent).doing.value.occ;
      if Loads(w.tables, o) && w.tables.occs[o].runId.None? && ReceiptOf(w, o).Some? then {o} else {}
    else {}
  }

  // Before the step: the occurrence that is going to get its run.
  ghost function Mends(w: World, s: Step): set<Id>
    requires Enabled(w, s)
  {
    if s.TakeAccept? then {AgentOf(w, s.agent).doing.value.occ} else {}
  }

  /// What a step does to rows and receipts

  predicate Claims(s: Step) { s.ClaimDue? || s.RunNow? }
  predicate Takes(s: Step) { s.TakeAccept? || s.TakeSync? || s.TakeFail? }
  predicate Edits(s: Step) { s.CreateSchedule? || s.LoadRow? || s.WriteRow? }

  lemma RowsStay(w: World, s: Step)
    requires Enabled(w, s)
    ensures var d := Next(w, s);
      && (forall p :: p in w.tables.occs ==> p in d.tables.occs && SameSlot(d.tables.occs[p], w.tables.occs[p]))
      && (forall p :: p in w.tables.occs && p !in Written(w, s) ==> d.tables.occs[p] == w.tables.occs[p])
      && (forall p :: p in d.tables.occs ==> p in w.tables.occs || (Claims(s) && p == s.occ))
  {
    if Claims(s) {
      ClaimOpensIff(w, s);
    } else if Takes(s) {
      TookRows(w, s);
    } else if Edits(s) {
      EditRows(w, s);
    } else {
      SilentFrame(w, s);
    }
  }

  // The journal, the calls and the grace period.
  predicate SameCalls(w: World, d: World) {
    d.journal == w.journal && d.dispatched == w.dispatched && d.grace == w.grace
  }

  lemma ClaimCalls(w: World, s: Step)
    requires Enabled(w, s) && Claims(s)
    ensures SameCalls(w, Next(w, s)) && Next(w, s).clock == w.clock
  {
  }

  lemma TakeCalls(w: World, s: Step)
    requires Enabled(w, s) && Takes(s)
    ensures SameCalls(w, Next(w, s))
  {
  }

  lemma EditCalls(w: World, s: Step)
    requires Enabled(w, s) && Edits(s)
    ensures SameCalls(w, Next(w, s))
  {
  }

  lemma SilentCalls(w: World, s: Step)
    requires Enabled(w, s) && Silent(s) && !s.Deliver? && !s.Journal?
    ensures SameCalls(w, Next(w, s))
  {
    if s.Examine? { ExaminedTouches(w, s.agent, s.now); }
  }

  lemma CallsStay(w: World, s: Step)
    requires Enabled(w, s) && !s.Deliver? && !s.Journal?
    ensures SameCalls(w, Next(w, s))
  {
    if Claims(s) {
      ClaimCalls(w, s);
    } else if Takes(s) {
      TakeCalls(w, s);
    } else if Edits(s) {
      EditCalls(w, s);
    } else {
      SilentCalls(w, s);
    }
  }

  lemma DeliverCommitsIff(w: World, s: Step)
    requires Linked(w) && Enabled(w, s) && s.Deliver?
    ensures Inbound.Receive(w.journal, s.plan, s.refused).1.Started? <==> Commits(w, s)
  {
    var o := AgentOf(w, s.agent).doing.value.occ;
    assert AgentOk(w, w.agents[s.agent]) && TokenOk(w, Dispatch(o));
    DeliverReply(w, s.plan, s.refused, o);
    Inbound.BatchOutcome(w.journal, s.plan);
  }

  lemma DeliverLeaves(w: World, s: Step)
    requires Enabled(w, s) && s.Deliver?
    ensures var d := Next(w, s);
      && d.tables == w.tables && d.grace == w.grace && d.clock == w.clock
      && d.journal == Inbound.Receive(w.journal, s.plan, s.refused).0
      && d.dispatched == w.dispatched + [AgentOf(w, s.agent).doing.value.occ]
  {
  }

  lemma DeliverReceipts(w: World, s: Step, p: Id)
    requires Linked(w) && Enabled(w, s) && s.Deliver? && p in w.tables.occs
    ensures p in Next(w, s).tables.occs
    ensures ReceiptOf(Next(w, s), p) ==
      if p == AgentOf(w, s.agent).doing.value.occ && Commits(w, s) then Some(s.plan.run) else ReceiptOf(w, p)
  {
    var o := AgentOf(w, s.agent).doing.value.occ;
    DeliverLeaves(w, s);
    DeliverCommitsIff(w, s);
    DeliverCalls(w, s.agent, s.plan, s.refused, s.lateError);
    assert AgentOk(w, w.agents[s.agent]) && TokenOk(w, Dispatch(o));
    var c := Do(w, s.agent, None);
    var d := c.(journal := Next(w, s).journal, dispatched := w.dispatched + [o]);
    CalledReceipts(c, o, d, if Commits(w, s) then Some(s.plan.run) else None);
    assert ReceiptOf(c, p) == ReceiptOf(w, p) && ReceiptOf(d, p) == ReceiptOf(Next(w, s), p);
  }

  // A receipt comes with the call of its occurrence that commits, and never goes.
  lemma ReceiptsStay(w: World, s: Step, p: Id)
    requires Linked(w) && Enabled(w, s) && p in w.tables.occs
    ensures p in Next(w, s).tables.occs
    ensures ReceiptOf(Next(w, s), p) ==
      if s.Deliver? && p == AgentOf(w, s.agent).doing.value.occ && Commits(w, s) then Some(s.plan.run)
      else ReceiptOf(w, p)
  {
    RowsStay(w, s);
    if s.Deliver? {
      DeliverReceipts(w, s, p);
    } else if s.Journal? {
      CommitAddsOthers(w.journal, s.batch);
      ReceiptRunGrows(w.journal.inbound, Next(w, s).journal.inbound, w.tables.occs[p].Thread(), p);
    } else {
      CallsStay(w, s);
    }
  }

  /// Exactly when an occurrence is lost

  lemma AcceptTakes(w: World, s: Step)
    requires Enabled(w, s) && s.TakeAccept?
    ensures var o := AgentOf(w, s.agent).doing.value.occ;
      o in w.tables.occs ==> o in Next(w, s).tables.occs && Next(w, s).tables.occs[o].runId.Some?
  {
  }

  lemma FailTakes(w: World, s: Step)
    requires Enabled(w, s) && s.TakeFail?
    ensures var o := AgentOf(w, s.agent).doing.value.occ;
      Loads(w.tables, o) ==>
        && o in Next(w, s).tables.occs
        && Next(w, s).tables.occs[o].status.Failed? && Next(w, s).tables.occs[o].runId == w.tables.occs[o].runId
  {
    var o := AgentOf(w, s.agent).doing.value.occ;
    if Loads(w.tables, o) { ReachFrame(w.tables, o, Failed, s.now); }
  }

  lemma SyncTakes(w: World, s: Step)
    requires Enabled(w, s) && s.TakeSync?
    ensures var o := AgentOf(w, s.agent).doing.value.occ;
      o in w.tables.occs ==> o in Next(w, s).tables.occs && Next(w, s).tables.occs[o].runId == w.tables.occs[o].runId
  {
    var tok := AgentOf(w, s.agent).doing.value;
    if Loads(w.tables, tok.occ) { ReachFrame(w.tables, tok.occ, FromRun(tok.status), s.now); }
  }

  lemma TakenLostIff(w: World, s: Step)
    requires Linked(w) && Enabled(w, s) && Takes(s)
    ensures var o := AgentOf(w, s.agent).doing.value.occ;
      && o in w.tables.occs && o in Next(w, s).tables.occs
      && (Lost(Next(w, s), o) <==> (Lost(w, o) && o !in Mends(w, s)) || o in Loses(w, s))
  {
    var tok := AgentOf(w, s.agent).doing.value;
    assert AgentOk(w, w.agents[s.agent]) && TokenOk(w, tok) && RowOk(w, tok.occ);
    ReceiptsStay(w, s, tok.occ);
    if s.TakeAccept? {
      AcceptTakes(w, s);
    } else if s.TakeSync? {
      SyncTakes(w, s);
    } else {
      FailTakes(w, s);
    }
  }

  lemma CalledLostIff(w: World, s: Step, p: Id)
    requires Linked(w) && Enabled(w, s) && s.Deliver? && p in w.tables.occs
    ensures p in Next(w, s).tables.occs && (Lost(Next(w, s), p) <==> Lost(w, p) || p in Loses(w, s))
  {
    DeliverLeaves(w, s);
    DeliverReceipts(w, s, p);
    assert AgentOk(w, w.agents[s.agent]) && TokenOk(w, AgentOf(w, s.agent).doing.value);
  }

  lemma UntouchedLostIff(w: World, s: Step, p: Id)
    requires Linked(w) && Enabled(w, s) && p in w.tables.occs && !s.Deliver? && p !in Written(w, s)
    ensures p in Next(w, s).tables.occs && (Lost(Next(w, s), p) <==> Lost(w, p))
  {
    RowsStay(w, s);
    ReceiptsStay(w, s, p);
  }

  lemma KnownLostIff(w: World, s: Step, p: Id)
    requires Linked(w) && Enabled(w, s) && p in w.tables.occs
    ensures p in Next(w, s).tables.occs
    ensures Lost(Next(w, s), p) <==> (Lost(w, p) && p !in Mends(w, s)) || p in Loses(w, s)
  {
    if p in Written(w, s) {
      TakenLostIff(w, s);
    } else if s.Deliver? {
      CalledLostIff(w, s, p);
    } else {
      UntouchedLostIff(w, s, p);
    }
  }

  lemma NewNotLost(w: World, s: Step)
    requires Linked(w) && Enabled(w, s) && Claims(s) && s.occ in Next(w, s).tables.occs
    ensures !Lost(Next(w, s), s.occ)
  {
    ClaimCalls(w, s);
    NoReceiptYet(w, s.occ, Next(w, s).tables.occs[s.occ].Thread());
  }

  lemma LosesKnown(w: World, s: Step)
    requires Linked(w) && Enabled(w, s)
    ensures Loses(w, s) <= w.tables.occs.Keys
  {
  }

  // What a step leaves lost, whatever has happened before: what was, unless it gets its run, and what the
  // step itself loses.
  lemma StepLost(w: World, s: Step)
    requires Linked(w) && Enabled(w, s)
    ensures LostOnes(Next(w, s)) == (LostOnes(w) - Mends(w, s)) + Loses(w, s)
  {
    var d := Next(w, s);
    RowsStay(w, s);
    LosesKnown(w, s);
    forall p ensures p in LostOnes(d) <==> p in (LostOnes(w) - Mends(w, s)) + Loses(w, s) {
      if p in w.tables.occs {
        KnownLostIff(w, s, p);
      } else if p in d.tables.occs {
        NewNotLost(w, s);
      }
    }
  }

  ghost predicate NeverLost(w: World, steps: seq<Step>)
    decreases |steps|
  {
    LostOnes(w) == {} && (steps != [] && Enabled(w, steps[0]) ==> NeverLost(Next(w, steps[0]), steps[1..]))
  }

  ghost predicate NoneLoses(w: World, steps: seq<Step>)
    decreases |steps|
  {
    steps != [] && Enabled(w, steps[0]) ==> Loses(w, steps[0]) == {} && NoneLoses(Next(w, steps[0]), steps[1..])
  }

  lemma {:induction false} LostIff(w: World, steps: seq<Step>, last: World)
    requires Linked(w) && LostOnes(w) == {} && IsRun(w, steps, last)
    ensures NeverLost(w, steps) <==> NoneLoses(w, steps)
    decreases |steps|
  {
    if steps != [] {
      StepLost(w, steps[0]);
      StepLinked(w, steps[0]);
      if Loses(w, steps[0]) == {} { LostIff(Next(w, steps[0]), steps[1..], last); }
    }
  }

  // Over every run from an empty database: no committed dispatch is ever marked failed without its run if
  // and only if no call commits for a row that has been given up, and no decision to give up is carried out
  // on a row that has a receipt and no run.
  lemma RunLostIff(w: World, steps: seq<Step>, last: World)
    requires Initial(w) && IsRun(w, steps, last)
    ensures NeverLost(w, steps) <==> NoneLoses(w, steps)
  {
    assert Linked(w);
    LostIff(w, steps, last);
  }

  /// What a step does to its agent

  function Actor(s: Step): Option<Id> {
    match s
    case ClaimDue(a, _, _, _) => Some(a)
    case RunNow(a, _, _, _) => Some(a)
    case Deliver(a, _, _, _) => Some(a)
    case Lookup(a) => Some(a)
    case TakeAccept(a, _) => Some(a)
    case TakeSync(a, _) => Some(a)
    case TakeFail(a, _) => Some(a)
    case ListOpen(a, _) => Some(a)
    case Examine(a, _) => Some(a)
    case Abandon(a) => Some(a)
    case _ => None
  }

  // The other agents are as they were.
  ghost predicate OthersSame(w: World, d: World, actor: Option<Id>) {
    forall b :: b in d.agents && actor != Some(b) ==> b in w.agents && d.agents[b] == w.agents[b]
  }

  lemma ClaimOthers(w: World, s: Step)
    requires Enabled(w, s) && Claims(s)
    ensures OthersSame(w, Next(w, s), Actor(s))
  {
  }

  lemma TakeOthers(w: World, s: Step)
    requires Enabled(w, s) && Takes(s)
    ensures OthersSame(w, Next(w, s), Actor(s))
  {
  }

  lemma ExaminedOthers(w: World, a: Id, now: int)
    requires AgentOf(w, a).queue != []
    ensures OthersSame(w, Examined(w, a, now), Some(a))
  {
  }

  lemma SilentOthers(w: World, s: Step)
    requires Enabled(w, s) && Silent(s)
    ensures OthersSame(w, Next(w, s), Actor(s))
  {
    if s.Examine? { ExaminedOthers(w, s.agent, s.now); }
  }

  lemma EditOthers(w: World, s: Step)
    requires Enabled(w, s) && Edits(s)
    ensures Next(w, s).agents == w.agents
  {
  }

  lemma OthersStay(w: World, s: Step)
    requires Enabled(w, s)
    ensures OthersSame(w, Next(w, s), Actor(s))
  {
    if Claims(s) {
      ClaimOthers(w, s);
    } else if Takes(s) {
      TakeOthers(w, s);
    } else if Edits(s) {
      EditOthers(w, s);
    } else {
      SilentOthers(w, s);
    }
  }

  // What an agent goes on with: after a claim its new row, in a listing the row at the head, else the
  // occurrence it had in hand.
  ghost predicate GoesOn(w: World, s: Step, agent: Agent)
    requires Actor(s).Some?
  {
    var was := AgentOf(w, Actor(s).value);
    && (agent.doing.Some? ==>
          if Claims(s) then agent.doing == Some(Dispatch(s.occ)) && ClaimedRow(w, s)
          else if s.Examine? then was.queue != [] && Picks(w, s, agent.doing.value, was.queue[0])
          else was.doing.Some? && Pursues(w, s, agent.doing.value, was.doing.value))
    && (agent.queue == was.queue || agent.queue == [] || (s.ListOpen? && agent.queue == s.listed)
        || (s.Examine? && was.queue != [] && agent.queue == was.queue[1..]))
  }

  ghost predicate ClaimedRow(w: World, s: Step)
    requires Claims(s)
  {
    Enabled(w, s) && s.occ in Next(w, s).tables.occs && Next(w, s).tables.occs[s.occ].status == Dispatching
  }

  // The head of the listing is given up only if it is old and has no receipt.
  ghost predicate Picks(w: World, s: Step, tok: Token, head: Listed)
    requires s.Examine?
  {
    && tok.occ == head.id && !tok.Dispatch?
    && (tok.Fail? ==> ReceiptRun(w.journal.inbound, head.row.Thread(), head.id).None?
                      && head.row.createdAt + w.grace < s.now)
  }

  // An occurrence in hand is given up only after a call that failed, and when it has no receipt.
  ghost predicate Pursues(w: World, s: Step, tok: Token, was: Token) {
    && tok.occ == was.occ && !tok.Dispatch? && !was.Fail?
    && (tok.Fail? ==> was.Recover? && was.occ in w.tables.occs && ReceiptOf(w, was.occ).None?)
  }

  lemma ClaimGoesOn(w: World, s: Step)
    requires Enabled(w, s) && Claims(s)
    ensures GoesOn(w, s, AgentOf(Next(w, s), s.agent))
  {
  }

  lemma TakeGoesOn(w: World, s: Step)
    requires Enabled(w, s) && Takes(s)
    ensures GoesOn(w, s, AgentOf(Next(w, s), s.agent))
  {
  }

  lemma CallGoesOn(w: World, s: Step)
    requires Enabled(w, s) && (s.Deliver? || s.Lookup?)
    ensures GoesOn(w, s, AgentOf(Next(w, s), s.agent))
  {
  }

  lemma ExamineGoesOn(w: World, s: Step)
    requires Enabled(w, s) && s.Examine?
    ensures GoesOn(w, s, AgentOf(Next(w, s), s.agent))
  {
    assert Next(w, s) == Examined(w, s.agent, s.now);
  }

  lemma ActorGoesOn(w: World, s: Step)
    requires Enabled(w, s) && Actor(s).Some?
    ensures GoesOn(w, s, AgentOf(Next(w, s), Actor(s).value))
  {
    if Claims(s) {
      ClaimGoesOn(w, s);
    } else if Takes(s) {
      TakeGoesOn(w, s);
    } else if s.Deliver? || s.Lookup? {
      CallGoesOn(w, s);
    } else if s.Examine? {
      ExamineGoesOn(w, s);
    }
  }

  /// For good

  // Nobody has the occurrence in hand, except to give it up, or in a listing.
  ghost predicate Unattended(w: World, o: Id) {
    forall a :: a in w.agents ==> LetsGo(w.agents[a], o)
  }

  ghost predicate LetsGo(agent: Agent, o: Id) {
    && (agent.doing.Some? && agent.doing.value.occ == o ==> agent.doing.value.Fail?)
    && forall i :: 0 <= i < |agent.queue| ==> agent.queue[i].id != o
  }

  lemma ActorLetsGo(w: World, s: Step, o: Id, agent: Agent)
    requires Enabled(w, s) && Actor(s).Some? && GoesOn(w, s, agent)
    requires o in w.tables.occs && !w.tables.occs[o].status.Open() && LetsGo(AgentOf(w, Actor(s).value), o)
    ensures LetsGo(agent, o)
  {
  }

  // An occurrence that is lost and that nobody attends to is never listed again, and stays lost for good.
  lemma LostStays(w: World, s: Step, o: Id)
    requires Linked(w) && Enabled(w, s) && o in LostOnes(w) && Unattended(w, o)
    ensures o in LostOnes(Next(w, s)) && Unattended(Next(w, s), o)
  {
    var d := Next(w, s);
    if s.TakeAccept? { assert LetsGo(w.agents[s.agent], o); }
    StepLost(w, s);
    OthersStay(w, s);
    forall a | a in d.agents ensures LetsGo(d.agents[a], o) {
      if Actor(s) == Some(a) {
        ActorGoesOn(w, s);
        assert a in w.agents ==> LetsGo(w.agents[a], o);
        ActorLetsGo(w, s, o, d.agents[a]);
      } else {
        assert LetsGo(w.agents[a], o);
      }
    }
  }

  lemma {:induction false} LostForGood(w: World, o: Id, steps: seq<Step>, last: World)
    requires Linked(w) && o in LostOnes(w) && Unattended(w, o) && IsRun(w, steps, last)
    ensures o in LostOnes(last)
    decreases |steps|
  {
    if steps != [] {
      LostStays(w, steps[0], o);
      StepLinked(w, steps[0]);
      LostForGood(Next(w, steps[0]), o, steps[1..], last);
    }
  }
}
