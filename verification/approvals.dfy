/**
 Approval tickets: racing resolvers that read and then compare-and-set, the expiry sweep, and the gated
 tool invocation that follows an approval.
 */
module Approvals {
  import opened Basics

  const DAY := 24 * 3600 * 1_000_000_000

  datatype Status = Pending | Approved | Denied | Expired

  // `fingerprint` stands for the hash of tool, arguments and binding taken when the ticket is created.
  datatype Ticket = Ticket(run: Id, tool: string, args: string, fingerprint: string, status: Status, createdAt: int)

  datatype Error = InvalidDecision | NoTicket | TicketExpired

  type Tickets = map<Id, Ticket>

  function Decision(text: string): Option<Status> {
    if text == "approved" then Some(Approved) else if text == "denied" then Some(Denied) else None
  }

  // One statement: the status changes only if it is still pending when the statement runs.
  function Swapped(tickets: Tickets, id: Id, status: Status): Tickets {
    if id in tickets && tickets[id].status == Pending then tickets[id := tickets[id].(status := status)] else tickets
  }

  predicate Stale(t: Ticket, now: int, waiting: set<Id>) {
    t.status == Pending && (t.createdAt < now - DAY || t.run !in waiting)
  }

  // `waiting` are the runs that need an approval.
  function Swept(tickets: Tickets, now: int, waiting: set<Id>): Tickets {
    map id | id in tickets :: if Stale(tickets[id], now, waiting) then tickets[id].(status := Expired) else tickets[id]
  }

  predicate Verified(tickets: Tickets, id: Id, fingerprint: string) {
    id in tickets && tickets[id].status == Approved && tickets[id].fingerprint == fingerprint
  }

  class ApprovalTable {
    var tickets: Tickets

    method CreateTicket(id: Id, run: Id, tool: string, args: string, fingerprint: string, now: int) returns (t: Ticket)
      requires id !in tickets
      modifies this
      ensures t == Ticket(run, tool, args, fingerprint, Pending, now)
      ensures tickets == old(tickets)[id := t]
    {
      t := Ticket(run, tool, args, fingerprint, Pending, now);
      tickets := tickets[id := t];
    }

    // `meanwhile` is the table as other resolvers and the sweep leave it between the read and the update.
    method ResolveTicket(id: Id, decision: string, meanwhile: Tickets) returns (r: Result<Status, Error>)
      modifies this
      ensures decision !in {"approved", "denied"} ==> r == Err(InvalidDecision) && tickets == old(tickets)
      ensures decision in {"approved", "denied"} && id !in old(tickets) ==> r == Err(NoTicket) && tickets == old(tickets)
      ensures decision in {"approved", "denied"} && id in old(tickets) && old(tickets)[id].status != Pending ==>
        r == Err(TicketExpired) && tickets == old(tickets)
      ensures decision in {"approved", "denied"} && id in old(tickets) && old(tickets)[id].status == Pending ==>
        if id in meanwhile && meanwhile[id].status == Pending then
          && r == Ok(if decision == "approved" then Approved else Denied)
          && tickets == meanwhile[id := meanwhile[id].(status := r.value)]
        else
          r == Err(TicketExpired) && tickets == meanwhile
    {
      if decision != "approved" && decision != "denied" { return Err(InvalidDecision); }
      if id !in tickets { return Err(NoTicket); }
      if tickets[id].status != Pending { return Err(TicketExpired); }
      tickets := meanwhile;
      var before := tickets;
      var status := if decision == "approved" then Approved else Denied;
      tickets := Swapped(tickets, id, status);
      if id !in before || before[id].status != Pending { return Err(TicketExpired); }
      return Ok(status);
    }

    method ExpireStaleApprovals(now: int, waiting: set<Id>) returns (n: nat)
      modifies this
      ensures tickets.Keys == old(tickets).Keys
      ensures forall id :: id in tickets ==>
        var t := old(tickets)[id];
        tickets[id] == if t.status == Pending && (t.createdAt < now - DAY || t.run !in waiting) then t.(status := Expired) else t
      ensures n == |set id | id in old(tickets) && old(tickets)[id].status != tickets[id].status|
    {
      var stale := set id | id in tickets && Stale(tickets[id], now, waiting);
      n := |stale|;
      tickets := Swept(tickets, now, waiting);
      assert stale == set id | id in old(tickets) && old(tickets)[id].status != tickets[id].status;
    }
  }

  /// Many resolvers at once

  // How far a resolver is: it has loaded the ticket, seen it pending, won the update, found the run and
  // resumed it, or invoked the tool.
  datatype Phase = Loaded | Seen | Won | Resumed | Invoked

  datatype Resolver = Resolver(ticket: Id, copy: Ticket, decision: Status, phase: Phase)

  // History: how tickets left pending (at which step, by which resolver or by the sweep), and what was
  // invoked on behalf of which ticket by which resolver.
  datatype Exit = Exit(ticket: Id, to: Status, who: Option<Id>, step: nat)

  datatype Call = Call(ticket: Id, tool: string, args: string, who: Id, step: nat)

  datatype World = World(
    tickets: Tickets, waiting: set<Id>, threads: map<Id, Resolver>, used: set<Id>,
    exits: set<Exit>, calls: set<Call>, step: nat)

  datatype Event =
    | Create(id: Id, ticket: Ticket)
    | Begin(who: Id, ticketId: Id, decision: string)
    | Look(who: Id)
    | Swap(who: Id)
    | Resume(who: Id, hasRun: bool)
    | Invoke(who: Id, registered: bool)
    | Finish(who: Id)
    | Crash
    | Sweep(now: int)
    | Runs(waiting: set<Id>)

  predicate Enabled(w: World, e: Event) {
    match e
    case Create(id, t) => id !in w.tickets && t.status == Pending
    case Begin(who, _, _) => who !in w.used
    case Look(who) => who in w.threads && w.threads[who].phase == Loaded
    case Swap(who) => who in w.threads && w.threads[who].phase == Seen
    case Resume(who, _) => who in w.threads && w.threads[who].phase == Won
    case Invoke(who, _) => who in w.threads && w.threads[who].phase == Resumed
    case Finish(who) => who in w.threads
    case Crash => true
    case Sweep(_) => true
    case Runs(_) => true
  }

  function Moved(w: World, who: Id, phase: Phase): map<Id, Resolver>
    requires who in w.threads
  {
    w.threads[who := w.threads[who].(phase := phase)]
  }

  function Next(w: World, e: Event): World
    requires Enabled(w, e)
  {
    var w := w.(step := w.step + 1);
    match e
    case Create(id, t) => w.(tickets := w.tickets[id := t])
    case Begin(who, id, text) =>
      if Decision(text).None? || id !in w.tickets then w.(used := w.used + {who})
      else w.(used := w.used + {who}, threads := w.threads[who := Resolver(id, w.tickets[id], Decision(text).value, Loaded)])
    case Look(who) =>
      var t := w.threads[who].ticket;
      if t in w.tickets && w.tickets[t].status == Pending then w.(threads := Moved(w, who, Seen))
      else w.(threads := w.threads - {who})
    case Swap(who) =>
      var r := w.threads[who];
      if r.ticket in w.tickets && w.tickets[r.ticket].status == Pending then
        w.(tickets := Swapped(w.tickets, r.ticket, r.decision), threads := Moved(w, who, Won),
           exits := w.exits + {Exit(r.ticket, r.decision, Some(who), w.step)})
      else w.(threads := w.threads - {who})
    case Resume(who, hasRun) => if hasRun then w.(threads := Moved(w, who, Resumed)) else w.(threads := w.threads - {who})
    case Invoke(who, registered) =>
      var r := w.threads[who];
      if r.decision == Approved && registered then
        w.(threads := Moved(w, who, Invoked), calls := w.calls + {Call(r.ticket, r.copy.tool, r.copy.args, who, w.step)})
      else w.(threads := Moved(w, who, Invoked))
    case Finish(who) => w.(threads := w.threads - {who})
    case Crash => w.(threads := map[])
    case Sweep(now) =>
      w.(tickets := Swept(w.tickets, now, w.waiting),
         exits := w.exits + set id | id in w.tickets && Stale(w.tickets[id], now, w.waiting) :: Exit(id, Expired, None, w.step))
    case Runs(waiting) => w.(waiting := waiting)
  }

  ghost predicate Reaches(w: World, events: seq<Event>, last: World)
    decreases |events|
  {
    if events == [] then last == w
    else Enabled(w, events[0]) && Reaches(Next(w, events[0]), events[1..], last)
  }

  const EMPTY := World(map[], {}, map[], {}, {}, {}, 0)

  /// Invariants

  // A ticket leaves pending at most once, and then has the status it left for.
  ghost predicate ExitsOnce(w: World) {
    && (forall e :: e in w.exits ==> e.ticket in w.tickets && e.to != Pending && w.tickets[e.ticket].status == e.to)
    && (forall e, f :: e in w.exits && f in w.exits && e.ticket == f.ticket ==> e == f)
    && (forall id :: id in w.tickets && w.tickets[id].status != Pending ==> exists e :: e in w.exits && e.ticket == id)
  }

  ghost predicate Passed(w: World, who: Id, ticket: Id, to: Status) {
    exists e :: e in w.exits && e.ticket == ticket && e.to == to && e.who == Some(who)
  }

  // A resolver works on an honest copy of its ticket, and has won exactly when it says so.
  ghost predicate Honest(w: World) {
    forall who :: who in w.threads ==> HonestThread(w, who, w.threads[who])
  }

  ghost predicate HonestThread(w: World, who: Id, r: Resolver) {
    && who in w.used && r.ticket in w.tickets && r.decision in {Approved, Denied}
    && r.copy.tool == w.tickets[r.ticket].tool && r.copy.args == w.tickets[r.ticket].args
    && (r.phase in {Won, Resumed, Invoked} ==> Passed(w, who, r.ticket, r.decision))
    && (r.phase in {Loaded, Seen} ==> forall e :: e in w.exits ==> e.who != Some(who))
    && (r.phase != Invoked ==> forall c :: c in w.calls ==> c.who != who)
  }

  // Only tickets with a resolver's approval are invoked, once, with what they store.
  ghost predicate CallsApproved(w: World) {
    && (forall e :: e in w.exits && e.who.Some? ==> e.who.value in w.used && e.to in {Approved, Denied})
    && (forall e :: e in w.exits && e.who.None? ==> e.to == Expired)
    && (forall c :: c in w.calls ==> CallApproved(w, c))
    && (forall c, d :: c in w.calls && d in w.calls && c.who == d.who ==> c == d)
  }

  ghost predicate CallApproved(w: World, c: Call) {
    && c.ticket in w.tickets && c.tool == w.tickets[c.ticket].tool && c.args == w.tickets[c.ticket].args
    && Passed(w, c.who, c.ticket, Approved) && c.who in w.used
  }

  ghost predicate Fair(w: World) {
    ExitsOnce(w) && Honest(w) && CallsApproved(w)
  }

  lemma ExitAdded(w: World, n: World, exit: Exit)
    requires ExitsOnce(w) && exit.ticket in w.tickets && w.tickets[exit.ticket].status == Pending && exit.to != Pending
    requires n.tickets == w.tickets[exit.ticket := w.tickets[exit.ticket].(status := exit.to)]
    requires n.exits == w.exits + {exit}
    ensures ExitsOnce(n)
  {
    forall id | id in n.tickets && n.tickets[id].status != Pending ensures exists x :: x in n.exits && x.ticket == id {
      if id == exit.ticket { assert exit in n.exits; }
    }
  }

  lemma SwapExits(w: World, who: Id)
    requires ExitsOnce(w) && Honest(w) && Enabled(w, Swap(who))
    ensures ExitsOnce(Next(w, Swap(who)))
  {
    var n, r := Next(w, Swap(who)), w.threads[who];
    if n.exits != w.exits {
      assert HonestThread(w, who, r);
      ExitAdded(w, n, Exit(r.ticket, r.decision, Some(who), n.step));
    }
  }

  // Nothing leaves pending in any other step.
  lemma QuietExits(w: World, e: Event)
    requires ExitsOnce(w) && Enabled(w, e) && !e.Swap? && !e.Sweep?
    ensures ExitsOnce(Next(w, e))
  {
    var n := Next(w, e);
    assert n.exits == w.exits;
    assert n.tickets == if e.Create? then w.tickets[e.id := e.ticket] else w.tickets;
  }

  lemma StepExits(w: World, e: Event)
    requires ExitsOnce(w) && Honest(w) && Enabled(w, e)
    ensures ExitsOnce(Next(w, e))
  {
    if e.Swap? {
      SwapExits(w, e.who);
    } else if e.Sweep? {
      SweepExits(w, e.now);
    } else {
      QuietExits(w, e);
    }
  }

  lemma SweepExits(w: World, now: int)
    requires ExitsOnce(w)
    ensures ExitsOnce(Next(w, Sweep(now)))
  {
    var n := Next(w, Sweep(now));
    forall id | id in n.tickets && n.tickets[id].status != Pending
      ensures exists x :: x in n.exits && x.ticket == id {
      if w.tickets[id].status == Pending {
        assert Exit(id, Expired, None, n.step) in n.exits;
      } else {
        var x :| x in w.exits && x.ticket == id;
        assert x in n.exits;
      }
    }
  }

  // What no step takes back.
  lemma StepGrows(w: World, e: Event)
    requires Enabled(w, e)
    ensures var n := Next(w, e);
      && w.exits <= n.exits && w.calls <= n.calls && w.used <= n.used
      && (forall id :: id in w.tickets ==> id in n.tickets && n.tickets[id].(status := w.tickets[id].status) == w.tickets[id])
  {
  }

  // A step of one resolver, the sweep or the runs leaves every other resolver honest.
  lemma OtherHonest(w: World, e: Event, who: Id)
    requires Fair(w) && Enabled(w, e) && who in w.threads
    requires who in Next(w, e).threads && Next(w, e).threads[who] == w.threads[who]
    ensures HonestThread(Next(w, e), who, w.threads[who])
  {
    StepGrows(w, e);
    assert HonestThread(w, who, w.threads[who]);
    var r, n := w.threads[who], Next(w, e);
    if r.phase in {Won, Resumed, Invoked} {
      var x :| x in w.exits && x.ticket == r.ticket && x.to == r.decision && x.who == Some(who);
      assert x in n.exits;
    }
  }

  lemma SwapHonest(w: World, who: Id)
    requires Fair(w) && Enabled(w, Swap(who)) && who in Next(w, Swap(who)).threads
    ensures HonestThread(Next(w, Swap(who)), who, Next(w, Swap(who)).threads[who])
  {
    var r, n := w.threads[who], Next(w, Swap(who));
    assert HonestThread(w, who, r);
    assert Exit(r.ticket, r.decision, Some(who), n.step) in n.exits;
  }

  lemma OwnHonest(w: World, e: Event, who: Id)
    requires Fair(w) && Enabled(w, e) && who in w.threads
    requires e.Look? || e.Resume? || e.Invoke?
    requires e.who == who && who in Next(w, e).threads
    ensures HonestThread(Next(w, e), who, Next(w, e).threads[who])
  {
    var r, n := w.threads[who], Next(w, e);
    assert HonestThread(w, who, r);
    assert n.exits == w.exits && n.tickets == w.tickets;
    assert e.Look? || Passed(w, who, r.ticket, r.decision);
  }

  lemma StepHonest(w: World, e: Event)
    requires Fair(w) && Enabled(w, e)
    ensures Honest(Next(w, e))
  {
    var n := Next(w, e);
    forall who | who in n.threads ensures HonestThread(n, who, n.threads[who]) {
      if who in w.threads {
        if (e.Look? || e.Resume? || e.Invoke?) && e.who == who {
          OwnHonest(w, e, who);
        } else if e.Swap? && e.who == who {
          SwapHonest(w, who);
        } else {
          OtherHonest(w, e, who);
        }
      } else {
        BegunHonest(w, e);
      }
    }
  }

  lemma BegunHonest(w: World, e: Event)
    requires Fair(w) && Enabled(w, e) && e.Begin? && e.who in Next(w, e).threads
    ensures HonestThread(Next(w, e), e.who, Next(w, e).threads[e.who])
  {
    forall c | c in w.calls ensures c.who != e.who { assert CallApproved(w, c); }
  }

  lemma CallStands(w: World, e: Event, c: Call)
    requires Fair(w) && Enabled(w, e) && c in w.calls
    ensures CallApproved(Next(w, e), c)
  {
    StepGrows(w, e);
    assert CallApproved(w, c);
    var x :| x in w.exits && x.ticket == c.ticket && x.to == Approved && x.who == Some(c.who);
    assert x in Next(w, e).exits;
  }

  lemma InvokeCalls(w: World, who: Id, registered: bool)
    requires Fair(w) && Enabled(w, Invoke(who, registered))
    ensures CallsApproved(Next(w, Invoke(who, registered)))
  {
    var e := Invoke(who, registered);
    var n := Next(w, e);
    assert HonestThread(w, who, w.threads[who]);
    forall c | c in n.calls ensures CallApproved(n, c) {
      if c in w.calls { CallStands(w, e, c); }
    }
  }

  lemma QuietCalls(w: World, e: Event)
    requires Fair(w) && Enabled(w, e) && !e.Invoke?
    ensures CallsApproved(Next(w, e))
  {
    var n := Next(w, e);
    assert n.calls == w.calls;
    if e.Swap? { assert HonestThread(w, e.who, w.threads[e.who]); }
    forall c | c in n.calls ensures CallApproved(n, c) { CallStands(w, e, c); }
  }

  lemma StepCalls(w: World, e: Event)
    requires Fair(w) && Enabled(w, e)
    ensures CallsApproved(Next(w, e))
  {
    if e.Invoke? { InvokeCalls(w, e.who, e.registered); } else { QuietCalls(w, e); }
  }

  lemma {:induction false} RunFair(w: World, events: seq<Event>, last: World)
    requires Fair(w) && Reaches(w, events, last)
    ensures Fair(last)
    decreases |events|
  {
    if events != [] {
      StepExits(w, events[0]);
      StepHonest(w, events[0]);
      StepCalls(w, events[0]);
      RunFair(Next(w, events[0]), events[1..], last);
    }
  }

  /// What the resolvers said

  // A resolver began with this decision on this ticket.
  ghost predicate Said(events: seq<Event>, who: Id, ticket: Id, decision: string) {
    exists i :: 0 <= i < |events| && events[i] == Begin(who, ticket, decision)
  }

  // Whatever is approved or denied, by a resolver still at work or by one that has won, its resolver said so.
  ghost predicate Meant(w: World, past: seq<Event>) {
    && (forall who :: who in w.threads ==> MeantStatus(past, who, w.threads[who].ticket, w.threads[who].decision))
    && (forall e :: e in w.exits && e.who.Some? ==> MeantStatus(past, e.who.value, e.ticket, e.to))
    && (forall c :: c in w.calls ==> Said(past, c.who, c.ticket, "approved"))
  }

  ghost predicate MeantStatus(past: seq<Event>, who: Id, ticket: Id, status: Status) {
    && (status == Approved ==> Said(past, who, ticket, "approved"))
    && (status == Denied ==> Said(past, who, ticket, "denied"))
  }

  lemma SaidStays(past: seq<Event>, e: Event, who: Id, ticket: Id, decision: string)
    ensures Said(past, who, ticket, decision) ==> Said(past + [e], who, ticket, decision)
    ensures e == Begin(who, ticket, decision) ==> Said(past + [e], who, ticket, decision)
  {
    if Said(past, who, ticket, decision) {
      var i :| 0 <= i < |past| && past[i] == Begin(who, ticket, decision);
      assert (past + [e])[i] == past[i];
    }
    assert (past + [e])[|past|] == e;
  }

  lemma MeantStays(past: seq<Event>, e: Event, who: Id, ticket: Id, status: Status)
    requires MeantStatus(past, who, ticket, status)
    ensures MeantStatus(past + [e], who, ticket, status)
  {
    SaidStays(past, e, who, ticket, "approved");
    SaidStays(past, e, who, ticket, "denied");
  }

  lemma StepMeant(w: World, past: seq<Event>, e: Event)
    requires Meant(w, past) && Enabled(w, e)
    ensures Meant(Next(w, e), past + [e])
  {
    var n := Next(w, e);
    forall who | who in n.threads ensures MeantStatus(past + [e], who, n.threads[who].ticket, n.threads[who].decision) {
      if e.Begin? && e.who == who { SaidStays(past, e, who, e.ticketId, e.decision); }
      if who in w.threads { MeantStays(past, e, who, w.threads[who].ticket, w.threads[who].decision); }
    }
    forall x | x in n.exits && x.who.Some? ensures MeantStatus(past + [e], x.who.value, x.ticket, x.to) {
      if x in w.exits {
        MeantStays(past, e, x.who.value, x.ticket, x.to);
      } else {
        assert e.Swap? && MeantStatus(past, e.who, w.threads[e.who].ticket, w.threads[e.who].decision);
        MeantStays(past, e, e.who, w.threads[e.who].ticket, w.threads[e.who].decision);
      }
    }
    forall c | c in n.calls ensures Said(past + [e], c.who, c.ticket, "approved") {
      if c !in w.calls { assert MeantStatus(past, e.who, w.threads[e.who].ticket, w.threads[e.who].decision); }
      SaidStays(past, e, c.who, c.ticket, "approved");
    }
  }

  lemma {:induction false} RunMeant(w: World, past: seq<Event>, events: seq<Event>, last: World)
    requires Meant(w, past) && Reaches(w, events, last)
    ensures Meant(last, past + events)
    decreases |events|
  {
    if events == [] {
      assert past + events == past;
    } else {
      var e := events[0];
      StepMeant(w, past, e);
      RunMeant(Next(w, e), past + [e], events[1..], last);
      assert past + [e] + events[1..] == past + events;
    }
  }

  // Over every interleaving a tool is run only for a resolver that said "approved" of that ticket, and a
  // ticket becomes approved or denied only by a resolver that said just that of it.
  lemma AsSaid(events: seq<Event>, w: World)
    requires Reaches(EMPTY, events, w)
    ensures forall c :: c in w.calls ==> Said(events, c.who, c.ticket, "approved")
    ensures forall e :: e in w.exits && e.to == Approved && e.who.Some? ==> Said(events, e.who.value, e.ticket, "approved")
    ensures forall e :: e in w.exits && e.to == Denied && e.who.Some? ==> Said(events, e.who.value, e.ticket, "denied")
  {
    RunMeant(EMPTY, [], events, w);
    assert [] + events == events;
    forall e | e in w.exits && e.who.Some? ensures MeantStatus(events, e.who.value, e.ticket, e.to) { }
  }

  // A resolver that nobody disturbs settles a pending ticket as it says. Approved, the tool is run once with
  // what the ticket stores, if the run is there and the tool is registered; denied, nothing is run.
  lemma SettledAsSaid(w: World, who: Id, id: Id, decision: string, registered: bool) returns (last: World, call: Call)
    requires id in w.tickets && w.tickets[id].status == Pending && who !in w.used && who !in w.threads
    requires decision in {"approved", "denied"}
    ensures Reaches(w, [Begin(who, id, decision), Look(who), Swap(who), Resume(who, true), Invoke(who, registered)], last)
    ensures last.tickets == w.tickets[id := w.tickets[id].(status := if decision == "approved" then Approved else Denied)]
    ensures last.calls == if decision == "approved" && registered then w.calls + {call} else w.calls
    ensures call.who == who && call.ticket == id && call.tool == w.tickets[id].tool && call.args == w.tickets[id].args
  {
    var begin, swap, invoke := Begin(who, id, decision), Swap(who), Invoke(who, registered);
    var w1 := Next(w, begin);
    var w2 := Next(w1, Look(who));
    var w3 := Next(w2, swap);
    var w4 := Next(w3, Resume(who, true));
    last := Next(w4, invoke);
    call := Call(id, w.tickets[id].tool, w.tickets[id].args, who, last.step);
    assert Reaches(last, [], last);
    assert [invoke][1..] == [] && Reaches(w4, [invoke], last);
    assert [Resume(who, true), invoke][1..] == [invoke] && Reaches(w3, [Resume(who, true), invoke], last);
    assert [swap, Resume(who, true), invoke][1..] == [Resume(who, true), invoke];
    assert Reaches(w2, [swap, Resume(who, true), invoke], last);
    assert [Look(who), swap, Resume(who, true), invoke][1..] == [swap, Resume(who, true), invoke];
    assert Reaches(w1, [Look(who), swap, Resume(who, true), invoke], last);
    assert [begin, Look(who), swap, Resume(who, true), invoke][1..] == [Look(who), swap, Resume(who, true), invoke];
  }

  // A resolver that is refused, has lost, finds no run or is done is gone, a crash leaves none, and none begins twice.
  lemma ResolversEnd(w: World, e: Event)
    requires Enabled(w, e)
    ensures var n := Next(w, e);
      && n.step == w.step + 1
      && (e.Begin? ==> n.used == w.used + {e.who} && !Enabled(n, e))
      && ((e.Look? || e.Swap?) && !(w.threads[e.who].ticket in w.tickets && w.tickets[w.threads[e.who].ticket].status == Pending) ==>
            e.who !in n.threads && n.tickets == w.tickets)
      && (e.Resume? && !e.hasRun ==> e.who !in n.threads)
      && (e.Invoke? ==> !Enabled(n, e))
      && (e.Finish? ==> e.who !in n.threads)
      && (e.Crash? ==> n.threads == map[] && n.tickets == w.tickets)
      && (e.Runs? ==> n.waiting == e.waiting)
  {
  }

  /// What every interleaving guarantees

  // At most one change takes a ticket out of pending, and its status stays the winner's.
  lemma OneWinner(events: seq<Event>, w: World, id: Id)
    requires Reaches(EMPTY, events, w) && id in w.tickets
    ensures forall e, f :: e in w.exits && f in w.exits && e.ticket == f.ticket == id ==> e == f
    ensures w.tickets[id].status == Pending <==> !exists e :: e in w.exits && e.ticket == id
    ensures forall e :: e in w.exits && e.ticket == id ==> w.tickets[id].status == e.to && (e.who.Some? <==> e.to in {Approved, Denied})
  {
    RunFair(EMPTY, events, w);
  }

  // The gated tool is invoked at most once for a ticket, only after a resolver approved it, and with
  // exactly the tool and the arguments the ticket stores.
  lemma InvokedOnce(events: seq<Event>, w: World, id: Id)
    requires Reaches(EMPTY, events, w) && id in w.tickets
    ensures forall c, d :: c in w.calls && d in w.calls && c.ticket == d.ticket == id ==> c == d
    ensures forall c :: c in w.calls && c.ticket == id ==> CallApproved(w, c) && w.tickets[id].status == Approved
  {
    RunFair(EMPTY, events, w);
    forall c, d | c in w.calls && d in w.calls && c.ticket == d.ticket == id ensures c == d {
      assert CallApproved(w, c) && CallApproved(w, d);
    }
  }

  // Once decided, a ticket keeps its status and what it stores through every later step.
  lemma {:induction false} DecidedForGood(w: World, events: seq<Event>, last: World, id: Id)
    requires Reaches(w, events, last) && id in w.tickets && w.tickets[id].status != Pending
    ensures id in last.tickets && last.tickets[id] == w.tickets[id]
    decreases |events|
  {
    if events != [] { DecidedForGood(Next(w, events[0]), events[1..], last, id); }
  }

  // A ticket verifies if and only if some resolver approved it and its fingerprint is the stored one.
  lemma VerifiedWasApproved(events: seq<Event>, w: World, id: Id, fingerprint: string)
    requires Reaches(EMPTY, events, w)
    ensures Verified(w.tickets, id, fingerprint) <==>
      && id in w.tickets && w.tickets[id].fingerprint == fingerprint
      && exists e :: e in w.exits && e.ticket == id && e.to == Approved && e.who.Some?
  {
    RunFair(EMPTY, events, w);
    if id in w.tickets && w.tickets[id].status == Approved {
      var e :| e in w.exits && e.ticket == id;
      assert e.to == Approved;
    }
  }

  // A sweep leaves pending exactly the pending tickets of runs that wait for them and that are at most a day
  // old, expires the other pending ones and leaves the rest; sweeping again at that moment changes nothing.
  lemma SweptIsFresh(tickets: Tickets, now: int, waiting: set<Id>)
    ensures var swept := Swept(tickets, now, waiting);
      && swept.Keys == tickets.Keys
      && (forall id :: id in tickets ==>
            (swept[id].status == Pending <==>
               tickets[id].status == Pending && tickets[id].createdAt >= now - DAY && tickets[id].run in waiting))
      && (forall id :: id in tickets && swept[id] != tickets[id] ==>
            tickets[id].status == Pending && swept[id] == tickets[id].(status := Expired))
    ensures Swept(Swept(tickets, now, waiting), now, waiting) == Swept(tickets, now, waiting)
  {
  }
}
