/**
 One turn's tool calls: they run in order until one needs an approval or leaves a delegated run active.
 */
module ToolBatch {
  import opened Basics

  datatype Mode = Allow | Ask | Deny

  datatype RunStatus = Pending | Active | NeedsApproval | Completed | Interrupted | Failed

  // What a call comes to: `known` says whether the tool is registered, `mode` and `reason` are the policy's
  // decision, `status` is the run status in the tool's output (if it holds one), `fault` a failing write.
  datatype Call = Call(
    id: string, tool: string, args: string, known: bool, delegates: bool, mode: Mode, reason: string,
    output: string, status: Option<RunStatus>, fault: Fault)

  // No fault, no record, no ticket, or a ticket without its prompt.
  datatype Fault = NoFault | RecordFault | TicketFault | PromptFault

  datatype Record = Record(id: string, tool: string, args: string, decision: Mode, text: string)

  datatype Ticket = Ticket(tool: string, args: string)

  predicate StillActive(c: Call) {
    c.status == Some(Pending) || c.status == Some(Active) || c.status == Some(NeedsApproval)
  }

  function RecordOf(c: Call): Record {
    if !c.known then Record(c.id, c.tool, c.args, Deny, "tool not found")
    else if c.mode == Allow then Record(c.id, c.tool, c.args, Allow, c.output)
    else Record(c.id, c.tool, c.args, Deny, c.reason)
  }

  predicate Asks(c: Call) { c.known && c.mode == Ask }

  predicate Delegates(c: Call) { c.known && c.mode == Allow && c.delegates && StillActive(c) }

  predicate Breaks(c: Call) { if Asks(c) then c.fault in {TicketFault, PromptFault} else c.fault == RecordFault }

  predicate Stops(c: Call) { Breaks(c) || Asks(c) || Delegates(c) }

  // The first call that stops the batch, or the end of it.
  ghost predicate FirstStop(calls: seq<Call>, k: nat) {
    k <= |calls| && (forall i :: 0 <= i < k ==> !Stops(calls[i])) && (k < |calls| ==> Stops(calls[k]))
  }

  function Records(calls: seq<Call>): seq<Record> {
    if calls == [] then [] else Records(calls[..|calls| - 1]) + [RecordOf(calls[|calls| - 1])]
  }

  // The calls whose tool was run.
  function Invoked(calls: seq<Call>): seq<Call> {
    if calls == [] then [] else
    var last := calls[|calls| - 1];
    if last.known && last.mode == Allow then Invoked(calls[..|calls| - 1]) + [last] else Invoked(calls[..|calls| - 1])
  }

  lemma Prefixes(calls: seq<Call>, i: nat)
    requires i < |calls|
    ensures Records(calls[..i + 1]) == Records(calls[..i]) + [RecordOf(calls[i])]
    ensures Invoked(calls[..i + 1]) ==
      if calls[i].known && calls[i].mode == Allow then Invoked(calls[..i]) + [calls[i]] else Invoked(calls[..i])
  {
    assert calls[..i + 1][..i] == calls[..i];
  }

  lemma AppendAfter<T>(a: seq<T>, b: seq<T>, x: T)
    ensures a + b + [x] == a + (b + [x])
  {
  }

  datatype Outcome = Paused | Finished | Broken

  function OutcomeAt(calls: seq<Call>, k: nat): Outcome
    requires k <= |calls|
  {
    if k == |calls| then Finished else if Breaks(calls[k]) then Broken else Paused
  }

  function ResultsAt(calls: seq<Call>, k: nat): seq<Call>
    requires k <= |calls|
  {
    if k < |calls| && Delegates(calls[k]) && !Breaks(calls[k]) then calls[..k + 1] else calls[..k]
  }

  function ReachedAt(calls: seq<Call>, k: nat): seq<Call>
    requires k <= |calls|
  {
    if k < |calls| then calls[..k + 1] else calls
  }

  function TicketOf(c: Call): seq<Ticket> {
    if Asks(c) && c.fault != TicketFault then [Ticket(c.tool, c.args)] else []
  }

  function TicketsAt(calls: seq<Call>, k: nat): seq<Ticket>
    requires k <= |calls|
  {
    if k < |calls| then TicketOf(calls[k]) else []
  }

  // What the runtime has written, and the calls it has run.
  datatype Log = Log(journal: seq<Record>, tickets: seq<Ticket>, invoked: seq<Call>)

  function After(l: Log, c: Call): Log {
    Log(if Breaks(c) || Asks(c) then l.journal else l.journal + [RecordOf(c)],
        l.tickets + TicketOf(c),
        if c.known && c.mode == Allow then l.invoked + [c] else l.invoked)
  }

  // The first `k` calls are done and none of them has stopped the batch.
  ghost predicate Going(calls: seq<Call>, k: nat, before: Log, now: Log, events: seq<Record>) {
    && k <= |calls| && (forall j :: 0 <= j < k ==> !Stops(calls[j]))
    && events == Records(calls[..k])
    && now == Log(before.journal + events, before.tickets, before.invoked + Invoked(calls[..k]))
  }

  // The batch has ended at call `k`, or after all of them.
  ghost predicate Ended(calls: seq<Call>, k: nat, before: Log, now: Log, events: seq<Record>, outcome: Outcome) {
    && FirstStop(calls, k)
    && outcome == OutcomeAt(calls, k)
    && events == Records(ResultsAt(calls, k))
    && now == Log(before.journal + events, before.tickets + TicketsAt(calls, k), before.invoked + Invoked(ReachedAt(calls, k)))
  }

  lemma GoesOn(calls: seq<Call>, k: nat, before: Log, now: Log, events: seq<Record>)
    requires k < |calls| && Going(calls, k, before, now, events) && !Stops(calls[k])
    ensures Going(calls, k + 1, before, After(now, calls[k]), events + [RecordOf(calls[k])])
  {
    Prefixes(calls, k);
    AppendAfter(before.journal, events, RecordOf(calls[k]));
    AppendAfter(before.invoked, Invoked(calls[..k]), calls[k]);
    assert before.tickets + [] == before.tickets;
  }

  lemma EndsHere(calls: seq<Call>, k: nat, before: Log, now: Log, events: seq<Record>)
    requires k < |calls| && Going(calls, k, before, now, events) && Stops(calls[k])
    ensures Ended(calls, k, before, After(now, calls[k]),
                  if Breaks(calls[k]) || Asks(calls[k]) then events else events + [RecordOf(calls[k])], OutcomeAt(calls, k))
  {
    Prefixes(calls, k);
    AppendAfter(before.journal, events, RecordOf(calls[k]));
    AppendAfter(before.invoked, Invoked(calls[..k]), calls[k]);
  }

  lemma EndsAfterAll(calls: seq<Call>, before: Log, now: Log, events: seq<Record>)
    requires Going(calls, |calls|, before, now, events)
    ensures Ended(calls, |calls|, before, now, events, Finished)
  {
    assert calls[..|calls|] == calls && before.tickets + [] == before.tickets;
  }

  class Runtime {
    var journal: seq<Record>
    var tickets: seq<Ticket>
    var invoked: seq<Call>

    ghost function Written(): Log
      reads this
    {
      Log(journal, tickets, invoked)
    }

    // Runs, records and journals one call.
    method RecordToolCall(c: Call, mode: Mode, text: string) returns (r: Option<Record>)
      modifies this
      ensures tickets == old(tickets)
      ensures invoked == if mode == Allow then old(invoked) + [c] else old(invoked)
      ensures r == if c.fault == RecordFault then None else Some(Record(c.id, c.tool, c.args, mode, text))
      ensures journal == if r.Some? then old(journal) + [r.value] else old(journal)
    {
      if mode == Allow { invoked := invoked + [c]; }
      if c.fault == RecordFault { return None; }
      r := Some(Record(c.id, c.tool, c.args, mode, text));
      journal := journal + [r.value];
    }

    // One call of a batch: what it leaves behind, and whether the batch goes on after it.
    method ExecuteToolCall(tc: Call) returns (event: Option<Record>, outcome: Outcome)
      modifies this
      ensures event == if Breaks(tc) || Asks(tc) then None else Some(RecordOf(tc))
      ensures outcome == if Breaks(tc) then Broken else if Asks(tc) || Delegates(tc) then Paused else Finished
      ensures Written() == After(old(Written()), tc)
      ensures !tc.known ==>
        invoked == old(invoked) && (event.None? || event == Some(Record(tc.id, tc.tool, tc.args, Deny, "tool not found")))
      ensures tc.known && tc.mode == Deny ==>
        invoked == old(invoked) && (event.None? || event == Some(Record(tc.id, tc.tool, tc.args, Deny, tc.reason)))
      ensures tc.known && tc.mode == Allow ==>
        invoked == old(invoked) + [tc] && (event.None? || event == Some(Record(tc.id, tc.tool, tc.args, Allow, tc.output)))
      ensures !(tc.known && tc.mode == Ask) ==>
        && tickets == old(tickets)
        && (tc.fault == RecordFault <==> event.None?) && (event.None? <==> outcome == Broken)
        && (outcome == Paused <==> event.Some? && tc.known && tc.mode == Allow && tc.delegates
                                   && tc.status in {Some(Pending), Some(Active), Some(NeedsApproval)})
      ensures tc.known && tc.mode == Ask ==>
        && event.None? && invoked == old(invoked)
        && tickets == old(tickets) + (if tc.fault == TicketFault then [] else [Ticket(tc.tool, tc.args)])
        && outcome == (if tc.fault == TicketFault || tc.fault == PromptFault then Broken else Paused)
      ensures journal == old(journal) + if event.Some? then [event.value] else []
    {
      assert tickets + [] == tickets;
      if !tc.known {
        event := RecordToolCall(tc, Deny, "tool not found");
        return event, if event.None? then Broken else Finished;
      }
      if tc.mode == Allow {
        event := RecordToolCall(tc, Allow, tc.output);
        return event, if event.None? then Broken else if tc.delegates && StillActive(tc) then Paused else Finished;
      }
      if tc.mode == Ask {
        if tc.fault == TicketFault { return None, Broken; }
        tickets := tickets + [Ticket(tc.tool, tc.args)];
        return None, if tc.fault == PromptFault then Broken else Paused;
      }
      event := RecordToolCall(tc, Deny, tc.reason);
      return event, if event.None? then Broken else Finished;
    }

    // The batch is paused exactly when its first stop asks for an approval or leaves a delegation active;
    // the results are those of the calls before an ask, through the delegation, or of all.
    method ExecuteToolCalls(calls: seq<Call>) returns (events: seq<Record>, outcome: Outcome, ghost k: nat)
      modifies this
      ensures Ended(calls, k, old(Written()), Written(), events, outcome)
    {
      events := [];
      k := 0;
      outcome := Finished;
      assert old(journal) + [] == old(journal) && old(invoked) + [] == old(invoked);
      for i := 0 to |calls|
        invariant k == i && Going(calls, i, old(Written()), Written(), events)
      {
        ghost var now := Written();
        if Stops(calls[i]) { EndsHere(calls, i, old(Written()), now, events); } else { GoesOn(calls, i, old(Written()), now, events); }
        var event: Option<Record>;
        event, outcome := ExecuteToolCall(calls[i]);
        if event.Some? { events := events + [event.value]; }
        if outcome != Finished { return; }
        k := k + 1;
      }
      EndsAfterAll(calls, old(Written()), Written(), events);
      outcome := Finished;
    }
  }

  // What the end of a batch at call `k` means, in the fields of its calls.
  lemma BatchEnds(calls: seq<Call>, k: nat, before: Log, now: Log, events: seq<Record>, outcome: Outcome)
    requires Ended(calls, k, before, now, events, outcome)
    ensures forall j :: 0 <= j < k ==>
      && !(calls[j].known && calls[j].mode == Ask) && calls[j].fault != RecordFault
      && !(calls[j].known && calls[j].mode == Allow && calls[j].delegates
           && calls[j].status in {Some(Pending), Some(Active), Some(NeedsApproval)})
    ensures now.journal == before.journal + events
    ensures k == |calls| ==> outcome == Finished && now.tickets == before.tickets && |events| == k
    ensures k < |calls| ==>
      var c := calls[k];
      if c.known && c.mode == Ask then
        && now.tickets == before.tickets + (if c.fault == TicketFault then [] else [Ticket(c.tool, c.args)])
        && outcome == (if c.fault == TicketFault || c.fault == PromptFault then Broken else Paused) && |events| == k
      else if c.fault == RecordFault then outcome == Broken && now.tickets == before.tickets && |events| == k
      else
        && c.known && c.mode == Allow && c.delegates && c.status in {Some(Pending), Some(Active), Some(NeedsApproval)}
        && outcome == Paused && now.tickets == before.tickets && |events| == k + 1
    ensures |events| <= |calls|
    ensures forall i :: 0 <= i < |events| ==>
      var c := calls[i];
      events[i] == if c.known && c.mode == Allow then Record(c.id, c.tool, c.args, Allow, c.output)
                   else Record(c.id, c.tool, c.args, Deny, if c.known then c.reason else "tool not found")
  {
    RecordsEach(ResultsAt(calls, k));
    forall j | 0 <= j < k
      ensures !(calls[j].known && calls[j].mode == Ask) && calls[j].fault != RecordFault
      ensures !(calls[j].known && calls[j].mode == Allow && calls[j].delegates
                && calls[j].status in {Some(Pending), Some(Active), Some(NeedsApproval)})
    {
      assert !Stops(calls[j]);
    }
  }

  lemma {:induction false} RecordsEach(calls: seq<Call>)
    ensures |Records(calls)| == |calls|
    ensures forall i :: 0 <= i < |calls| ==>
      var c := calls[i];
      Records(calls)[i] == if c.known && c.mode == Allow then Record(c.id, c.tool, c.args, Allow, c.output)
                           else Record(c.id, c.tool, c.args, Deny, if c.known then c.reason else "tool not found")
  {
    if calls != [] { RecordsEach(calls[..|calls| - 1]); }
  }

  lemma NotBefore(calls: seq<Call>, j: nat, k: nat)
    requires FirstStop(calls, k) && j < k
    ensures j < |calls| && !Stops(calls[j])
  {
  }

  // Where a batch stops is determined by its calls.
  lemma StopUnique(calls: seq<Call>, j: nat, k: nat)
    requires FirstStop(calls, j) && FirstStop(calls, k)
    ensures j == k
  {
    if j < k { NotBefore(calls, j, k); }
    if k < j { NotBefore(calls, k, j); }
  }

  lemma {:induction false} InvokedAppend(a: seq<Call>, b: seq<Call>)
    ensures Invoked(a + b) == Invoked(a) + Invoked(b)
    decreases |b|
  {
    if b == [] {
      assert a + b == a;
    } else {
      assert (a + b)[..|a + b| - 1] == a + b[..|b| - 1];
      InvokedAppend(a, b[..|b| - 1]);
    }
  }

  lemma {:induction false} RecordsAppend(a: seq<Call>, b: seq<Call>)
    ensures Records(a + b) == Records(a) + Records(b)
    decreases |b|
  {
    if b == [] {
      assert a + b == a;
    } else {
      assert (a + b)[..|a + b| - 1] == a + b[..|b| - 1];
      RecordsAppend(a, b[..|b| - 1]);
    }
  }

  lemma StopsCompose(a: seq<Call>, b: seq<Call>, k: nat)
    requires FirstStop(a, |a|) && FirstStop(b, k)
    ensures FirstStop(a + b, |a| + k)
  {
  }

  // Running a batch in two parts: if the first part does not stop, the whole stops where the second does.
  lemma BatchesCompose(a: seq<Call>, b: seq<Call>, k: nat)
    requires FirstStop(a, |a|) && FirstStop(b, k)
    ensures FirstStop(a + b, |a| + k)
    ensures Records((a + b)[..|a| + k]) == Records(a) + Records(b[..k])
    ensures Invoked((a + b)[..|a| + k]) == Invoked(a) + Invoked(b[..k])
  {
    StopsCompose(a, b, k);
    assert (a + b)[..|a| + k] == a + b[..k];
    InvokedAppend(a, b[..k]);
    RecordsAppend(a, b[..k]);
  }

  // No call that asks for an approval runs its tool before or at the stop.
  lemma {:induction false} AskNeverInvoked(calls: seq<Call>, c: Call)
    requires c in Invoked(calls)
    ensures c in calls && c.known && c.mode == Allow
  {
    if calls != [] && c in Invoked(calls[..|calls| - 1]) { AskNeverInvoked(calls[..|calls| - 1], c); }
  }
}
