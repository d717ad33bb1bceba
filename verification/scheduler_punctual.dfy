/**
 When every call reaches the runtime within the grace period, counted from the clock reading of its claim,
 nothing that was committed is marked failed.
 */
module SchedulerPunctual {
  import opened Basics
  import opened Slots
  import opened SchedulerStore
  import opened SchedulerWorld
  import opened SchedulerExactlyOnce
  import opened SchedulerOverlap
  import opened SchedulerLost
  import J = Journal
  import Inbound

  // The clock has not passed the claim's reading by more than the grace period.
  predicate InGrace(w: World, o: Id)
    requires o in w.tables.occs
  {
    w.clock <= w.tables.occs[o].createdAt + w.grace
  }

  ghost predicate Punctual(w: World, s: Step)
    requires Enabled(w, s)
  {
    s.Deliver? ==> InGrace(w, AgentOf(w, s.agent).doing.value.occ)
  }

  // A call still to be made in time finds its row dispatching; what is to be given up has no receipt, and is
  // too old for a call in time or has had its call.
  ghost predicate PromptToken(w: World, tok: Token) {
    && tok.occ in w.tables.occs
    && (tok.Dispatch? && InGrace(w, tok.occ) ==> w.tables.occs[tok.occ].status == Dispatching)
    && (tok.Fail? ==> ReceiptOf(w, tok.occ).None? && (tok.occ in w.dispatched || !InGrace(w, tok.occ)))
  }

  ghost predicate Prompt(w: World) {
    forall a :: a in w.agents && w.agents[a].doing.Some? ==> PromptToken(w, w.agents[a].doing.value)
  }

  lemma DispatchedGrows(w: World, s: Step)
    requires Enabled(w, s)
    ensures forall o :: o in w.dispatched ==> o in Next(w, s).dispatched
    ensures Next(w, s).grace == w.grace
  {
    if s.Deliver? { DeliverLeaves(w, s); } else if !s.Journal? { CallsStay(w, s); }
  }

  lemma TimePasses(w: World, s: Step)
    requires Enabled(w, s)
    ensures w.clock <= Next(w, s).clock
  {
    if Claims(s) { ClaimCalls(w, s); } else { OtherRows(w, s); }
  }

  lemma GraceEnds(w: World, s: Step, o: Id)
    requires Enabled(w, s) && o in w.tables.occs
    ensures o in Next(w, s).tables.occs && (InGrace(Next(w, s), o) ==> InGrace(w, o))
  {
    RowsStay(w, s);
    DispatchedGrows(w, s);
    TimePasses(w, s);
  }

  lemma CallStays(w: World, s: Step, tok: Token)
    requires Linked(w) && Prompt(w) && Enabled(w, s)
    requires tok.Dispatch? && TokenOk(w, tok) && PromptToken(w, tok)
    ensures PromptToken(Next(w, s), tok)
  {
    GraceEnds(w, s, tok.occ);
    RowsStay(w, s);
    if tok.occ in Written(w, s) {
      assert AgentOk(w, w.agents[s.agent]) && TokenOk(w, AgentOf(w, s.agent).doing.value);
      assert PromptToken(w, AgentOf(w, s.agent).doing.value);
    }
  }

  lemma GivingUpStays(w: World, s: Step, tok: Token)
    requires Linked(w) && Enabled(w, s) && Punctual(w, s)
    requires tok.Fail? && PromptToken(w, tok)
    ensures PromptToken(Next(w, s), tok)
  {
    GraceEnds(w, s, tok.occ);
    DispatchedGrows(w, s);
    ReceiptsStay(w, s, tok.occ);
    if s.Deliver? {
      assert AgentOk(w, w.agents[s.agent]) && TokenOk(w, AgentOf(w, s.agent).doing.value);
    }
  }

  lemma TokenStays(w: World, s: Step, tok: Token)
    requires Linked(w) && Prompt(w) && Enabled(w, s) && Punctual(w, s)
    requires TokenOk(w, tok) && PromptToken(w, tok)
    ensures PromptToken(Next(w, s), tok)
  {
    if tok.Dispatch? {
      CallStays(w, s, tok);
    } else if tok.Fail? {
      GivingUpStays(w, s, tok);
    } else {
      RowsStay(w, s);
    }
  }

  lemma PickedPrompt(w: World, s: Step, tok: Token)
    requires Linked(w) && Enabled(w, s) && s.Examine?
    requires Picks(w, s, tok, AgentOf(w, s.agent).queue[0])
    ensures PromptToken(Next(w, s), tok)
  {
    var head := AgentOf(w, s.agent).queue[0];
    assert AgentOk(w, w.agents[s.agent]) && ListedOk(w, head);
    GraceEnds(w, s, head.id);
    ReceiptsStay(w, s, head.id);
  }

  lemma PursuedPrompt(w: World, s: Step, tok: Token)
    requires Linked(w) && Enabled(w, s) && Actor(s).Some? && AgentOf(w, Actor(s).value).doing.Some? && !s.Deliver?
    requires Pursues(w, s, tok, AgentOf(w, Actor(s).value).doing.value)
    ensures PromptToken(Next(w, s), tok)
  {
    var was := AgentOf(w, Actor(s).value).doing.value;
    assert AgentOk(w, w.agents[Actor(s).value]) && TokenOk(w, was);
    GraceEnds(w, s, was.occ);
    DispatchedGrows(w, s);
    ReceiptsStay(w, s, was.occ);
  }

  lemma CalledPrompt(w: World, s: Step, tok: Token)
    requires Linked(w) && Enabled(w, s) && s.Deliver?
    requires Pursues(w, s, tok, AgentOf(w, s.agent).doing.value)
    ensures PromptToken(Next(w, s), tok)
  {
    RowsStay(w, s);
  }

  lemma ActorPrompt(w: World, s: Step, tok: Token)
    requires Linked(w) && Enabled(w, s) && Actor(s).Some?
    requires AgentOf(Next(w, s), Actor(s).value).doing == Some(tok)
    ensures PromptToken(Next(w, s), tok)
  {
    ActorGoesOn(w, s);
    if s.Examine? {
      PickedPrompt(w, s, tok);
    } else if s.Deliver? {
      CalledPrompt(w, s, tok);
    } else if !Claims(s) {
      PursuedPrompt(w, s, tok);
    }
  }

  lemma StepPrompt(w: World, s: Step)
    requires Linked(w) && Prompt(w) && Enabled(w, s) && Punctual(w, s)
    ensures Prompt(Next(w, s)) && Loses(w, s) == {}
  {
    var d := Next(w, s);
    OthersStay(w, s);
    forall a | a in d.agents && d.agents[a].doing.Some? ensures PromptToken(d, d.agents[a].doing.value) {
      if Actor(s) == Some(a) {
        ActorPrompt(w, s, d.agents[a].doing.value);
      } else {
        assert AgentOk(w, w.agents[a]);
        TokenStays(w, s, w.agents[a].doing.value);
      }
    }
    PromptLosesNone(w, s);
  }

  lemma PromptLosesNone(w: World, s: Step)
    requires Linked(w) && Prompt(w) && Enabled(w, s) && Punctual(w, s)
    ensures Loses(w, s) == {}
  {
    if s.Deliver? || s.TakeFail? { assert PromptToken(w, w.agents[s.agent].doing.value); }
  }

  // Every call of the run is made within the grace period of the clock reading of its claim.
  ghost predicate PunctualRun(w: World, steps: seq<Step>)
    decreases |steps|
  {
    steps == [] || (Enabled(w, steps[0]) && Punctual(w, steps[0]) && PunctualRun(Next(w, steps[0]), steps[1..]))
  }

  lemma {:induction false} PunctualLosesNone(w: World, steps: seq<Step>, last: World)
    requires Linked(w) && Prompt(w) && IsRun(w, steps, last) && PunctualRun(w, steps)
    ensures NoneLoses(w, steps)
    decreases |steps|
  {
    if steps != [] {
      StepPrompt(w, steps[0]);
      StepLinked(w, steps[0]);
      PunctualLosesNone(Next(w, steps[0]), steps[1..], last);
    }
  }

  lemma {:induction false} NeverLostAtEnd(w: World, steps: seq<Step>, last: World)
    requires IsRun(w, steps, last) && NeverLost(w, steps)
    ensures LostOnes(last) == {}
    decreases |steps|
  {
    if steps != [] { NeverLostAtEnd(Next(w, steps[0]), steps[1..], last); }
  }

  // Over every punctual run nothing is ever lost: a failed occurrence with a receipt carries its run.
  lemma PunctualNeverLost(w: World, steps: seq<Step>, last: World)
    requires Initial(w) && IsRun(w, steps, last) && PunctualRun(w, steps)
    ensures NeverLost(w, steps)
    ensures forall o :: o in last.tables.occs && last.tables.occs[o].status.Failed? && ReceiptOf(last, o).Some? ==>
      last.tables.occs[o].runId == ReceiptOf(last, o)
  {
    PunctualLosesNone(w, steps, last);
    RunLostIff(w, steps, last);
    NeverLostAtEnd(w, steps, last);
    ExactlyOnce(w, steps, last);
    forall o | o in last.tables.occs && last.tables.occs[o].status.Failed? && ReceiptOf(last, o).Some?
      ensures last.tables.occs[o].runId == ReceiptOf(last, o)
    {
      assert o !in LostOnes(last);
    }
  }
}
