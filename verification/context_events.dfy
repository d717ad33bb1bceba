/**
 The conversation context a run reloads: of several records of one tool call only the last is kept.
 */
module ContextEvents {
  import opened Basics
  import opened Text

  datatype Decision = Allow | Deny

  datatype RunStatus = Pending | Active | NeedsApproval | Completed | Interrupted | Failed

  // The output is a delegation's result or anything else.
  datatype Output = Delegation(run: Id, status: RunStatus, body: string) | Plain(text: string)

  datatype Payload = Payload(callId: string, tool: string, delegate: bool, args: string, decision: Decision, approval: string, output: Output)

  // A payload that does not decode is absent.
  datatype Event = TurnCompleted(content: string) | ToolCallRecorded(payload: Option<Payload>)

  // The key under which a record replaces earlier ones, if it has a usable one.
  function Key(e: Event): Option<string> {
    if e.TurnCompleted? || e.payload.None? then None
    else
      var id := TrimSpace(e.payload.value.callId);
      if id == "" then None else Some(id)
  }

  predicate Keyed(events: seq<Event>, key: string) {
    exists i :: 0 <= i < |events| && Key(events[i]) == Some(key)
  }

  // What the context is meant to hold.
  function Latest(events: seq<Event>): seq<Event> {
    if events == [] then []
    else if Key(events[0]).Some? && Keyed(events[1..], Key(events[0]).value) then Latest(events[1..])
    else [events[0]] + Latest(events[1..])
  }

  method LatestToolCallEvents(events: seq<Event>) returns (filtered: seq<Event>)
    ensures filtered == Latest(events)
  {
    if |events| == 0 { return []; }
    var keep := MarkLatest(events);
    filtered := [];
    var i := 0;
    while i < |events|
      invariant 0 <= i <= |events|
      invariant forall j :: 0 <= j < |events| ==> (keep[j] <==> Survives(events, |events|, j))
      invariant filtered + Latest(events[i..]) == Latest(events)
    {
      SurvivesIff(events, i);
      LatestFrom(events, i);
      assert filtered + ([events[i]] + Latest(events[i + 1..])) == (filtered + [events[i]]) + Latest(events[i + 1..]);
      if keep[i] { filtered := filtered + [events[i]]; }
      i := i + 1;
    }
  }

  // The first pass: a record puts out the one last seen under its key.
  method MarkLatest(events: seq<Event>) returns (keep: array<bool>)
    ensures fresh(keep) && keep.Length == |events|
    ensures forall j :: 0 <= j < |events| ==> (keep[j] <==> Survives(events, |events|, j))
  {
    keep := new bool[|events|](i => true);
    var latest: map<string, nat> := map[];
    var i := 0;
    while i < |events|
      invariant 0 <= i <= |events|
      invariant Tracks(events, i, latest)
      invariant forall j :: 0 <= j < |events| ==> (keep[j] <==> Survives(events, i, j))
    {
      var key := Key(events[i]);
      TracksNext(events, i, latest);
      if key.Some? {
        var prior := if key.value in latest then Some(latest[key.value]) else None;
        PutOut(events, i, prior);
        if prior.Some? { keep[prior.value] := false; }
        latest := latest[key.value := i];
      }
      i := i + 1;
    }
  }

  lemma LatestFrom(events: seq<Event>, i: nat)
    requires i < |events|
    ensures Latest(events[i..]) ==
      if Key(events[i]).Some? && Keyed(events[i + 1..], Key(events[i]).value) then Latest(events[i + 1..])
      else [events[i]] + Latest(events[i + 1..])
  {
    assert events[i..][1..] == events[i + 1..];
  }

  // Event `j` is the last one before `i` under the key.
  ghost predicate LastOf(events: seq<Event>, i: nat, key: string, j: nat)
    requires i <= |events|
  {
    j < i && Key(events[j]) == Some(key) && forall m :: j < m < i ==> Key(events[m]) != Some(key)
  }

  ghost predicate Tracks(events: seq<Event>, i: nat, latest: map<string, nat>)
    requires i <= |events|
  {
    && (forall key :: key in latest ==> LastOf(events, i, key, latest[key]))
    && (forall key :: key in latest <==> Keyed(events[..i], key))
  }

  lemma TracksNext(events: seq<Event>, i: nat, latest: map<string, nat>)
    requires i < |events| && Tracks(events, i, latest)
    ensures Tracks(events, i + 1, if Key(events[i]).Some? then latest[Key(events[i]).value := i] else latest)
  {
    var next := if Key(events[i]).Some? then latest[Key(events[i]).value := i] else latest;
    forall key | key in next ensures LastOf(events, i + 1, key, next[key]) {
      if Key(events[i]) != Some(key) { LastOfNext(events, i, key, latest[key]); }
    }
    KeyedNext(events, i);
  }

  lemma LastOfNext(events: seq<Event>, i: nat, key: string, j: nat)
    requires i < |events| && LastOf(events, i, key, j) && Key(events[i]) != Some(key)
    ensures LastOf(events, i + 1, key, j)
  {
  }

  // Event `j` has no successor under its key before `i`.
  ghost predicate Survives(events: seq<Event>, i: nat, j: nat)
    requires i <= |events| && j < |events|
  {
    Key(events[j]).None? || forall m :: j < m < i ==> Key(events[m]) != Key(events[j])
  }

  lemma KeyedNext(events: seq<Event>, i: nat)
    requires i < |events|
    ensures forall k :: Keyed(events[..i + 1], k) <==> Keyed(events[..i], k) || Key(events[i]) == Some(k)
  {
    forall k ensures Keyed(events[..i + 1], k) <==> Keyed(events[..i], k) || Key(events[i]) == Some(k) {
      if Keyed(events[..i], k) {
        var m :| 0 <= m < i && Key(events[..i][m]) == Some(k);
        assert events[..i + 1][m] == events[m];
      }
      if Key(events[i]) == Some(k) { assert events[..i + 1][i] == events[i]; }
    }
  }

  // A new record under the key of an earlier one puts out exactly that one.
  lemma SurvivesNext(events: seq<Event>, i: nat, j: nat, prior: Option<nat>)
    requires i < |events| && j < |events| && Key(events[i]).Some?
    requires prior.Some? ==> LastOf(events, i, Key(events[i]).value, prior.value)
    requires prior.None? ==> !Keyed(events[..i], Key(events[i]).value)
    ensures Survives(events, i + 1, j) <==> Survives(events, i, j) && prior != Some(j)
  {
    assert j < i ==> events[..i][j] == events[j];
  }

  lemma PutOut(events: seq<Event>, i: nat, prior: Option<nat>)
    requires i < |events| && Key(events[i]).Some?
    requires prior.Some? ==> LastOf(events, i, Key(events[i]).value, prior.value)
    requires prior.None? ==> !Keyed(events[..i], Key(events[i]).value)
    ensures forall j :: 0 <= j < |events| ==> (Survives(events, i + 1, j) <==> Survives(events, i, j) && prior != Some(j))
  {
    forall j | 0 <= j < |events| ensures Survives(events, i + 1, j) <==> Survives(events, i, j) && prior != Some(j) {
      SurvivesNext(events, i, j, prior);
    }
  }

  lemma SurvivesIff(events: seq<Event>, j: nat)
    requires j < |events|
    ensures Survives(events, |events|, j) <==> !(Key(events[j]).Some? && Keyed(events[j + 1..], Key(events[j]).value))
  {
    var rest := events[j + 1..];
    assert forall m :: j < m < |events| ==> rest[m - j - 1] == events[m];
  }

  /// What the context keeps

  // The events without a usable key, and those under one key.
  function Keyless(events: seq<Event>): seq<Event> {
    if events == [] then []
    else (if Key(events[0]).None? then [events[0]] else []) + Keyless(events[1..])
  }

  function Under(events: seq<Event>, key: string): seq<Event> {
    if events == [] then []
    else (if Key(events[0]) == Some(key) then [events[0]] else []) + Under(events[1..], key)
  }

  ghost predicate Subsequence(s: seq<Event>, t: seq<Event>)
    decreases |t|
  {
    s == [] || (t != [] && ((s[0] == t[0] && Subsequence(s[1..], t[1..])) || Subsequence(s, t[1..])))
  }

  lemma {:induction false} UnderIffKeyed(events: seq<Event>, key: string)
    ensures Under(events, key) != [] <==> Keyed(events, key)
  {
    if events != [] {
      UnderIffKeyed(events[1..], key);
      assert forall m :: 0 < m < |events| ==> events[m] == events[1..][m - 1];
    }
  }

  lemma {:induction false} KeepsOrder(events: seq<Event>)
    ensures Subsequence(Latest(events), events)
  {
    if events != [] {
      KeepsOrder(events[1..]);
      assert ([events[0]] + Latest(events[1..]))[1..] == Latest(events[1..]);
    }
  }

  lemma {:induction false} KeepsKeyless(events: seq<Event>)
    ensures Keyless(Latest(events)) == Keyless(events)
  {
    if events != [] {
      KeepsKeyless(events[1..]);
      assert ([events[0]] + Latest(events[1..]))[1..] == Latest(events[1..]);
    }
  }

  lemma {:induction false} KeepsLastUnder(events: seq<Event>, key: string)
    ensures var under := Under(events, key);
      Under(Latest(events), key) == if under == [] then [] else [under[|under| - 1]]
  {
    if events != [] {
      KeepsLastUnder(events[1..], key);
      UnderIffKeyed(events[1..], key);
      assert ([events[0]] + Latest(events[1..]))[1..] == Latest(events[1..]);
    }
  }

  lemma {:induction false} Idempotent(events: seq<Event>)
    ensures Latest(Latest(events)) == Latest(events)
  {
    if events != [] {
      var rest := Latest(events[1..]);
      Idempotent(events[1..]);
      assert ([events[0]] + rest)[1..] == rest;
      if Key(events[0]).Some? {
        var key := Key(events[0]).value;
        KeepsLastUnder(events[1..], key);
        UnderIffKeyed(events[1..], key);
        UnderIffKeyed(rest, key);
      }
    }
  }

  function Without(events: seq<Event>, key: string): seq<Event> {
    if events == [] then []
    else (if Key(events[0]) == Some(key) then [] else [events[0]]) + Without(events[1..], key)
  }

  // A later record takes the place of the earlier one under its key and leaves everything else alone.
  lemma {:induction false} LatestAppend(events: seq<Event>, e: Event)
    ensures Latest(events + [e]) == (if Key(e).Some? then Without(Latest(events), Key(e).value) else Latest(events)) + [e]
  {
    if events == [] {
      assert [e][1..] == [] && events + [e] == [e];
    } else {
      var head, tail := events[0], events[1..];
      LatestAppend(tail, e);
      assert (events + [e])[1..] == tail + [e];
      assert ([head] + Latest(tail))[1..] == Latest(tail);
      if Key(head).Some? { KeyedAppend(tail, e, Key(head).value); }
      if Key(e).Some? { WithoutHead(head, Latest(tail), Key(e).value); }
    }
  }

  lemma WithoutHead(head: Event, rest: seq<Event>, key: string)
    ensures Without([head] + rest, key) == (if Key(head) == Some(key) then [] else [head]) + Without(rest, key)
  {
    assert ([head] + rest)[1..] == rest;
  }

  lemma KeyedAppend(events: seq<Event>, e: Event, key: string)
    ensures Keyed(events + [e], key) <==> Keyed(events, key) || Key(e) == Some(key)
  {
    var all := events + [e];
    if Keyed(events, key) {
      var m :| 0 <= m < |events| && Key(events[m]) == Some(key);
      assert all[m] == events[m];
    }
    assert all[|events|] == e;
  }

  /// The parent's context after a child has ended

  predicate AllowedDelegation(e: Event) {
    e.ToolCallRecorded? && e.payload.Some? && e.payload.value.delegate && e.payload.value.decision == Allow
  }

  // The position of the last allowed delegation, if there is one.
  function LastDelegation(events: seq<Event>): (at: Option<nat>)
    ensures at.Some? ==> at.value < |events| && AllowedDelegation(events[at.value])
  {
    if events == [] then None
    else if AllowedDelegation(events[|events| - 1]) then Some(|events| - 1)
    else LastDelegation(events[..|events| - 1])
  }

  // A record that does not decode stops the update.
  predicate Undecodable(events: seq<Event>) {
    exists i :: 0 <= i < |events| && events[i].ToolCallRecorded? && events[i].payload.None?
  }

  function Updated(p: Payload, child: Id, status: RunStatus, body: string): Event {
    ToolCallRecorded(Some(p.(output := Delegation(child, status, body))))
  }

  // The delegation found is a record of a delegating tool that was allowed, and no later record is.
  lemma {:induction false} LastDelegationIsLast(events: seq<Event>)
    ensures var at := LastDelegation(events);
      forall i :: 0 <= i < |events| && (at.None? || at.value < i) ==>
        !(events[i].ToolCallRecorded? && events[i].payload.Some?
          && events[i].payload.value.delegate && events[i].payload.value.decision == Allow)
    ensures var at := LastDelegation(events);
      at.Some? ==> events[at.value].ToolCallRecorded? && events[at.value].payload.Some?
                   && events[at.value].payload.value.delegate && events[at.value].payload.value.decision == Allow
  {
    if events != [] && !AllowedDelegation(events[|events| - 1]) { LastDelegationIsLast(events[..|events| - 1]); }
  }

  // Only a record whose payload does not decode stops the update, wherever it stands.
  lemma UndecodableIff(events: seq<Event>)
    ensures Undecodable(events) <==> ToolCallRecorded(None) in events
  {
    if ToolCallRecorded(None) in events {
      var i :| 0 <= i < |events| && events[i] == ToolCallRecorded(None);
    }
  }

  class ParentJournal {
    var events: seq<Event>

    method AppendUpdatedParentSpawnResult(child: Id, status: RunStatus, body: string) returns (ok: bool)
      modifies this
      ensures ok <==> !Undecodable(old(events))
      ensures !ok || LastDelegation(old(events)).None? ==> events == old(events)
      ensures ok && LastDelegation(old(events)).Some? ==>
        events == old(events) + [Updated(old(events)[LastDelegation(old(events)).value].payload.value, child, status, body)]
    {
      LastDelegationIsLast(events);
      var found: Option<Payload> := None;
      var i := 0;
      while i < |events|
        invariant 0 <= i <= |events| && events == old(events)
        invariant !Undecodable(events[..i])
        invariant found.Some? <==> LastDelegation(events[..i]).Some?
        invariant found.Some? ==> events[LastDelegation(events[..i]).value] == ToolCallRecorded(found)
      {
        assert events[..i + 1][..i] == events[..i];
        var e := events[i];
        if e.ToolCallRecorded? {
          if e.payload.None? {
            assert Undecodable(events);
            return false;
          }
          if e.payload.value.delegate && e.payload.value.decision == Allow { found := e.payload; }
        }
        i := i + 1;
      }
      assert events[..|events|] == events;
      if found.Some? { events := events + [Updated(found.value, child, status, body)]; }
      return true;
    }
  }

  lemma {:induction false} UnderWithout(events: seq<Event>, key: string, other: string)
    ensures Under(Without(events, key), other) == if other == key then [] else Under(events, other)
  {
    if events != [] {
      var rest := Without(events[1..], key);
      UnderWithout(events[1..], key, other);
      assert ([events[0]] + rest)[1..] == rest && [] + rest == rest;
    }
  }

  lemma {:induction false} UnderAppend(events: seq<Event>, e: Event, key: string)
    ensures Under(events + [e], key) == Under(events, key) + if Key(e) == Some(key) then [e] else []
  {
    if events == [] {
      assert events + [e] == [e] && [e][1..] == [];
    } else {
      UnderAppend(events[1..], e, key);
      assert (events + [e])[1..] == events[1..] + [e];
    }
  }

  // After a child has ended, the parent's reloaded context has exactly one record of its last allowed
  // delegation, it carries the child's status, and every other record is as before.
  lemma ChildResultReplaces(events: seq<Event>, p: Payload, child: Id, status: RunStatus, body: string)
    requires LastDelegation(events).Some? && events[LastDelegation(events).value].payload == Some(p)
    requires TrimSpace(p.callId) != ""
    ensures var e := Updated(p, child, status, body);
      var key := TrimSpace(p.callId);
      var context := Latest(events + [e]);
      && Under(context, key) == [e] && e.payload.value.output == Delegation(child, status, body)
      && context == Without(Latest(events), key) + [e]
      && (forall other :: other != key ==> Under(context, other) == Under(Latest(events), other))
  {
    var e := Updated(p, child, status, body);
    var key := TrimSpace(p.callId);
    LatestAppend(events, e);
    UnderWithout(Latest(events), key, key);
    UnderAppend(Without(Latest(events), key), e, key);
    forall other | other != key ensures Under(Latest(events + [e]), other) == Under(Latest(events), other) {
      UnderWithout(Latest(events), key, other);
      UnderAppend(Without(Latest(events), key), e, other);
    }
  }

  // The update replaces the earlier record if and only if the call has a usable identifier: with a blank
  // one both stay in the context.
  lemma ChildResultReplacesIff(events: seq<Event>, p: Payload, child: Id, status: RunStatus, body: string)
    requires ToolCallRecorded(Some(p)) in events
    ensures var context := Latest(events + [Updated(p, child, status, body)]);
      p.output == Delegation(child, status, body)
      || (ToolCallRecorded(Some(p)) !in context <==> TrimSpace(p.callId) != "")
  {
    var e, before := Updated(p, child, status, body), ToolCallRecorded(Some(p));
    LatestAppend(events, e);
    if TrimSpace(p.callId) != "" {
      WithoutHasNone(Latest(events), TrimSpace(p.callId));
    } else {
      KeylessStays(events, before);
    }
  }

  lemma {:induction false} WithoutHasNone(events: seq<Event>, key: string)
    ensures forall e :: e in Without(events, key) ==> Key(e) != Some(key)
  {
    if events != [] { WithoutHasNone(events[1..], key); }
  }

  lemma {:induction false} KeylessStays(events: seq<Event>, e: Event)
    requires e in events && Key(e).None?
    ensures e in Latest(events)
  {
    if e != events[0] { KeylessStays(events[1..], e); }
  }
}
