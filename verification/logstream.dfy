/**
 The log sink: a byte stream cut into lines, each parsed into a numbered entry, the latest of which are
 kept and can be filtered. What a line is parsed into, and which entries a query matches, are parameters.
 */
module LogStream {
  import opened Basics
  import opened LineSplit

  datatype Entry<T> = Entry(id: nat, record: T)

  // A blank line is parsed into nothing.
  type Parser<!T> = string -> Option<T>

  function LastOf<T>(s: seq<T>, n: nat): seq<T> {
    if |s| > n then s[|s| - n..] else s
  }

  // The entries ever appended, numbered from one.
  function Numbered<T>(records: seq<T>): seq<Entry<T>> {
    seq(|records|, i requires 0 <= i < |records| => Entry(i + 1, records[i]))
  }

  // What the lines, without their newlines, come to.
  function Parsed<T>(parse: Parser<T>, lines: seq<string>): seq<T> {
    if lines == [] then [] else
    var line := lines[|lines| - 1];
    var record := parse(if line == "" then "" else line[..|line| - 1]);
    if record.Some? then Parsed(parse, lines[..|lines| - 1]) + [record.value] else Parsed(parse, lines[..|lines| - 1])
  }

  function Matching<T>(matches: T -> bool, entries: seq<Entry<T>>): seq<Entry<T>> {
    if entries == [] then [] else
    var last := entries[|entries| - 1];
    if matches(last.record) then Matching(matches, entries[..|entries| - 1]) + [last] else Matching(matches, entries[..|entries| - 1])
  }

  function SnapshotLimit(limit: int): (n: nat)
    ensures 0 < n <= 500 && (0 < limit <= 500 ==> n == limit) && (limit <= 0 ==> n == 200) && (limit > 500 ==> n == 500)
  {
    if limit <= 0 then 200 else if limit > 500 then 500 else limit
  }

  // All that was appended, and the unfinished line.
  datatype Log<T> = Log(records: seq<T>, buffer: string)

  function Written<T>(parse: Parser<T>, s: Log<T>, p: string): Log<T> {
    Log(s.records + Parsed(parse, Lines(s.buffer + p)), Rest(s.buffer + p))
  }

  class Sink<T> {
    const parse: Parser<T>
    const maxEntries: nat
    var nextID: nat
    var buffer: string
    var entries: seq<Entry<T>>
    ghost var records: seq<T>

    ghost function Contents(): Log<T>
      reads this
    {
      Log(records, buffer)
    }

    // The sink keeps the latest entries, numbered without a gap.
    ghost predicate Valid()
      reads this
    {
      nextID == |records| && entries == LastOf(Numbered(records), maxEntries) && maxEntries > 0
    }

    constructor (p: Parser<T>, max: int)
      ensures Valid() && parse == p && maxEntries == (if max <= 0 then 500 else max) && Contents() == Log([], "")
    {
      parse, maxEntries := p, if max <= 0 then 500 else max;
      nextID, buffer, entries, records := 0, "", [], [];
    }

    method Append(record: T)
      requires Valid()
      modifies this
      ensures Valid() && Contents() == old(Contents()).(records := old(Contents()).records + [record])
    {
      NumberedNext(records, record, maxEntries);
      nextID := nextID + 1;
      entries := entries + [Entry(nextID, record)];
      if |entries| > maxEntries { entries := entries[|entries| - maxEntries..]; }
      records := records + [record];
    }

    // One line, without its newline.
    method AppendLine(line: string)
      requires Valid()
      modifies this
      ensures Valid() && buffer == old(buffer)
      ensures records == if parse(line).Some? then old(records) + [parse(line).value] else old(records)
    {
      var parsed := parse(line);
      if parsed.Some? { Append(parsed.value); }
    }

    method Write(p: string) returns (n: nat)
      requires Valid()
      modifies this
      ensures Valid() && n == |p|
      ensures Contents() == Written(parse, old(Contents()), p)
    {
      buffer := buffer + p;
      ghost var data := buffer;
      ghost var done: seq<string> := [];
      var idx := IndexNewline(buffer);
      while idx >= 0
        invariant Valid()
        invariant idx == if FirstNewline(buffer) == |buffer| then -1 else FirstNewline(buffer)
        invariant done + Lines(buffer) == Lines(data) && Rest(buffer) == Rest(data)
        invariant records == old(records) + Parsed(parse, done)
        decreases |buffer|
      {
        ghost var line := buffer[..idx + 1];
        ghost var before := records;
        Peel(Lines(data), Rest(data), done, buffer, idx);
        var text := buffer[..idx];
        assert line[..idx] == text;
        buffer := buffer[idx + 1..];
        AppendLine(text);
        ParsedStep(parse, old(records), done, line, before, records);
        done := done + [line];
        idx := IndexNewline(buffer);
      }
      Peeled(Lines(data), Rest(data), done, buffer);
      return |p|;
    }

    // The latest matching entries of those kept, oldest first.
    method Snapshot(matches: T -> bool, limit: int) returns (result: seq<Entry<T>>)
      requires Valid()
      ensures var found := Matching(matches, LastOf(Numbered(records), maxEntries));
        var most := if limit <= 0 then 200 else if limit > 500 then 500 else limit;
        result == if |found| <= most then found else found[|found| - most..]
    {
      var filtered := [];
      for i := 0 to |entries|
        invariant filtered == Matching(matches, entries[..i])
      {
        assert entries[..i + 1][..i] == entries[..i];
        if matches(entries[i].record) { filtered := filtered + [entries[i]]; }
      }
      assert entries[..|entries|] == entries;
      var most := if limit <= 0 then 200 else if limit > 500 then 500 else limit;
      result := if |filtered| > most then filtered[|filtered| - most..] else filtered;
    }
  }

  lemma NumberedNext<T>(records: seq<T>, record: T, max: nat)
    requires max > 0
    ensures Numbered(records + [record]) == Numbered(records) + [Entry(|records| + 1, record)]
    ensures LastOf(Numbered(records + [record]), max) ==
      LastOf(LastOf(Numbered(records), max) + [Entry(|records| + 1, record)], max)
  {
    assert Numbered(records + [record]) == Numbered(records) + [Entry(|records| + 1, record)];
  }

  lemma ParsedStep<T>(parse: Parser<T>, base: seq<T>, done: seq<string>, line: string, before: seq<T>, now: seq<T>)
    requires line != "" && before == base + Parsed(parse, done)
    requires var record := parse(line[..|line| - 1]); now == if record.Some? then before + [record.value] else before
    ensures now == base + Parsed(parse, done + [line])
  {
    assert (done + [line])[..|done|] == done;
  }

  lemma {:induction false} ParsedConcat<T>(parse: Parser<T>, a: seq<string>, b: seq<string>)
    ensures Parsed(parse, a + b) == Parsed(parse, a) + Parsed(parse, b)
    decreases |b|
  {
    if b == [] {
      assert a + b == a;
    } else {
      assert (a + b)[..|a + b| - 1] == a + b[..|b| - 1];
      ParsedConcat(parse, a, b[..|b| - 1]);
    }
  }

  /// The cuts between writes do not matter

  function WrittenAll<T>(parse: Parser<T>, s: Log<T>, chunks: seq<string>): Log<T>
    decreases |chunks|
  {
    if chunks == [] then s else WrittenAll(parse, Written(parse, s, chunks[0]), chunks[1..])
  }

  lemma WrittenTwice<T>(parse: Parser<T>, s: Log<T>, p: string, q: string)
    ensures Written(parse, Written(parse, s, p), q) == Written(parse, s, p + q)
  {
    var data := s.buffer + p;
    SplitAppend(data, q);
    assert data + q == s.buffer + (p + q);
    ParsedConcat(parse, Lines(data), Lines(Rest(data) + q));
    Associative(s.records, Parsed(parse, Lines(data)), Parsed(parse, Lines(Rest(data) + q)));
  }

  // A sink that holds an unfinished line is unchanged by writing nothing.
  lemma WrittenNothing<T>(parse: Parser<T>, s: Log<T>)
    requires '\n' !in s.buffer
    ensures Written(parse, s, "") == s
  {
    NoNewline(s.buffer);
    assert s.buffer + "" == s.buffer;
  }

  // However a stream is cut into writes, the entries and the leftover are those of one write.
  lemma {:induction false} ChunksIrrelevant<T>(parse: Parser<T>, s: Log<T>, chunks: seq<string>)
    requires '\n' !in s.buffer
    ensures WrittenAll(parse, s, chunks) == Written(parse, s, Join(chunks))
    decreases |chunks|
  {
    if chunks == [] {
      WrittenNothing(parse, s);
    } else {
      SplitAtNewlines(s.buffer + chunks[0]);
      ChunksIrrelevant(parse, Written(parse, s, chunks[0]), chunks[1..]);
      WrittenTwice(parse, s, chunks[0], Join(chunks[1..]));
    }
  }

  // Two cuts of the same bytes leave the same log.
  lemma SameBytesSameLog<T>(parse: Parser<T>, a: seq<string>, b: seq<string>)
    requires Join(a) == Join(b)
    ensures WrittenAll(parse, Log([], ""), a) == WrittenAll(parse, Log([], ""), b)
  {
    ChunksIrrelevant(parse, Log([], ""), a);
    ChunksIrrelevant(parse, Log([], ""), b);
  }

  lemma {:induction false} MatchingExact<T>(matches: T -> bool, entries: seq<Entry<T>>, e: Entry<T>)
    ensures e in Matching(matches, entries) <==> e in entries && matches(e.record)
    ensures |Matching(matches, entries)| <= |entries|
  {
    if entries != [] { MatchingExact(matches, entries[..|entries| - 1], e); }
  }

  // A snapshot holds consecutive matches: an entry that matches and is kept is left out only if the limit
  // is already filled by later ones.
  lemma {:induction false} SnapshotLatest<T>(matches: T -> bool, records: seq<T>, max: nat, limit: int, i: nat)
    requires i < |records| && i + max >= |records| && matches(records[i])
    ensures var kept := LastOf(Numbered(records), max);
      var shown := LastOf(Matching(matches, kept), SnapshotLimit(limit));
      Entry(i + 1, records[i]) in shown
      || (|shown| == SnapshotLimit(limit) && forall e :: e in shown ==> e.id > i + 1)
  {
    var kept := LastOf(Numbered(records), max);
    var all := Matching(matches, kept);
    var e := Entry(i + 1, records[i]);
    assert Numbered(records)[i] == e;
    assert kept[i - (|records| - |kept|)] == e;
    MatchingExact(matches, kept, e);
    var n := SnapshotLimit(limit);
    if |all| > n && e !in all[|all| - n..] {
      MatchingAscends(matches, kept);
      CutOff(all, n, e);
    }
  }

  lemma CutOff<T>(all: seq<Entry<T>>, n: nat, e: Entry<T>)
    requires Ascends(all) && |all| > n && e in all && e !in all[|all| - n..]
    ensures forall x :: x in all[|all| - n..] ==> x.id > e.id
  {
  }

  ghost predicate Ascends<T>(entries: seq<Entry<T>>) {
    forall i, j :: 0 <= i < j < |entries| ==> entries[i].id < entries[j].id
  }

  lemma {:induction false} MatchingAscends<T>(matches: T -> bool, entries: seq<Entry<T>>)
    requires Ascends(entries)
    ensures Ascends(Matching(matches, entries))
  {
    if entries != [] {
      var front, last := entries[..|entries| - 1], entries[|entries| - 1];
      MatchingAscends(matches, front);
      forall e | e in Matching(matches, front) ensures e.id < last.id { MatchingExact(matches, front, e); }
    }
  }
}
