/**
 The writer that captures a command's output: every byte goes to the capture buffer, and complete lines
 go to a log sink that may refuse a record.
 */
module Capture {
  import opened LineSplit

  class StreamCaptureWriter {
    const hasSink: bool
    // Whether the sink accepts its n-th record.
    const accepts: nat -> bool
    var attempts: nat
    var buffer: string
    var pending: string
    var records: seq<string>

    // Records and pending bytes together are the captured bytes, and no record runs past a newline.
    ghost predicate Valid()
      reads this
    {
      && (hasSink ==> Join(records) + pending == buffer)
      && (!hasSink ==> records == [] && pending == "")
      && (forall r :: r in records ==> OnePiece(r))
    }

    constructor (sink: bool, ok: nat -> bool)
      ensures Valid() && hasSink == sink && accepts == ok
      ensures buffer == "" && pending == "" && records == [] && attempts == 0
    {
      hasSink, accepts := sink, ok;
      attempts, buffer, pending, records := 0, "", "", [];
    }

    // Offers the first `n` pending bytes to the sink, and drops them if it takes them.
    method RecordFirst(n: nat) returns (ok: bool)
      requires Valid() && hasSink && 0 < n <= |pending| && '\n' !in pending[..n - 1]
      modifies this`attempts, this`records, this`pending
      ensures Valid()
      ensures ok == accepts(old(attempts)) && attempts == old(attempts) + 1
      ensures records == if ok then old(records) + [old(pending)[..n]] else old(records)
      ensures pending == if ok then old(pending)[n..] else old(pending)
    {
      var chunk := pending[..n];
      ok := accepts(attempts);
      attempts := attempts + 1;
      if !ok { return; }
      assert chunk[..|chunk| - 1] == pending[..n - 1];
      JoinNext(records, chunk);
      Associative(Join(records), chunk, pending[n..]);
      assert pending == chunk + pending[n..];
      records := records + [chunk];
      pending := pending[n..];
    }

    method FlushLines(includePartial: bool) returns (ok: bool)
      requires Valid()
      modifies this`attempts, this`records, this`pending
      ensures Valid()
      ensures !ok ==> exists n :: old(attempts) <= n < attempts && !accepts(n)
      ensures ok && hasSink && !includePartial ==> records == old(records) + Lines(old(pending)) && pending == Rest(old(pending))
      ensures ok && hasSink && includePartial ==>
        && pending == ""
        && records == old(records) + Lines(old(pending)) + (if Rest(old(pending)) == "" then [] else [Rest(old(pending))])
    {
      if !hasSink { return true; }
      ghost var data := pending;
      ghost var done: seq<string> := [];
      while true
        invariant Valid() && buffer == old(buffer) && attempts >= old(attempts)
        invariant records == old(records) + done
        invariant done + Lines(pending) == Lines(data) && Rest(pending) == Rest(data)
        decreases |pending|
      {
        var idx := IndexNewline(pending);
        var whole := pending;
        NoNewline(whole);
        ghost var partial := idx < 0;
        if idx < 0 {
          Peeled(Lines(data), Rest(data), done, whole);
          if !includePartial || |whole| == 0 { return true; }
          idx := |whole| - 1;
        } else {
          Peel(Lines(data), Rest(data), done, whole, idx);
        }
        var recorded := RecordFirst(idx + 1);
        if !recorded { return false; }
        if !partial { done := done + [whole[..idx + 1]]; }
        if idx >= |whole| - 1 {
          if partial { assert whole[..idx + 1] == whole; } else { Peeled(Lines(data), Rest(data), done, pending); }
          return true;
        }
      }
    }

    // A write that succeeds has recorded every complete line and kept the rest; whatever the sink does, all
    // bytes are captured and none is lost between records and pending.
    method Write(p: string) returns (n: nat, ok: bool)
      requires Valid()
      modifies this
      ensures Valid() && buffer == old(buffer) + p
      ensures n == if ok then |p| else 0
      ensures p == "" ==> ok && records == old(records) && pending == old(pending) && attempts == old(attempts)
      ensures ok && hasSink && p != "" ==>
        records == old(records) + Lines(old(pending) + p) && pending == Rest(old(pending) + p)
    {
      if |p| == 0 {
        assert buffer + p == buffer;
        return 0, true;
      }
      buffer := buffer + p;
      if !hasSink { return |p|, true; }
      pending := pending + p;
      assert Join(records) + pending == buffer;
      ok := FlushLines(false);
      n := if ok then |p| else 0;
    }

    method Flush() returns (ok: bool)
      requires Valid()
      modifies this`attempts, this`records, this`pending
      ensures Valid()
      ensures ok && hasSink ==> pending == "" && Join(records) == buffer
    {
      ok := FlushLines(true);
      assert ok && hasSink ==> Join(records) + "" == Join(records);
    }
  }

  lemma {:induction false} JoinNext(records: seq<string>, chunk: string)
    ensures Join(records + [chunk]) == Join(records) + chunk
  {
    if records == [] {
      assert records + [chunk] == [chunk] && Join([chunk]) == chunk + Join([]);
    } else {
      JoinNext(records[1..], chunk);
      assert (records + [chunk])[1..] == records[1..] + [chunk];
    }
  }

  // Captured in any number of writes to a willing sink, a stream becomes one record per line.
  function Captured(pending: string, records: seq<string>, chunks: seq<string>): (string, seq<string>)
    decreases |chunks|
  {
    if chunks == [] then (pending, records)
    else Captured(Rest(pending + chunks[0]), records + Lines(pending + chunks[0]), chunks[1..])
  }

  lemma {:induction false} OneRecordPerLine(pending: string, records: seq<string>, chunks: seq<string>)
    requires '\n' !in pending
    ensures Captured(pending, records, chunks) == (Rest(pending + Join(chunks)), records + Lines(pending + Join(chunks)))
    decreases |chunks|
  {
    if chunks == [] {
      NoNewline(pending);
      assert pending + "" == pending && records + [] == records;
    } else {
      var data, more := pending + chunks[0], Join(chunks[1..]);
      SplitAtNewlines(data);
      OneRecordPerLine(Rest(data), records + Lines(data), chunks[1..]);
      SplitAppend(data, more);
      assert data + more == pending + Join(chunks);
      Associative(records, Lines(data), Lines(Rest(data) + more));
    }
  }
}
