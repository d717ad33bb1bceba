/** Cutting a byte stream into lines: the complete lines, each with its newline, and what is left over. */
module LineSplit {
  // The position of the first newline, or the length of the data.
  function FirstNewline(data: string): (k: nat)
    ensures k <= |data|
  {
    if data == "" || data[0] == '\n' then 0 else 1 + FirstNewline(data[1..])
  }

  function Lines(data: string): seq<string>
    decreases |data|
  {
    var k := FirstNewline(data);
    if k == |data| then [] else [data[..k + 1]] + Lines(data[k + 1..])
  }

  function Rest(data: string): string
    decreases |data|
  {
    var k := FirstNewline(data);
    if k == |data| then data else Rest(data[k + 1..])
  }

  function Join(pieces: seq<string>): string {
    if pieces == [] then "" else pieces[0] + Join(pieces[1..])
  }

  // A piece with nothing after its first newline; a line also ends in it.
  ghost predicate OnePiece(piece: string) {
    piece != "" && '\n' !in piece[..|piece| - 1]
  }

  ghost predicate OneLine(line: string) {
    OnePiece(line) && line[|line| - 1] == '\n'
  }

  method IndexNewline(data: string) returns (k: int)
    ensures k == if FirstNewline(data) == |data| then -1 else FirstNewline(data)
  {
    for i := 0 to |data|
      invariant '\n' !in data[..i]
    {
      if data[i] == '\n' {
        FirstIs(data, i);
        return i;
      }
    }
    NoNewline(data);
    return -1;
  }

  lemma {:induction false} FirstIs(data: string, k: nat)
    requires k < |data| && data[k] == '\n' && '\n' !in data[..k]
    ensures FirstNewline(data) == k
  {
    if k > 0 {
      assert data[..k][0] == data[0] && data[..k][1..] == data[1..][..k - 1];
      FirstIs(data[1..], k - 1);
    }
  }

  lemma {:induction false} NoNewline(data: string)
    ensures '\n' !in data[..FirstNewline(data)]
    ensures FirstNewline(data) < |data| ==> data[FirstNewline(data)] == '\n'
    ensures '\n' !in data <==> FirstNewline(data) == |data|
  {
    if data != "" && data[0] != '\n' {
      NoNewline(data[1..]);
      assert data[..FirstNewline(data)] == [data[0]] + data[1..][..FirstNewline(data[1..])];
      assert data == [data[0]] + data[1..];
    }
  }

  lemma {:induction false} FirstAppend(a: string, b: string)
    ensures FirstNewline(a) < |a| ==> FirstNewline(a + b) == FirstNewline(a)
  {
    if a != "" && a[0] != '\n' {
      assert (a + b)[1..] == a[1..] + b;
      FirstAppend(a[1..], b);
    }
  }

  lemma Associative<T>(a: seq<T>, b: seq<T>, c: seq<T>)
    ensures a + b + c == a + (b + c)
  {
  }

  // Taking the first line off what is left to cut.
  lemma Peel(all: seq<string>, rest: string, done: seq<string>, left: string, k: nat)
    requires done + Lines(left) == all && Rest(left) == rest && k == FirstNewline(left) < |left|
    ensures (done + [left[..k + 1]]) + Lines(left[k + 1..]) == all && Rest(left[k + 1..]) == rest
  {
    Associative(done, [left[..k + 1]], Lines(left[k + 1..]));
  }

  // With no newline left, everything is cut.
  lemma Peeled(all: seq<string>, rest: string, done: seq<string>, left: string)
    requires done + Lines(left) == all && Rest(left) == rest && FirstNewline(left) == |left|
    ensures done == all && left == rest
  {
    assert done + [] == done;
  }

  // Cutting loses nothing,
  lemma {:induction false} SplitWhole(data: string)
    ensures Join(Lines(data)) + Rest(data) == data
    decreases |data|
  {
    var k := FirstNewline(data);
    if k < |data| {
      SplitWhole(data[k + 1..]);
      assert data == data[..k + 1] + data[k + 1..];
      Prepended(data[..k + 1], Lines(data[k + 1..]), Rest(data[k + 1..]));
    }
  }

  // and cuts exactly at the newlines.
  lemma {:induction false} SplitAtNewlines(data: string)
    ensures forall line :: line in Lines(data) ==> OneLine(line)
    ensures '\n' !in Rest(data)
    decreases |data|
  {
    var k := FirstNewline(data);
    NoNewline(data);
    if k < |data| {
      SplitAtNewlines(data[k + 1..]);
      var head := data[..k + 1];
      assert head[..k] == data[..k] && OneLine(head);
      assert Lines(data) == [head] + Lines(data[k + 1..]);
    }
  }

  lemma Prepended(head: string, tail: seq<string>, rest: string)
    ensures Join([head] + tail) + rest == head + (Join(tail) + rest)
  {
    assert ([head] + tail)[1..] == tail;
  }

  // It is the only way to do so.
  lemma {:induction false} SplitUnique(lines: seq<string>, rest: string)
    requires (forall line :: line in lines ==> OneLine(line)) && '\n' !in rest
    ensures Lines(Join(lines) + rest) == lines && Rest(Join(lines) + rest) == rest
    decreases |lines|
  {
    var data := Join(lines) + rest;
    if lines == [] {
      NoNewline(rest);
      assert data == rest;
    } else {
      var head, tail := lines[0], Join(lines[1..]) + rest;
      assert OneLine(head) && data == head + tail;
      assert data[..|head| - 1] == head[..|head| - 1];
      FirstIs(data, |head| - 1);
      assert data[..|head|] == head && data[|head|..] == tail;
      SplitUnique(lines[1..], rest);
    }
  }

  // More data continues the leftover: what was cut stays cut.
  lemma {:induction false} SplitAppend(a: string, b: string)
    ensures Lines(a + b) == Lines(a) + Lines(Rest(a) + b)
    ensures Rest(a + b) == Rest(Rest(a) + b)
    decreases |a|
  {
    var k := FirstNewline(a);
    if k < |a| {
      FirstAppend(a, b);
      SplitAppend(a[k + 1..], b);
      assert (a + b)[..k + 1] == a[..k + 1] && (a + b)[k + 1..] == a[k + 1..] + b;
    }
  }
}
