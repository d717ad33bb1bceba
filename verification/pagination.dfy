/**
 Keyset pagination: a page is a query bounded by a cursor, one row longer than asked for, truncated,
 turned round when it was read backwards, and flagged.
 */
module Pagination {
  import opened Basics
  import opened Ordering

  datatype Direction = Forward | Backward

  datatype Page<K> = Page(items: seq<K>, hasNext: bool, hasPrev: bool, next: Option<K>, prev: Option<K>)

  function Reverse<K>(s: seq<K>): seq<K> {
    seq(|s|, i requires 0 <= i < |s| => s[|s| - 1 - i])
  }

  function Take<K>(s: seq<K>, n: nat): seq<K> {
    if |s| <= n then s else s[..n]
  }

  function PageLimit(limit: int): (n: nat)
    ensures n > 0 && (limit > 0 ==> n == limit) && (limit <= 0 ==> n == 100)
  {
    if limit <= 0 then 100 else limit
  }

  ghost function Flip<K>(lt: (K, K) -> bool): (K, K) -> bool {
    (a, b) => lt(b, a)
  }

  // The rows on the far side of the cursor.
  ghost function Beyond<K(!new)>(lt: (K, K) -> bool, table: set<K>, cursor: Option<K>, backward: bool): set<K> {
    match cursor
    case None => table
    case Some(c) => if backward then set k | k in table && lt(k, c) else set k | k in table && lt(c, k)
  }

  // What the query returns: in order from the cursor outwards, one row more than the limit.
  ghost function Fetch<K(!new)>(lt: (K, K) -> bool, table: set<K>, cursor: Option<K>, backward: bool, n: nat): seq<K>
    requires StrictTotal(lt)
  {
    FlipTotal(lt);
    Take(Sorted(if backward then Flip(lt) else lt, Beyond(lt, table, cursor, backward)), n + 1)
  }

  // The page of sessions, routes or deliveries. Without a cursor the direction only moves the flags.
  function Paged<K>(rows: seq<K>, hasCursor: bool, direction: Direction, n: nat): Page<K> {
    var more := |rows| > n;
    var kept := Take(rows, n);
    var items := if hasCursor && direction == Backward then Reverse(kept) else kept;
    if items == [] then Page([], false, false, None, None) else
    var hasNext := if direction == Backward then hasCursor else more;
    var hasPrev := if direction == Backward then more else hasCursor;
    Page(items, hasNext, hasPrev,
         if hasNext then Some(items[|items| - 1]) else None,
         if hasPrev then Some(items[0]) else None)
  }

  // The page of memory items: backward without a cursor reads from the end, and an empty page keeps
  // its flags.
  function FinalizedMemory<K>(rows: seq<K>, hasCursor: bool, direction: Direction, n: nat): Page<K> {
    var more := |rows| > n;
    var kept := Take(rows, n);
    var items := if direction == Backward then Reverse(kept) else kept;
    Page(items,
         if direction == Backward then hasCursor else more,
         if direction == Backward then more else hasCursor,
         if items == [] then None else Some(items[|items| - 1]),
         if items == [] then None else Some(items[0]))
  }

  function Finish<K>(memory: bool, rows: seq<K>, hasCursor: bool, direction: Direction, n: nat): Page<K> {
    if memory then FinalizedMemory(rows, hasCursor, direction, n) else Paged(rows, hasCursor, direction, n)
  }

  // A page of memory items, or of sessions, routes or deliveries.
  ghost function PageOf<K(!new)>(memory: bool, lt: (K, K) -> bool, table: set<K>, cursor: Option<K>, direction: Direction, limit: int): Page<K>
    requires StrictTotal(lt)
  {
    var n := PageLimit(limit);
    var backward := direction == Backward && (memory || cursor.Some?);
    Finish(memory, Fetch(lt, table, cursor, backward, n), cursor.Some?, direction, n)
  }

  /// The loops

  method ReverseSlice<K>(a: array<K>)
    modifies a
    ensures a[..] == Reverse(old(a[..]))
  {
    var i, j := 0, a.Length - 1;
    while i < j
      invariant 0 <= i <= j + 1 <= a.Length && i + j == a.Length - 1
      invariant forall k :: 0 <= k < i || j < k < a.Length ==> a[k] == old(a[..])[a.Length - 1 - k]
      invariant forall k :: i <= k <= j ==> a[k] == old(a[..])[k]
    {
      a[i], a[j] := a[j], a[i];
      i, j := i + 1, j - 1;
    }
  }

  method BuildPage<K(0)>(rows: seq<K>, hasCursor: bool, direction: Direction, n: nat) returns (page: Page<K>)
    ensures page == Paged(rows, hasCursor, direction, n)
  {
    var kept := if |rows| > n then rows[..n] else rows;
    var list := new K[|kept|];
    var i := 0;
    while i < |kept|
      invariant 0 <= i <= |kept|
      invariant list[..i] == kept[..i]
    {
      list[i] := kept[i];
      i := i + 1;
    }
    assert list[..] == kept;
    if hasCursor && direction == Backward { ReverseSlice(list); }
    page := Page(list[..], false, false, None, None);
    if list.Length == 0 { return; }
    if hasCursor {
      if direction == Backward { page := page.(hasNext := true); } else { page := page.(hasPrev := true); }
    }
    if |rows| > n {
      if direction == Backward { page := page.(hasPrev := true); } else { page := page.(hasNext := true); }
    }
    if page.hasPrev { page := page.(prev := Some(list[0])); }
    if page.hasNext { page := page.(next := Some(list[list.Length - 1])); }
  }

  /// Order, read both ways

  lemma FlipTotal<K(!new)>(lt: (K, K) -> bool)
    requires StrictTotal(lt)
    ensures StrictTotal(Flip(lt))
  {
  }

  lemma ReverseElements<K>(s: seq<K>)
    ensures Elements(Reverse(s)) == Elements(s)
  {
    var r := Reverse(s);
    forall x ensures x in Elements(r) <==> x in Elements(s) {
      if x in r { var i :| 0 <= i < |r| && r[i] == x; assert s[|s| - 1 - i] == x; }
      if x in s { var i :| 0 <= i < |s| && s[i] == x; assert r[|s| - 1 - i] == x; }
    }
  }

  lemma SortedFlip<K(!new)>(lt: (K, K) -> bool, rows: set<K>)
    requires StrictTotal(lt)
    ensures StrictTotal(Flip(lt)) && Sorted(Flip(lt), rows) == Reverse(Sorted(lt, rows))
  {
    FlipTotal(lt);
    SortedIsListing(lt, rows);
    SortedIsListing(Flip(lt), rows);
    ReverseElements(Sorted(lt, rows));
    AscendingUnique(Flip(lt), Sorted(Flip(lt), rows), Reverse(Sorted(lt, rows)));
  }

  lemma AscendingSlice<K(!new)>(lt: (K, K) -> bool, s: seq<K>, lo: nat, hi: nat)
    requires Ascending(lt, s) && lo <= hi <= |s|
    ensures Ascending(lt, s[lo..hi])
  {
  }

  // Which side of row `i` a row is on decides how it compares.
  lemma Sides<K(!new)>(lt: (K, K) -> bool, all: seq<K>, i: nat, x: K)
    requires StrictTotal(lt) && Ascending(lt, all) && i < |all|
    ensures x in all[i + 1..] <==> x in all && lt(all[i], x)
    ensures x in all[..i] <==> x in all && lt(x, all[i])
  {
    if x in all {
      var j :| 0 <= j < |all| && all[j] == x;
      if j < i { assert all[..i][j] == x; }
      if j > i { assert all[i + 1..][j - i - 1] == x; }
    }
  }

  // The rows beyond a row of the table are the rest of the order.
  lemma BeyondRow<K(!new)>(lt: (K, K) -> bool, table: set<K>, i: nat)
    requires StrictTotal(lt) && i < |Sorted(lt, table)|
    ensures var all := Sorted(lt, table);
      && Sorted(lt, Beyond(lt, table, Some(all[i]), false)) == all[i + 1..]
      && Sorted(lt, Beyond(lt, table, Some(all[i]), true)) == all[..i]
  {
    var all := Sorted(lt, table);
    SortedIsListing(lt, table);
    BeyondAfter(lt, table, all, i);
    BeyondBefore(lt, table, all, i);
  }

  lemma BeyondAfter<K(!new)>(lt: (K, K) -> bool, table: set<K>, all: seq<K>, i: nat)
    requires StrictTotal(lt) && Ascending(lt, all) && Elements(all) == table && i < |all|
    ensures Sorted(lt, Beyond(lt, table, Some(all[i]), false)) == all[i + 1..]
  {
    var after := Beyond(lt, table, Some(all[i]), false);
    forall x ensures x in Elements(all[i + 1..]) <==> x in after {
      Sides(lt, all, i, x);
      assert x in all <==> x in Elements(all);
    }
    SortedIsListing(lt, after);
    AscendingSlice(lt, all, i + 1, |all|);
    AscendingUnique(lt, Sorted(lt, after), all[i + 1..]);
  }

  lemma BeyondBefore<K(!new)>(lt: (K, K) -> bool, table: set<K>, all: seq<K>, i: nat)
    requires StrictTotal(lt) && Ascending(lt, all) && Elements(all) == table && i < |all|
    ensures Sorted(lt, Beyond(lt, table, Some(all[i]), true)) == all[..i]
  {
    var before := Beyond(lt, table, Some(all[i]), true);
    forall x ensures x in Elements(all[..i]) <==> x in before {
      Sides(lt, all, i, x);
      assert x in all <==> x in Elements(all);
    }
    SortedIsListing(lt, before);
    AscendingSlice(lt, all, 0, i);
    AscendingUnique(lt, Sorted(lt, before), all[..i]);
  }

  /// Pages as pieces of a list

  // The next `n` rows from row `i` on, and the `n` rows that end just before it.
  function From<K>(all: seq<K>, i: nat, n: nat): seq<K>
    requires i <= |all|
  {
    if i + n <= |all| then all[i..i + n] else all[i..]
  }

  function Until<K>(all: seq<K>, i: nat, n: nat): seq<K>
    requires i <= |all|
  {
    if i <= n then all[..i] else all[i - n..i]
  }

  lemma TakeTwice<K>(s: seq<K>, n: nat)
    ensures Take(Take(s, n + 1), n) == Take(s, n)
    ensures |Take(s, n + 1)| > n <==> |s| > n
  {
  }

  lemma TakeFrom<K>(all: seq<K>, i: nat, n: nat)
    requires i <= |all|
    ensures Take(all[i..], n) == From(all, i, n)
  {
  }

  lemma TakeUntil<K>(all: seq<K>, i: nat, n: nat)
    requires i <= |all|
    ensures Reverse(Take(Reverse(all[..i]), n)) == Until(all, i, n)
  {
  }

  // What a page must say when it shows the rows from `lo` up to `hi` of the list.
  ghost predicate Shows<K>(all: seq<K>, page: Page<K>, lo: nat, hi: nat)
    requires lo <= hi <= |all|
  {
    && page.items == all[lo..hi]
    && (page.hasNext <==> hi < |all|)
    && (page.hasPrev <==> lo > 0)
    && (page.hasNext ==> lo < hi && page.next == Some(all[hi - 1]))
    && (page.hasPrev ==> lo < hi && page.prev == Some(all[lo]))
  }

  function Min(a: nat, b: nat): nat {
    if a <= b then a else b
  }

  function Before(i: nat, n: nat): nat {
    if i <= n then 0 else i - n
  }

  // The pages forward from row `i` and backward from it, cut from the list itself.
  function Onward<K>(memory: bool, all: seq<K>, n: nat, i: nat): Page<K>
    requires i <= |all|
  {
    Finish(memory, Take(all[i..], n + 1), i > 0, Forward, n)
  }

  function Back<K>(memory: bool, all: seq<K>, n: nat, i: nat): Page<K>
    requires i <= |all|
  {
    Finish(memory, Take(Reverse(all[..i]), n + 1), true, Backward, n)
  }

  lemma OnwardShows<K>(memory: bool, all: seq<K>, i: nat, n: nat)
    requires i < |all| && n > 0
    ensures Shows(all, Onward(memory, all, n, i), i, Min(i + n, |all|))
  {
    TakeTwice(all[i..], n);
    TakeFrom(all, i, n);
  }

  // What a backward page with rows on it says, in terms of its rows.
  lemma FinishedBackward<K>(memory: bool, rows: seq<K>, items: seq<K>, n: nat)
    requires items == Reverse(Take(rows, n)) && items != []
    ensures var page := Finish(memory, rows, true, Backward, n);
      && page.items == items && page.hasNext && page.next == Some(items[|items| - 1])
      && (page.hasPrev <==> |rows| > n) && (page.hasPrev ==> page.prev == Some(items[0]))
  {
  }

  lemma BackShows<K>(memory: bool, all: seq<K>, i: nat, n: nat)
    requires 0 < i < |all| && n > 0
    ensures Shows(all, Back(memory, all, n, i), Before(i, n), i)
  {
    var rows, items := Take(Reverse(all[..i]), n + 1), Until(all, i, n);
    TakeTwice(Reverse(all[..i]), n);
    TakeUntil(all, i, n);
    FinishedBackward(memory, rows, items, n);
    UntilIs(all, i, n);
  }

  lemma UntilIs<K>(all: seq<K>, i: nat, n: nat)
    requires 0 < i <= |all| && n > 0
    ensures var items := Until(all, i, n);
      items == all[Before(i, n)..i] && items != [] && items[|items| - 1] == all[i - 1] && items[0] == all[Before(i, n)]
    ensures |Reverse(all[..i])| == i
  {
  }

  /// Where a cursor stands: before row `i` of the list

  ghost predicate StandsAt<K>(all: seq<K>, cursor: Option<K>, i: nat) {
    i <= |all| && if i == 0 then cursor.None? else cursor == Some(all[i - 1])
  }

  ghost predicate At<K(!new)>(lt: (K, K) -> bool, table: set<K>, cursor: Option<K>, i: nat)
    requires StrictTotal(lt)
  {
    StandsAt(Sorted(lt, table), cursor, i)
  }

  lemma FetchForward<K(!new)>(lt: (K, K) -> bool, table: set<K>, cursor: Option<K>, n: nat, i: nat)
    requires StrictTotal(lt) && At(lt, table, cursor, i)
    ensures Fetch(lt, table, cursor, false, n) == Take(Sorted(lt, table)[i..], n + 1)
  {
    var all := Sorted(lt, table);
    if i > 0 { BeyondRow(lt, table, i - 1); } else { assert all[0..] == all; }
  }

  lemma FetchBackward<K(!new)>(lt: (K, K) -> bool, table: set<K>, n: nat, i: nat)
    requires StrictTotal(lt) && i < |Sorted(lt, table)|
    ensures Fetch(lt, table, Some(Sorted(lt, table)[i]), true, n) == Take(Reverse(Sorted(lt, table)[..i]), n + 1)
  {
    var cursor := Some(Sorted(lt, table)[i]);
    BeyondRow(lt, table, i);
    SortedFlip(lt, Beyond(lt, table, cursor, true));
  }

  lemma PageIsOnward<K(!new)>(memory: bool, lt: (K, K) -> bool, table: set<K>, cursor: Option<K>, limit: int, i: nat)
    requires StrictTotal(lt) && At(lt, table, cursor, i)
    ensures PageOf(memory, lt, table, cursor, Forward, limit) == Onward(memory, Sorted(lt, table), PageLimit(limit), i)
  {
    FetchForward(lt, table, cursor, PageLimit(limit), i);
  }

  lemma PageIsBack<K(!new)>(memory: bool, lt: (K, K) -> bool, table: set<K>, limit: int, i: nat)
    requires StrictTotal(lt) && i < |Sorted(lt, table)|
    ensures PageOf(memory, lt, table, Some(Sorted(lt, table)[i]), Backward, limit) == Back(memory, Sorted(lt, table), PageLimit(limit), i)
  {
    FetchBackward(lt, table, PageLimit(limit), i);
  }

  /// Following cursors, whatever serves the pages

  // Whoever serves these pages shows the right piece of the list for every cursor on it.
  ghost predicate Serves<K(!new)>(all: seq<K>, n: nat, pages: Option<K> -> Page<K>) {
    forall c, i: nat :: StandsAt(all, c, i) && i < |all| ==> Shows(all, pages(c), i, Min(i + n, |all|))
  }

  ghost predicate ServesBack<K(!new)>(all: seq<K>, n: nat, pages: Option<K> -> Page<K>) {
    forall i: nat {:trigger pages(Some(all[i]))} :: 0 < i < |all| ==> Shows(all, pages(Some(all[i])), Before(i, n), i)
  }

  // The rows seen by following at most `fuel` next cursors.
  ghost function Walk<K(!new)>(pages: Option<K> -> Page<K>, cursor: Option<K>, fuel: nat): seq<K>
    decreases fuel
  {
    var page := pages(cursor);
    page.items + if page.hasNext && fuel > 0 then Walk(pages, page.next, fuel - 1) else []
  }

  lemma NextStands<K>(all: seq<K>, page: Page<K>, lo: nat, n: nat)
    requires lo < |all| && n > 0 && Shows(all, page, lo, Min(lo + n, |all|)) && page.hasNext
    ensures lo + n < |all| && StandsAt(all, page.next, lo + n)
  {
  }

  lemma PieceAndRest<K>(all: seq<K>, page: Page<K>, i: nat, n: nat)
    requires i < |all| && n > 0 && Shows(all, page, i, Min(i + n, |all|))
    ensures page.items + (if page.hasNext then all[i + n..] else []) == all[i..]
  {
  }

  lemma {:induction false} WalkIsRest<K(!new)>(all: seq<K>, n: nat, pages: Option<K> -> Page<K>, cursor: Option<K>, fuel: nat, i: nat)
    requires Serves(all, n, pages) && n > 0
    requires StandsAt(all, cursor, i) && i < |all| <= i + fuel
    ensures Walk(pages, cursor, fuel) == all[i..]
    decreases fuel
  {
    var page := pages(cursor);
    PieceAndRest(all, page, i, n);
    if page.hasNext {
      NextStands(all, page, i, n);
      WalkIsRest(all, n, pages, page.next, fuel - 1, i + n);
    }
  }

  lemma SamePiece<K>(all: seq<K>, page: Page<K>, back: Page<K>, lo: nat, hi: nat)
    requires lo <= hi <= |all| && Shows(all, page, lo, hi) && Shows(all, back, lo, hi)
    ensures SamePage(page, back)
  {
  }

  // The same rows and flags, and the same cursors where the flags announce them.
  ghost predicate SamePage<K>(page: Page<K>, back: Page<K>) {
    && back.items == page.items && back.hasNext == page.hasNext && back.hasPrev == page.hasPrev
    && (page.hasNext ==> back.next == page.next)
    && (page.hasPrev ==> back.prev == page.prev)
  }

  lemma SecondPage<K(!new)>(all: seq<K>, n: nat, pages: Option<K> -> Page<K>, cursor: Option<K>, i: nat)
    requires Serves(all, n, pages) && n > 0
    requires StandsAt(all, cursor, i) && i < |all| && pages(cursor).hasNext
    ensures var second := pages(pages(cursor).next);
      i + n < |all| && second.hasPrev && second.prev == Some(all[i + n])
  {
    assert Shows(all, pages(cursor), i, Min(i + n, |all|));
    NextStands(all, pages(cursor), i, n);
    assert Shows(all, pages(pages(cursor).next), i + n, Min(i + n + n, |all|));
  }

  lemma NextThenPrev<K(!new)>(all: seq<K>, n: nat, pages: Option<K> -> Page<K>, back: Option<K> -> Page<K>, cursor: Option<K>, i: nat)
    requires Serves(all, n, pages) && ServesBack(all, n, back) && n > 0
    requires StandsAt(all, cursor, i) && i < |all| && pages(cursor).hasNext
    ensures var second := pages(pages(cursor).next);
      second.hasPrev && SamePage(pages(cursor), back(second.prev))
  {
    SecondPage(all, n, pages, cursor, i);
    var j := i + n;
    assert Before(j, n) == i && Min(i + n, |all|) == j;
    assert Shows(all, back(Some(all[j])), Before(j, n), j);
    SamePiece(all, pages(cursor), back(Some(all[j])), i, j);
  }

  // The pages are the pieces, forward from every cursor or backward from every row.
  ghost predicate ArePieces<K(!new)>(all: seq<K>, pages: Option<K> -> Page<K>, pieces: nat -> Page<K>) {
    forall c, i: nat :: StandsAt(all, c, i) ==> pages(c) == pieces(i)
  }

  ghost predicate AreBackPieces<K(!new)>(all: seq<K>, pages: Option<K> -> Page<K>, pieces: nat -> Page<K>) {
    forall i: nat {:trigger pages(Some(all[i]))} :: i < |all| ==> pages(Some(all[i])) == pieces(i)
  }

  ghost predicate PiecesShow<K(!new)>(all: seq<K>, n: nat, pieces: nat -> Page<K>) {
    forall i: nat {:trigger pieces(i)} :: i < |all| ==> Shows(all, pieces(i), i, Min(i + n, |all|))
  }

  ghost predicate BackPiecesShow<K(!new)>(all: seq<K>, n: nat, pieces: nat -> Page<K>) {
    forall i: nat {:trigger pieces(i)} :: 0 < i < |all| ==> Shows(all, pieces(i), Before(i, n), i)
  }

  lemma ServesPieces<K(!new)>(all: seq<K>, n: nat, pages: Option<K> -> Page<K>, pieces: nat -> Page<K>)
    requires ArePieces(all, pages, pieces) && PiecesShow(all, n, pieces)
    ensures Serves(all, n, pages)
  {
  }

  lemma ServesBackPieces<K(!new)>(all: seq<K>, n: nat, pages: Option<K> -> Page<K>, pieces: nat -> Page<K>)
    requires AreBackPieces(all, pages, pieces) && BackPiecesShow(all, n, pieces)
    ensures ServesBack(all, n, pages)
  {
  }

  /// The pages of the program

  ghost function Pages<K(!new)>(memory: bool, lt: (K, K) -> bool, table: set<K>, direction: Direction, limit: int): Option<K> -> Page<K>
    requires StrictTotal(lt)
  {
    cursor => PageOf(memory, lt, table, cursor, direction, limit)
  }

  function Pieces<K>(memory: bool, all: seq<K>, n: nat, direction: Direction): nat -> Page<K> {
    (i: nat) => if i > |all| then Page([], false, false, None, None)
         else if direction == Forward then Onward(memory, all, n, i) else Back(memory, all, n, i)
  }

  lemma OnwardPieces<K(!new)>(memory: bool, all: seq<K>, n: nat)
    requires n > 0
    ensures PiecesShow(all, n, Pieces(memory, all, n, Forward))
  {
    var pieces := Pieces(memory, all, n, Forward);
    forall i: nat | i < |all| ensures Shows(all, pieces(i), i, Min(i + n, |all|)) {
      OnwardShows(memory, all, i, n);
      assert pieces(i) == Onward(memory, all, n, i);
    }
  }

  lemma BackPieces<K(!new)>(memory: bool, all: seq<K>, n: nat)
    requires n > 0
    ensures BackPiecesShow(all, n, Pieces(memory, all, n, Backward))
  {
    var pieces := Pieces(memory, all, n, Backward);
    forall i: nat | 0 < i < |all| ensures Shows(all, pieces(i), Before(i, n), i) {
      BackShows(memory, all, i, n);
      assert pieces(i) == Back(memory, all, n, i);
    }
  }

  lemma PagesArePieces<K(!new)>(memory: bool, lt: (K, K) -> bool, table: set<K>, limit: int)
    requires StrictTotal(lt)
    ensures var all, n := Sorted(lt, table), PageLimit(limit);
      && ArePieces(all, Pages(memory, lt, table, Forward, limit), Pieces(memory, all, n, Forward))
      && AreBackPieces(all, Pages(memory, lt, table, Backward, limit), Pieces(memory, all, n, Backward))
  {
    var all, n := Sorted(lt, table), PageLimit(limit);
    forall c, i: nat | StandsAt(all, c, i)
      ensures Pages(memory, lt, table, Forward, limit)(c) == Pieces(memory, all, n, Forward)(i) {
      PageIsOnward(memory, lt, table, c, limit, i);
    }
    forall i: nat | i < |all|
      ensures Pages(memory, lt, table, Backward, limit)(Some(all[i])) == Pieces(memory, all, n, Backward)(i) {
      PageIsBack(memory, lt, table, limit, i);
    }
  }

  // From every cursor with rows after it a forward page shows the next rows, and from every row but the first a
  // backward page shows the rows just before it, with both flags and both cursors right.
  lemma PagesServe<K(!new)>(memory: bool, lt: (K, K) -> bool, table: set<K>, limit: int)
    requires StrictTotal(lt)
    ensures Serves(Sorted(lt, table), PageLimit(limit), Pages(memory, lt, table, Forward, limit))
    ensures ServesBack(Sorted(lt, table), PageLimit(limit), Pages(memory, lt, table, Backward, limit))
  {
    var all, n := Sorted(lt, table), PageLimit(limit);
    PagesArePieces(memory, lt, table, limit);
    OnwardPieces(memory, all, n);
    BackPieces(memory, all, n);
    ServesPieces(all, n, Pages(memory, lt, table, Forward, limit), Pieces(memory, all, n, Forward));
    ServesBackPieces(all, n, Pages(memory, lt, table, Backward, limit), Pieces(memory, all, n, Backward));
  }

  lemma NoRows<K(!new)>(memory: bool, lt: (K, K) -> bool, limit: int)
    requires StrictTotal(lt)
    ensures var page := PageOf(memory, lt, {}, None, Forward, limit); page.items == [] && !page.hasNext
  {
    assert Beyond(lt, {}, None, false) == {};
  }

  // From the first page, a walk that follows next cursors while there are any (never more of them than
  // rows) sees every row of the table exactly once, in the declared order.
  lemma WalkVisitsAll<K(!new)>(memory: bool, lt: (K, K) -> bool, table: set<K>, limit: int)
    requires StrictTotal(lt)
    ensures var seen := Walk(Pages(memory, lt, table, Forward, limit), None, |table|);
      Ascending(lt, seen) && Elements(seen) == table && |seen| == |table|
  {
    SortedIsListing(lt, table);
    if table == {} {
      NoRows(memory, lt, limit);
    } else {
      var all := Sorted(lt, table);
      PagesServe(memory, lt, table, limit);
      WalkIsRest(all, PageLimit(limit), Pages(memory, lt, table, Forward, limit), None, |table|, 0);
      assert all[0..] == all;
    }
  }

  // Following next and then prev gives back the page one was on, flags and cursors included.
  lemma BackUndoesForward<K(!new)>(memory: bool, lt: (K, K) -> bool, table: set<K>, cursor: Option<K>, limit: int, i: nat)
    requires StrictTotal(lt) && At(lt, table, cursor, i) && i < |Sorted(lt, table)|
    requires Pages(memory, lt, table, Forward, limit)(cursor).hasNext
    ensures var pages, back := Pages(memory, lt, table, Forward, limit), Pages(memory, lt, table, Backward, limit);
      var second := pages(pages(cursor).next);
      second.hasPrev && SamePage(pages(cursor), back(second.prev))
  {
    PagesServe(memory, lt, table, limit);
    NextThenPrev(Sorted(lt, table), PageLimit(limit), Pages(memory, lt, table, Forward, limit),
                 Pages(memory, lt, table, Backward, limit), cursor, i);
  }

  /// Backward without a cursor

  // A memory page then shows the last rows of the order, as it should.
  lemma MemoryLastPage<K(!new)>(lt: (K, K) -> bool, table: set<K>, limit: int)
    requires StrictTotal(lt) && table != {}
    ensures var all, n := Sorted(lt, table), PageLimit(limit);
      Shows(all, PageOf(true, lt, table, None, Backward, limit), Before(|all|, n), |all|)
  {
    var all, n := Sorted(lt, table), PageLimit(limit);
    SortedIsListing(lt, table);
    SortedFlip(lt, table);
    assert all[..|all|] == all;
    TakeTwice(Reverse(all), n);
    TakeUntil(all, |all|, n);
  }

  // The other pages then show the first rows, with the flags the wrong way round as soon as rows remain:
  // they show what a page must show if and only if the table fits on one page.
  lemma BackwardWithoutCursorIff<K(!new)>(lt: (K, K) -> bool, table: set<K>, limit: int)
    requires StrictTotal(lt)
    ensures var all, n := Sorted(lt, table), PageLimit(limit);
      var page := PageOf(false, lt, table, None, Backward, limit);
      && page.items == From(all, 0, n)
      && (Shows(all, page, 0, Min(n, |all|)) <==> |all| <= n)
  {
    var all, n := Sorted(lt, table), PageLimit(limit);
    assert all[0..] == all;
    TakeTwice(all, n);
    TakeFrom(all, 0, n);
  }
}
