/**
 The four orders the program pages through, the predicates its queries put on a cursor, and the text
 form of a memory cursor. A row is its order key: the row's identifier is part of it.
 */
module PageOrders {
  import opened Basics
  import opened Ordering
  import opened Pagination

  // Text in the order of its characters, as SQLite compares it: a proper prefix comes first.
  predicate Less(a: string, b: string)
    decreases |a|
  {
    if b == [] then false
    else if a == [] then true
    else a[0] < b[0] || (a[0] == b[0] && Less(a[1..], b[1..]))
  }

  lemma {:induction false} LessTotal(a: string, b: string)
    ensures !(Less(a, b) && Less(b, a))
    ensures a == b || Less(a, b) || Less(b, a)
    ensures a == b ==> !Less(a, b)
    decreases |a|
  {
    if a != [] && b != [] {
      LessTotal(a[1..], b[1..]);
      assert a == [a[0]] + a[1..] && b == [b[0]] + b[1..];
    }
  }

  lemma {:induction false} LessTransitive(a: string, b: string, c: string)
    requires Less(a, b) && Less(b, c)
    ensures Less(a, c)
    decreases |a|
  {
    if a != [] && a[0] == b[0] == c[0] { LessTransitive(a[1..], b[1..], c[1..]); }
  }

  lemma LessIsOrder()
    ensures forall a, b :: !(Less(a, b) && Less(b, a))
    ensures forall a, b :: a == b || Less(a, b) || Less(b, a)
    ensures forall a :: !Less(a, a)
    ensures forall a, b, c :: Less(a, b) && Less(b, c) ==> Less(a, c)
  {
    forall a, b ensures !(Less(a, b) && Less(b, a)) && (a == b || Less(a, b) || Less(b, a)) && (a == b ==> !Less(a, b)) {
      LessTotal(a, b);
    }
    forall a, b, c | Less(a, b) && Less(b, c) ensures Less(a, c) { LessTransitive(a, b, c); }
  }

  /// Sessions: newest activity first, the front role first, newest creation first, greatest id first

  datatype SessionRow = SessionRow(updated: int, rank: int, created: int, id: string)

  predicate SessionBefore(a: SessionRow, b: SessionRow) {
    if a.updated != b.updated then a.updated > b.updated
    else if a.rank != b.rank then a.rank < b.rank
    else if a.created != b.created then a.created > b.created
    else Less(b.id, a.id)
  }

  predicate SessionAfterCursor(r: SessionRow, c: SessionRow) {
    || r.updated < c.updated
    || (r.updated == c.updated && r.rank > c.rank)
    || (r.updated == c.updated && r.rank == c.rank && r.created < c.created)
    || (r.updated == c.updated && r.rank == c.rank && r.created == c.created && Less(r.id, c.id))
  }

  predicate SessionBeforeCursor(r: SessionRow, c: SessionRow) {
    || r.updated > c.updated
    || (r.updated == c.updated && r.rank < c.rank)
    || (r.updated == c.updated && r.rank == c.rank && r.created > c.created)
    || (r.updated == c.updated && r.rank == c.rank && r.created == c.created && Less(c.id, r.id))
  }

  /// Routes: newest first, greatest id first

  datatype RouteRow = RouteRow(created: int, id: string)

  predicate RouteBefore(a: RouteRow, b: RouteRow) {
    if a.created != b.created then a.created > b.created else Less(b.id, a.id)
  }

  predicate RouteAfterCursor(r: RouteRow, c: RouteRow) {
    r.created < c.created || (r.created == c.created && Less(r.id, c.id))
  }

  predicate RouteBeforeCursor(r: RouteRow, c: RouteRow) {
    r.created > c.created || (r.created == c.created && Less(c.id, r.id))
  }

  /// Deliveries: lowest status rank first, oldest first, least id first

  datatype DeliveryRow = DeliveryRow(rank: int, created: int, id: string)

  predicate DeliveryBefore(a: DeliveryRow, b: DeliveryRow) {
    if a.rank != b.rank then a.rank < b.rank
    else if a.created != b.created then a.created < b.created
    else Less(a.id, b.id)
  }

  predicate DeliveryAfterCursor(r: DeliveryRow, c: DeliveryRow) {
    || r.rank > c.rank
    || (r.rank == c.rank && r.created > c.created)
    || (r.rank == c.rank && r.created == c.created && Less(c.id, r.id))
  }

  predicate DeliveryBeforeCursor(r: DeliveryRow, c: DeliveryRow) {
    || r.rank < c.rank
    || (r.rank == c.rank && r.created < c.created)
    || (r.rank == c.rank && r.created == c.created && Less(r.id, c.id))
  }

  /// Memory: greatest update text first, greatest id first

  datatype MemoryRow = MemoryRow(updated: string, id: string)

  predicate MemoryBefore(a: MemoryRow, b: MemoryRow) {
    if a.updated != b.updated then Less(b.updated, a.updated) else Less(b.id, a.id)
  }

  predicate MemoryAfterCursor(r: MemoryRow, c: MemoryRow) {
    Less(r.updated, c.updated) || (r.updated == c.updated && Less(r.id, c.id))
  }

  predicate MemoryBeforeCursor(r: MemoryRow, c: MemoryRow) {
    Less(c.updated, r.updated) || (r.updated == c.updated && Less(c.id, r.id))
  }

  /// The orders are total, and the query predicates are exactly the two sides of the cursor

  lemma SessionOrder()
    ensures StrictTotal(SessionBefore)
    ensures forall r, c :: SessionAfterCursor(r, c) <==> SessionBefore(c, r)
    ensures forall r, c :: SessionBeforeCursor(r, c) <==> SessionBefore(r, c)
  {
    LessIsOrder();
  }

  lemma RouteOrder()
    ensures StrictTotal(RouteBefore)
    ensures forall r, c :: RouteAfterCursor(r, c) <==> RouteBefore(c, r)
    ensures forall r, c :: RouteBeforeCursor(r, c) <==> RouteBefore(r, c)
  {
    LessIsOrder();
  }

  lemma DeliveryOrder()
    ensures StrictTotal(DeliveryBefore)
    ensures forall r, c :: DeliveryAfterCursor(r, c) <==> DeliveryBefore(c, r)
    ensures forall r, c :: DeliveryBeforeCursor(r, c) <==> DeliveryBefore(r, c)
  {
    LessIsOrder();
  }

  lemma MemoryOrder()
    ensures StrictTotal(MemoryBefore)
    ensures forall r, c :: MemoryAfterCursor(r, c) <==> MemoryBefore(c, r)
    ensures forall r, c :: MemoryBeforeCursor(r, c) <==> MemoryBefore(r, c)
  {
    LessIsOrder();
  }

  // The rows a session query keeps, and what a walk through them sees.
  lemma SessionWalk(table: set<SessionRow>, limit: int)
    ensures StrictTotal(SessionBefore)
    ensures forall c :: Beyond(SessionBefore, table, Some(c), false) == (set r | r in table && SessionAfterCursor(r, c))
    ensures forall c :: Beyond(SessionBefore, table, Some(c), true) == (set r | r in table && SessionBeforeCursor(r, c))
    ensures var seen := Walk(Pages(false, SessionBefore, table, Forward, limit), None, |table|);
      Ascending(SessionBefore, seen) && Elements(seen) == table && |seen| == |table|
  {
    SessionOrder();
    WalkVisitsAll(false, SessionBefore, table, limit);
  }

  lemma RouteWalk(table: set<RouteRow>, limit: int)
    ensures StrictTotal(RouteBefore)
    ensures forall c :: Beyond(RouteBefore, table, Some(c), false) == (set r | r in table && RouteAfterCursor(r, c))
    ensures forall c :: Beyond(RouteBefore, table, Some(c), true) == (set r | r in table && RouteBeforeCursor(r, c))
    ensures var seen := Walk(Pages(false, RouteBefore, table, Forward, limit), None, |table|);
      Ascending(RouteBefore, seen) && Elements(seen) == table && |seen| == |table|
  {
    RouteOrder();
    WalkVisitsAll(false, RouteBefore, table, limit);
  }

  lemma DeliveryWalk(table: set<DeliveryRow>, limit: int)
    ensures StrictTotal(DeliveryBefore)
    ensures forall c :: Beyond(DeliveryBefore, table, Some(c), false) == (set r | r in table && DeliveryAfterCursor(r, c))
    ensures forall c :: Beyond(DeliveryBefore, table, Some(c), true) == (set r | r in table && DeliveryBeforeCursor(r, c))
    ensures var seen := Walk(Pages(false, DeliveryBefore, table, Forward, limit), None, |table|);
      Ascending(DeliveryBefore, seen) && Elements(seen) == table && |seen| == |table|
  {
    DeliveryOrder();
    WalkVisitsAll(false, DeliveryBefore, table, limit);
  }

  lemma MemoryWalk(table: set<MemoryRow>, limit: int)
    ensures StrictTotal(MemoryBefore)
    ensures forall c :: Beyond(MemoryBefore, table, Some(c), false) == (set r | r in table && MemoryAfterCursor(r, c))
    ensures forall c :: Beyond(MemoryBefore, table, Some(c), true) == (set r | r in table && MemoryBeforeCursor(r, c))
    ensures var seen := Walk(Pages(true, MemoryBefore, table, Forward, limit), None, |table|);
      Ascending(MemoryBefore, seen) && Elements(seen) == table && |seen| == |table|
  {
    MemoryOrder();
    WalkVisitsAll(true, MemoryBefore, table, limit);
  }

  /// The text form of a memory cursor

  function EncodeMemory(row: MemoryRow): string {
    if row.updated == "" || row.id == "" then "" else row.updated + "|" + row.id
  }

  // The position of the first separator, or the length of the text.
  function Separator(raw: string): nat
    ensures Separator(raw) <= |raw|
  {
    if raw == "" || raw[0] == '|' then 0 else 1 + Separator(raw[1..])
  }

  function ParseMemory(raw: string): Option<MemoryRow> {
    var at := Separator(raw);
    if at == |raw| || at == 0 || at + 1 == |raw| then None
    else Some(MemoryRow(raw[..at], raw[at + 1..]))
  }

  lemma {:induction false} SeparatorIsFirst(raw: string)
    ensures '|' !in raw[..Separator(raw)]
    ensures Separator(raw) < |raw| ==> raw[Separator(raw)] == '|'
  {
    if raw != "" && raw[0] != '|' {
      SeparatorIsFirst(raw[1..]);
      assert raw[..Separator(raw)] == [raw[0]] + raw[1..][..Separator(raw[1..])];
    }
  }

  lemma {:induction false} SeparatorOf(raw: string, at: nat)
    requires at < |raw| && raw[at] == '|' && '|' !in raw[..at]
    ensures Separator(raw) == at
  {
    if at > 0 {
      assert raw[..at][0] == raw[0] && raw[..at][1..] == raw[1..][..at - 1];
      SeparatorOf(raw[1..], at - 1);
    }
  }

  // A memory cursor survives its text form if and only if neither half is empty and the time holds no
  // separator; the identifier may hold one.
  lemma MemoryCursorRoundTripIff(row: MemoryRow)
    ensures ParseMemory(EncodeMemory(row)) == Some(row) <==> row.updated != "" && row.id != "" && '|' !in row.updated
  {
    var raw := EncodeMemory(row);
    SeparatorIsFirst(raw);
    if row.updated != "" && row.id != "" {
      assert raw[..|row.updated|] == row.updated && raw[|row.updated| + 1..] == row.id;
      if '|' !in row.updated { SeparatorOf(raw, |row.updated|); }
    }
  }

  // Whatever text parses is the text form of what it parses to.
  lemma MemoryCursorParsed(raw: string)
    ensures ParseMemory(raw).Some? ==> EncodeMemory(ParseMemory(raw).value) == raw
    ensures ParseMemory(raw).None? <==> Separator(raw) == |raw| || Separator(raw) == 0 || Separator(raw) + 1 == |raw|
  {
    SeparatorIsFirst(raw);
    var at := Separator(raw);
    if at < |raw| {
      assert raw[..at] + "|" + raw[at + 1..] == raw;
      assert raw[..at] == "" <==> at == 0;
      assert raw[at + 1..] == "" <==> at + 1 == |raw|;
    }
  }
}
