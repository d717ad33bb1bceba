/**
 Listing a finite set in a strict total order: what an SQL `ORDER BY` over a unique key returns.
 */
module Ordering {

  ghost predicate StrictTotal<K(!new)>(lt: (K, K) -> bool)
  {
    && (forall a :: !lt(a, a))
    && (forall a, b :: a == b || lt(a, b) || lt(b, a))
    && (forall a, b, c :: lt(a, b) && lt(b, c) ==> lt(a, c))
  }

  ghost predicate Ascending<K(!new)>(lt: (K, K) -> bool, s: seq<K>)
  {
    forall i, j :: 0 <= i < j < |s| ==> lt(s[i], s[j])
  }

  function Elements<K>(s: seq<K>): set<K> {
    set x | x in s
  }

  ghost predicate IsLeast<K(!new)>(lt: (K, K) -> bool, m: K, rows: set<K>)
  {
    m in rows && forall x :: x in rows ==> x == m || lt(m, x)
  }

  lemma {:induction false} LeastExists<K(!new)>(lt: (K, K) -> bool, rows: set<K>)
    requires StrictTotal(lt) && rows != {}
    ensures exists m :: IsLeast(lt, m, rows)
    decreases rows
  {
    var x :| x in rows;
    var rest := rows - {x};
    if rest == {} {
      assert rows == {x};
      assert IsLeast(lt, x, rows);
    } else {
      LeastExists(lt, rest);
      var m :| IsLeast(lt, m, rest);
      var n := if lt(x, m) then x else m;
      forall y | y in rows ensures y == n || lt(n, y) {
        assert y == x || y in rest;
      }
      assert IsLeast(lt, n, rows);
    }
  }

  ghost function LeastOf<K(!new)>(lt: (K, K) -> bool, rows: set<K>): (m: K)
    requires StrictTotal(lt) && rows != {}
    ensures IsLeast(lt, m, rows)
  {
    LeastExists(lt, rows);
    var m :| IsLeast(lt, m, rows);
    m
  }

  // The rows in order, smallest first.
  ghost function Sorted<K(!new)>(lt: (K, K) -> bool, rows: set<K>): seq<K>
    requires StrictTotal(lt)
    decreases rows
  {
    if rows == {} then [] else
    var m := LeastOf(lt, rows);
    [m] + Sorted(lt, rows - {m})
  }

  // Sorting loses no row and adds none.
  lemma {:induction false} SortedIsListing<K(!new)>(lt: (K, K) -> bool, rows: set<K>)
    requires StrictTotal(lt)
    ensures Ascending(lt, Sorted(lt, rows))
    ensures Elements(Sorted(lt, rows)) == rows
    ensures |Sorted(lt, rows)| == |rows|
    decreases rows
  {
    if rows != {} {
      var m := LeastOf(lt, rows);
      SortedIsListing(lt, rows - {m});
      var rest := Sorted(lt, rows - {m});
      assert forall x :: x in rest <==> x in Elements(rest);
      assert forall x :: x in [m] + rest <==> x == m || x in rest;
    }
  }

  // An ascending listing is determined by its elements.
  lemma {:induction false} AscendingUnique<K(!new)>(lt: (K, K) -> bool, s: seq<K>, t: seq<K>)
    requires StrictTotal(lt)
    requires Ascending(lt, s) && Ascending(lt, t)
    requires Elements(s) == Elements(t)
    ensures s == t
  {
    assert forall i :: 0 <= i < |t| ==> t[i] in Elements(t);
    assert forall x :: x in Elements(t) ==> x in s;
    if s == [] {
    } else {
      assert s[0] in Elements(s);
      assert t != [];
      assert t[0] in Elements(t) && s[0] in t && t[0] in s;
      assert s[0] == t[0];
      forall x ensures x in Elements(s[1..]) <==> x in Elements(t[1..]) {
        assert x in Elements(s) <==> x in Elements(t);
        assert x in s[1..] <==> x in s && x != s[0];
        assert x in t[1..] <==> x in t && x != t[0];
      }
      AscendingUnique(lt, s[1..], t[1..]);
      assert s == [s[0]] + s[1..] && t == [t[0]] + t[1..];
    }
  }

  // Listing rows by repeatedly taking the least one.
  method List<K(!new,==)>(lt: (K, K) -> bool, rows: set<K>) returns (s: seq<K>)
    requires StrictTotal(lt)
    ensures s == Sorted(lt, rows)
  {
    s := [];
    var rest := rows;
    while rest != {}
      invariant rest <= rows
      invariant Elements(s) == rows - rest
      invariant Ascending(lt, s)
      invariant forall x, y :: x in s && y in rest ==> lt(x, y)
      decreases rest
    {
      var m := Least(lt, rest);
      ghost var before := s;
      s := s + [m];
      rest := rest - {m};
      assert Elements(s) == Elements(before) + {m};
    }
    SortedIsListing(lt, rows);
    AscendingUnique(lt, s, Sorted(lt, rows));
  }

  method Least<K(!new,==)>(lt: (K, K) -> bool, rows: set<K>) returns (m: K)
    requires StrictTotal(lt) && rows != {}
    ensures IsLeast(lt, m, rows)
  {
    m :| m in rows;
    var rest := rows - {m};
    while rest != {}
      invariant rest <= rows && m in rows
      invariant forall x :: x in rows && x !in rest ==> x == m || lt(m, x)
      decreases rest
    {
      var x :| x in rest;
      if lt(x, m) { m := x; }
      rest := rest - {x};
    }
  }
}
