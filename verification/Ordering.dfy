/**
 ORDER BY one column, descending: which lists it may return, and when there is
 only one of them.
 */
module Ordering {
  import opened Wrappers
  import opened Pagination

  ghost predicate Sorted<T(!new)>(at: T -> int, list: seq<T>) {
    forall i, j :: 0 <= i < j < |list| ==> at(list[i]) >= at(list[j])
  }

  predicate NoRepeat<T(==)>(list: seq<T>) {
    forall i, j :: 0 <= i < j < |list| ==> list[i] != list[j]
  }

  /** A list the database may return for these rows. */
  ghost predicate Listing<T(!new)>(rows: set<T>, at: T -> int, list: seq<T>) {
    && (forall t :: t in list <==> t in rows)
    && NoRepeat(list) && Sorted(at, list)
  }

  predicate Tied<T>(at: T -> int, a: T, b: T) {
    at(a) == at(b)
  }

  ghost predicate NoTies<T(!new)>(rows: set<T>, at: T -> int) {
    forall a, b :: a in rows && b in rows && Tied(at, a, b) ==> a == b
  }

  lemma TailListing<T(!new)>(rows: set<T>, at: T -> int, list: seq<T>)
    requires Listing(rows, at, list) && list != []
    ensures list[0] in rows && Listing(rows - {list[0]}, at, list[1..])
  {
    var rest := list[1..];
    assert list[0] in list;
    forall t ensures t in rest <==> t in rows - {list[0]} {
      if t in rest {
        var i :| 0 <= i < |rest| && rest[i] == t;
        assert list[i + 1] == t;
      }
      if t in rows && t != list[0] {
        var i :| 0 <= i < |list| && list[i] == t;
        assert rest[i - 1] == t;
      }
    }
  }

  lemma FirstIsLatest<T(!new)>(rows: set<T>, at: T -> int, list: seq<T>, t: T)
    requires Listing(rows, at, list) && t in rows
    ensures list != [] && at(list[0]) >= at(t)
  {
    var i :| 0 <= i < |list| && list[i] == t;
  }

  lemma HasElement<T>(list: seq<T>)
    ensures list == [] || exists t :: t in list
  {
    if list != [] {
      assert list[0] in list;
    }
  }

  /** Without ties the order is total and the list is the same whenever it is asked for. */
  lemma {:induction false} NoTiesOneListing<T(!new)>(rows: set<T>, at: T -> int, first: seq<T>, second: seq<T>)
    requires NoTies(rows, at) && Listing(rows, at, first) && Listing(rows, at, second)
    ensures first == second
    decreases |first|
  {
    if first == [] {
      HasElement(second);
    } else {
      TailListing(rows, at, first);
      FirstIsLatest(rows, at, second, first[0]);
      TailListing(rows, at, second);
      FirstIsLatest(rows, at, first, second[0]);
      assert Tied(at, first[0], second[0]);
      NoTiesOneListing(rows - {first[0]}, at, first[1..], second[1..]);
      assert first == [first[0]] + first[1..] && second == [second[0]] + second[1..];
    }
  }

  function Insert<T>(at: T -> int, list: seq<T>, t: T): seq<T> {
    if list == [] || at(t) >= at(list[0]) then [t] + list else [list[0]] + Insert(at, list[1..], t)
  }

  lemma {:induction false} InsertElements<T>(at: T -> int, list: seq<T>, t: T, x: T)
    ensures x in Insert(at, list, t) <==> x in list || x == t
  {
    if list != [] && at(t) < at(list[0]) {
      InsertElements(at, list[1..], t, x);
      assert list == [list[0]] + list[1..];
    }
  }

  lemma {:induction false} InsertSorted<T(!new)>(at: T -> int, list: seq<T>, t: T)
    requires Sorted(at, list) && NoRepeat(list) && t !in list
    ensures Sorted(at, Insert(at, list, t)) && NoRepeat(Insert(at, list, t))
  {
    if list != [] && at(t) < at(list[0]) {
      var rest := Insert(at, list[1..], t);
      InsertSorted(at, list[1..], t);
      forall i | 0 <= i < |rest| ensures at(list[0]) >= at(rest[i]) && rest[i] != list[0] {
        InsertElements(at, list[1..], t, rest[i]);
      }
    }
  }

  lemma {:induction false} SomeListing<T(!new)>(rows: set<T>, at: T -> int) returns (list: seq<T>)
    ensures Listing(rows, at, list)
    decreases |rows|
  {
    if rows == {} {
      return [];
    }
    var t := Pick(rows);
    var rest := SomeListing(rows - {t}, at);
    InsertSorted(at, rest, t);
    list := Insert(at, rest, t);
    forall x ensures x in list <==> x in rows {
      InsertElements(at, rest, t, x);
    }
  }

  function Swap<T>(list: seq<T>, i: nat): seq<T>
    requires i + 1 < |list|
  {
    list[i := list[i + 1]][i + 1 := list[i]]
  }

  /** Two neighbours with the same time may come in either order. */
  lemma SwapTied<T(!new)>(rows: set<T>, at: T -> int, list: seq<T>, i: nat)
    requires Listing(rows, at, list) && i + 1 < |list| && Tied(at, list[i], list[i + 1])
    ensures Listing(rows, at, Swap(list, i)) && Swap(list, i) != list
  {
    var other := Swap(list, i);
    forall t ensures t in other <==> t in list {
      if t in list {
        var k :| 0 <= k < |list| && list[k] == t;
        assert other[if k == i then i + 1 else if k == i + 1 then i else k] == t;
      }
    }
    assert other[i] != list[i];
  }

  lemma TiesTwoListings<T(!new)>(rows: set<T>, at: T -> int, a: T, b: T) returns (first: seq<T>, second: seq<T>)
    requires a in rows && b in rows && a != b && Tied(at, a, b)
    ensures Listing(rows, at, first) && Listing(rows, at, second) && first != second
  {
    first := SomeListing(rows, at);
    var i :| 0 <= i < |first| && first[i] == a;
    var j :| 0 <= j < |first| && first[j] == b;
    var k := if i < j then i else j;
    assert at(first[i]) == at(first[j]) && at(first[k]) >= at(first[k + 1]);
    assert at(first[k + 1]) >= at(first[if i < j then j else i]);
    SwapTied(rows, at, first, k);
    second := Swap(first, k);
  }

  ghost predicate OneListing<T(!new)>(rows: set<T>, at: T -> int) {
    forall first, second :: Listing(rows, at, first) && Listing(rows, at, second) ==> first == second
  }

  /** The query's answer is determined if and only if no two of its rows share the ordering value. */
  lemma DeterminedIffNoTies<T(!new)>(rows: set<T>, at: T -> int)
    ensures OneListing(rows, at) <==> NoTies(rows, at)
  {
    if NoTies(rows, at) {
      forall first, second | Listing(rows, at, first) && Listing(rows, at, second) ensures first == second {
        NoTiesOneListing(rows, at, first, second);
      }
    } else {
      var a, b :| a in rows && b in rows && Tied(at, a, b) && a != b;
      var first, second := TiesTwoListings(rows, at, a, b);
    }
  }

  /**
   A tie across a page boundary: the page at offset n may come from a list with the two rows
   exchanged, and then repeats the one already shown while the other never appears.
   */
  lemma TieAcrossPages<T(!new)>(rows: set<T>, at: T -> int, list: seq<T>, limit: nat, n: nat) returns (other: seq<T>)
    requires Listing(rows, at, list) && limit >= 1 && 1 <= n < |list| && Tied(at, list[n - 1], list[n])
    ensures Listing(rows, at, other) && |other| == |list|
    ensures var page := Serve(other, limit, n); |page.items| >= 1 && page.items[0] == list[n - 1]
    ensures list[n - 1] in list[..n] && list[n] !in list[..n] && list[n] !in other[n..]
  {
    SwapTied(rows, at, list, n - 1);
    other := Swap(list, n - 1);
    assert list[..n][n - 1] == list[n - 1];
  }

  /** And the client does ask for that page: its first k pages show exactly the first n rows. */
  lemma NextPageAfter<T>(list: seq<T>, limit: nat, k: nat, n: nat)
    requires k >= 1 && n == Span(limit, k) && n < |list|
    ensures Flatten(Fetched(list, limit, k)) == list[..n] && NextPageParam(Fetched(list, limit, k)) == Some(n)
  {
    ShownIsPrefix(list, limit, k);
  }
}
