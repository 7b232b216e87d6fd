/**
 Offset paging over a query that is executed anew for every page: when its ORDER BY
 leaves ties, each execution may break them differently.
 */
module Repaging {
  import opened Wrappers
  import opened Pagination
  import opened Ordering

  ghost predicate AllListings<T(!new)>(rows: set<T>, at: T -> int, answers: seq<seq<T>>) {
    forall i :: 0 <= i < |answers| ==> Listing(rows, at, answers[i])
  }

  /** The last row of page k and the first row after it have the same time. */
  predicate TieAfterPage<T>(at: T -> int, list: seq<T>, limit: nat, k: nat) {
    k >= 1 && 1 <= Span(limit, k) < |list| && Tied(at, list[Span(limit, k) - 1], list[Span(limit, k)])
  }

  ghost predicate BoundaryTie<T>(at: T -> int, list: seq<T>, limit: nat) {
    exists k: nat :: TieAfterPage(at, list, limit, k)
  }

  // --- All listings agree up to ties ---------------------------------------------------------

  function RemoveAt<T>(list: seq<T>, j: nat): seq<T>
    requires j < |list|
  {
    list[..j] + list[j + 1..]
  }

  lemma RemoveListing<T(!new)>(rows: set<T>, at: T -> int, list: seq<T>, j: nat)
    requires Listing(rows, at, list) && j < |list|
    ensures Listing(rows - {list[j]}, at, RemoveAt(list, j))
  {
    var rest := RemoveAt(list, j);
    assert forall i :: 0 <= i < |rest| ==> rest[i] == list[if i < j then i else i + 1];
    forall t ensures t in rest <==> t in rows - {list[j]} {
      if t in rows && t != list[j] {
        var i :| 0 <= i < |list| && list[i] == t;
        assert rest[if i < j then i else i - 1] == t;
      }
      if t in rest {
        var i :| 0 <= i < |rest| && rest[i] == t;
        assert list[if i < j then i else i + 1] == t;
      }
    }
  }

  /** Every listing has the same times at the same positions. */
  lemma {:induction false} SameTimes<T(!new)>(rows: set<T>, at: T -> int, a: seq<T>, b: seq<T>)
    requires Listing(rows, at, a) && Listing(rows, at, b)
    ensures |a| == |b| && forall i :: 0 <= i < |a| ==> at(a[i]) == at(b[i])
    decreases |a|
  {
    if a == [] {
      HasElement(b);
    } else {
      assert a[0] in a;
      FirstIsLatest(rows, at, b, a[0]);
      assert b[0] in b;
      FirstIsLatest(rows, at, a, b[0]);
      var j: nat :| j < |b| && b[j] == a[0];
      TailListing(rows, at, a);
      RemoveListing(rows, at, b, j);
      var rest := RemoveAt(b, j);
      SameTimes(rows - {a[0]}, at, a[1..], rest);
      forall i | 1 <= i < |a| ensures at(a[i]) == at(b[i]) {
        assert at(a[1..][i - 1]) == at(rest[i - 1]);
        assert rest[i - 1] == if i - 1 < j then b[i - 1] else b[i];
        if i <= j { assert at(b[0]) >= at(b[i - 1]) >= at(b[i]) >= at(b[j]); }
      }
    }
  }

  lemma TieEverywhere<T(!new)>(rows: set<T>, at: T -> int, a: seq<T>, b: seq<T>, limit: nat)
    requires Listing(rows, at, a) && Listing(rows, at, b)
    ensures BoundaryTie(at, a, limit) <==> BoundaryTie(at, b, limit)
  {
    SameTimes(rows, at, a, b);
    assert forall k: nat :: TieAfterPage(at, a, limit, k) <==> TieAfterPage(at, b, limit, k);
  }

  /** Up to a position where the time drops, every listing has the same rows. */
  lemma SameHead<T(!new)>(rows: set<T>, at: T -> int, a: seq<T>, b: seq<T>, n: nat, t: T)
    requires Listing(rows, at, a) && Listing(rows, at, b) && n <= |a| && n <= |b|
    requires 1 <= n < |a| ==> !Tied(at, a[n - 1], a[n])
    ensures t in a[..n] <==> t in b[..n]
  {
    SameTimes(rows, at, a, b);
    if 1 <= n < |a| {
      InHead(rows, at, a, n, t);
      InHead(rows, at, b, n, t);
    } else {
      assert n == |a| ==> a[..n] == a && b[..n] == b;
    }
  }

  lemma InHead<T(!new)>(rows: set<T>, at: T -> int, list: seq<T>, n: nat, t: T)
    requires Listing(rows, at, list) && 1 <= n < |list| && !Tied(at, list[n - 1], list[n])
    ensures t in list[..n] <==> t in rows && at(t) > at(list[n])
  {
    assert at(list[n - 1]) > at(list[n]);
    if t in list[..n] {
      var i :| 0 <= i < n && list[..n][i] == t;
      assert list[i] == t && at(list[i]) >= at(list[n - 1]);
    }
    if t in rows && at(t) > at(list[n]) {
      var i :| 0 <= i < |list| && list[i] == t;
      assert i < n;
      assert list[..n][i] == t;
    }
  }

  // --- Without a tie at a page boundary ---------------------------------------------------------

  /** The first m rows, each once, at their places in time. */
  ghost predicate ShowsHead<T(!new)>(at: T -> int, list: seq<T>, m: nat, flat: seq<T>) {
    && |flat| == m <= |list| && NoRepeat(flat)
    && (forall t :: t in flat <==> t in list[..m])
    && forall i :: 0 <= i < m ==> at(flat[i]) == at(list[i])
  }

  lemma InSlice<T(!new)>(rows: set<T>, at: T -> int, list: seq<T>, m: nat, n: nat, t: T)
    requires Listing(rows, at, list) && m <= n <= |list|
    ensures t in list[m..n] <==> t in list[..n] && t !in list[..m]
  {
    assert list[..n] == list[..m] + list[m..n];
    forall i, j | 0 <= i < m && 0 <= j < n - m ensures list[..m][i] != list[m..n][j] {
      assert list[i] != list[m + j];
    }
  }

  lemma OneMorePage<T(!new)>(rows: set<T>, at: T -> int, list: seq<T>, other: seq<T>, m: nat, n: nat, flat: seq<T>)
    requires Listing(rows, at, list) && Listing(rows, at, other) && m <= n <= |list| && ShowsHead(at, list, m, flat)
    requires 1 <= m < |list| ==> !Tied(at, list[m - 1], list[m])
    requires 1 <= n < |list| ==> !Tied(at, list[n - 1], list[n])
    ensures n <= |other| && ShowsHead(at, list, n, flat + other[m..n])
  {
    SameTimes(rows, at, list, other);
    var page := other[m..n];
    forall t ensures t in page <==> t in list[..n] && t !in list[..m] {
      InSlice(rows, at, other, m, n, t);
      SameHead(rows, at, list, other, m, t);
      SameHead(rows, at, list, other, n, t);
    }
    forall t ensures t in flat + page <==> t in list[..n] {
      if t in list[..m] { assert list[..n] == list[..m] + list[m..n]; }
    }
    forall i, j | 0 <= i < m && 0 <= j < n - m ensures flat[i] != page[j] {
      assert flat[i] in flat && page[j] in page;
    }
  }

  lemma AllSameLength<T(!new)>(rows: set<T>, at: T -> int, list: seq<T>, answers: seq<seq<T>>)
    requires Listing(rows, at, list) && AllListings(rows, at, answers)
    ensures SameLength(answers, |list|)
  {
    forall i | 0 <= i < |answers| ensures |answers[i]| == |list| { SameTimes(rows, at, list, answers[i]); }
  }

  /** A page from any listing extends what is shown, if no tie meets either of its ends. */
  lemma NextPage<T(!new)>(rows: set<T>, at: T -> int, list: seq<T>, other: seq<T>, limit: nat, k: nat, flat: seq<T>)
    requires Listing(rows, at, list) && Listing(rows, at, other) && |other| == |list| && k >= 1
    requires !TieAfterPage(at, list, limit, k - 1) && !TieAfterPage(at, list, limit, k)
    requires ShowsHead(at, list, Min(Span(limit, k - 1), |list|), flat)
    ensures var m, n := Min(Span(limit, k - 1), |list|), Min(Span(limit, k), |list|);
            m <= n && ShowsHead(at, list, n, flat + other[m..n])
  {
    var m, n := Min(Span(limit, k - 1), |list|), Min(Span(limit, k), |list|);
    NoTieAt(at, list, limit, k - 1, m);
    NoTieAt(at, list, limit, k, n);
    OneMorePage(rows, at, list, other, m, n, flat);
  }

  lemma {:induction false} PagesShowHead<T(!new)>(rows: set<T>, at: T -> int, list: seq<T>, answers: seq<seq<T>>, limit: nat, k: nat)
    requires Listing(rows, at, list) && AllListings(rows, at, answers) && k <= |answers| && !BoundaryTie(at, list, limit)
    ensures ShowsHead(at, list, Min(Span(limit, k), |list|), Shown(answers, limit, k))
    decreases k
  {
    if k > 0 {
      PagesShowHead(rows, at, list, answers, limit, k - 1);
      assert !TieAfterPage(at, list, limit, k - 1) && !TieAfterPage(at, list, limit, k);
      AllSameLength(rows, at, list, answers);
      ShownStep(answers, limit, |list|, k);
      NextPage(rows, at, list, answers[k - 1], limit, k, Shown(answers, limit, k - 1));
    }
  }

  lemma NoTieAt<T>(at: T -> int, list: seq<T>, limit: nat, k: nat, n: nat)
    requires !TieAfterPage(at, list, limit, k) && n == Min(Span(limit, k), |list|)
    ensures 1 <= n < |list| ==> !Tied(at, list[n - 1], list[n])
  {
  }

  lemma HeadIsListing<T(!new)>(rows: set<T>, at: T -> int, list: seq<T>, flat: seq<T>)
    requires Listing(rows, at, list) && ShowsHead(at, list, |list|, flat)
    ensures Listing(rows, at, flat)
  {
    assert list[..|list|] == list;
  }

  // --- With one ----------------------------------------------------------------------------------

  function Switching<T>(first: seq<T>, second: seq<T>, k: nat, n: nat): (answers: seq<seq<T>>)
    ensures |answers| == n && forall i :: 0 <= i < n ==> answers[i] == if i < k then first else second
  {
    seq(n, i => if i < k then first else second)
  }

  /** The pages up to a tie from one listing, the rest from the listing with the two tied rows exchanged. */
  lemma TieRepeats<T(!new)>(rows: set<T>, at: T -> int, list: seq<T>, limit: nat, k: nat) returns (answers: seq<seq<T>>)
    requires Listing(rows, at, list) && limit >= 1 && TieAfterPage(at, list, limit, k)
    ensures AllListings(rows, at, answers) && NextPageParam(Served(answers, limit, |answers|)) == None
    ensures !NoRepeat(Flatten(Served(answers, limit, |answers|)))
  {
    var n := Span(limit, k);
    var other := Swap(list, n - 1);
    SwapTied(rows, at, list, n - 1);
    answers := Switching(list, other, k, |list|);
    SwitchingListings(rows, at, list, other, k, |list|);
    AllSameLength(rows, at, list, answers);
    SpanGrows(limit, k);
    SpanGrows(limit, |list|);
    ServedLength(answers, limit, |list|, |list|);
    assert answers[k - 1] == list && answers[k] == other;
    RowRepeats(answers, limit, |list|, k, n);
    ServedShows(answers, limit, |answers|);
  }

  lemma SwitchingListings<T(!new)>(rows: set<T>, at: T -> int, first: seq<T>, second: seq<T>, k: nat, n: nat)
    requires Listing(rows, at, first) && Listing(rows, at, second)
    ensures AllListings(rows, at, Switching(first, second, k, n))
  {
    var answers := Switching(first, second, k, n);
    forall i | 0 <= i < n ensures Listing(rows, at, answers[i]) {
      if i < k { assert answers[i] == first; } else { assert answers[i] == second; }
    }
  }

  lemma EndOf<T>(before: seq<T>, list: seq<T>, m: nat, n: nat)
    requires |before| == m < n <= |list|
    ensures var shown := before + list[m..n];
            |shown| == n && shown[m] == list[m] && shown[n - 1] == list[n - 1]
  {
  }

  /** The first and the last row of a page, as its fetch found them. */
  lemma PageRows<T>(answers: seq<seq<T>>, limit: nat, n: nat, k: nat, l: nat, m: nat)
    requires SameLength(answers, n) && 1 <= k <= |answers|
    requires l == Span(limit, k - 1) && m == Min(Span(limit, k), n) && l < m
    ensures var shown := Shown(answers, limit, k);
            |shown| == m && shown[l] == answers[k - 1][l] && shown[m - 1] == answers[k - 1][m - 1]
  {
    ShownStep(answers, limit, n, k);
    ShownLength(answers, limit, n, k - 1);
    EndOf(Shown(answers, limit, k - 1), answers[k - 1], l, m);
  }

  lemma RepeatAt<T>(flat: seq<T>, m: nat)
    requires 1 <= m < |flat| && flat[m - 1] == flat[m]
    ensures !NoRepeat(flat)
  {
  }

  /** A row that ends one page and begins the next is shown twice. */
  lemma RowRepeats<T>(answers: seq<seq<T>>, limit: nat, n: nat, k: nat, m: nat)
    requires SameLength(answers, n) && limit >= 1 && 1 <= k < |answers| && m == Span(limit, k) && 1 <= m < n
    requires answers[k - 1][m - 1] == answers[k][m]
    ensures !NoRepeat(Shown(answers, limit, |answers|))
  {
    PageRows(answers, limit, n, k, Span(limit, k - 1), m);
    PageRows(answers, limit, n, k + 1, m, Min(Span(limit, k + 1), n));
    ItemStays(answers, limit, k, |answers|, m - 1);
    ItemStays(answers, limit, k + 1, |answers|, m);
    RepeatAt(Shown(answers, limit, |answers|), m);
  }

  // --- The exact condition ----------------------------------------------------------------------------

  /** Whatever order each fetch finds, the pages show every row once, latest first. */
  ghost predicate AlwaysExact<T(!new)>(rows: set<T>, at: T -> int, limit: nat) {
    forall answers :: AllListings(rows, at, answers) && NextPageParam(Served(answers, limit, |answers|)) == None ==>
      Listing(rows, at, Flatten(Served(answers, limit, |answers|)))
  }

  /** Paging is exact if and only if no two rows of the same time straddle a page boundary, in any one listing. */
  lemma ExactIffNoBoundaryTie<T(!new)>(rows: set<T>, at: T -> int, list: seq<T>, limit: nat)
    requires Listing(rows, at, list) && limit >= 1
    ensures AlwaysExact(rows, at, limit) <==> !BoundaryTie(at, list, limit)
  {
    if BoundaryTie(at, list, limit) {
      var k: nat :| TieAfterPage(at, list, limit, k);
      var answers := TieRepeats(rows, at, list, limit, k);
    } else {
      forall answers | AllListings(rows, at, answers) && NextPageParam(Served(answers, limit, |answers|)) == None
        ensures Listing(rows, at, Flatten(Served(answers, limit, |answers|)))
      {
        PagesExact(rows, at, list, answers, limit);
      }
    }
  }

  lemma PagesExact<T(!new)>(rows: set<T>, at: T -> int, list: seq<T>, answers: seq<seq<T>>, limit: nat)
    requires Listing(rows, at, list) && AllListings(rows, at, answers) && !BoundaryTie(at, list, limit)
    requires NextPageParam(Served(answers, limit, |answers|)) == None
    ensures Listing(rows, at, Flatten(Served(answers, limit, |answers|)))
  {
    AllSameLength(rows, at, list, answers);
    ServedLength(answers, limit, |list|, |answers|);
    PagesShowHead(rows, at, list, answers, limit, |answers|);
    ServedShows(answers, limit, |answers|);
    HeadIsListing(rows, at, list, Flatten(Served(answers, limit, |answers|)));
  }

  /** The client's loop over a query executed anew for each page. */
  method FetchOrdered<T(!new)>(answers: seq<seq<T>>, limit: nat, ghost rows: set<T>, ghost at: T -> int) returns (pages: seq<Page<T>>)
    requires limit >= 1 && answers != [] && |answers| > |answers[0]| && AllListings(rows, at, answers)
    ensures |pages| <= |answers| && pages == Served(answers, limit, |pages|) && NextPageParam(pages) == None
    ensures !BoundaryTie(at, answers[0], limit) ==> Listing(rows, at, Flatten(pages))
    ensures NoTies(rows, at) ==> Flatten(pages) == answers[0]
  {
    AllSameLength(rows, at, answers[0], answers);
    pages := FetchEach(answers, limit, |answers[0]|);
    PagesOf(rows, at, answers, limit, |pages|);
  }

  lemma PagesOf<T(!new)>(rows: set<T>, at: T -> int, answers: seq<seq<T>>, limit: nat, k: nat)
    requires answers != [] && k <= |answers| && AllListings(rows, at, answers) && NextPageParam(Served(answers, limit, k)) == None
    ensures !BoundaryTie(at, answers[0], limit) ==> Listing(rows, at, Flatten(Served(answers, limit, k)))
    ensures NoTies(rows, at) ==> Flatten(Served(answers, limit, k)) == answers[0]
  {
    ServedPrefix(answers, limit, k, k);
    if !BoundaryTie(at, answers[0], limit) {
      PagesExact(rows, at, answers[0], answers[..k], limit);
    }
    if NoTies(rows, at) {
      NoTiesNoBoundary(rows, at, answers[0], limit);
      NoTiesOneListing(rows, at, Flatten(Served(answers, limit, k)), answers[0]);
    }
  }

  lemma {:induction false} ServedPrefix<T>(answers: seq<seq<T>>, limit: nat, n: nat, k: nat)
    requires k <= n <= |answers|
    ensures Served(answers[..n], limit, k) == Served(answers, limit, k)
  {
    if k > 0 {
      ServedPrefix(answers, limit, n, k - 1);
    }
  }

  lemma NoTiesNoBoundary<T(!new)>(rows: set<T>, at: T -> int, list: seq<T>, limit: nat)
    requires Listing(rows, at, list) && NoTies(rows, at)
    ensures !BoundaryTie(at, list, limit)
  {
    forall k: nat ensures !TieAfterPage(at, list, limit, k) {
      var n := Span(limit, k);
      if 1 <= n < |list| {
        assert list[n - 1] in list && list[n] in list && list[n - 1] != list[n];
      }
    }
  }
}
