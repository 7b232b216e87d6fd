/**
 The library list: the count query and the page query are built side by side and
 select the same rows, so the client's paging ends with the whole filtered list.
 */
module LibraryList {
  import opened Wrappers
  import opened Sql
  import opened LibraryItems
  import opened Pagination
  import opened Ordering
  import opened Repaging
  import SearchFilters

  /** state is "" when the caller gave none. */
  datatype ListParams = ListParams(user: int, state: string, favorite: Option<bool>)

  predicate Wanted(it: Item, p: ListParams) {
    && it.user == p.user
    && (if p.state != "" then it.state == p.state else it.state != "archived")
    && (p.favorite.Some? ==> it.favorite == p.favorite.value)
  }

  // --- The two builders ------------------------------------------------------------------------

  /** What both queries ask for, state first if given. */
  function ListWhere(p: ListParams): Cond {
    var mine := Eq(Col(UserId), Param(1));
    var state := And(mine, if p.state != "" then Eq(Col(State), Param(2)) else NotEq(Col(State), Const(TextV("archived"))));
    if p.favorite.Some? then And(state, Eq(Col(IsFavorite), Param(if p.state != "" then 3 else 2))) else state
  }

  function ListArgs(p: ListParams): seq<Value> {
    [IntV(p.user)] + (if p.state != "" then [TextV(p.state)] else [])
    + (if p.favorite.Some? then [BoolV(p.favorite.value)] else [])
  }

  /** limitAt and offsetAt are the numbers of the LIMIT and OFFSET placeholders. */
  method BuildList(p: ListParams, limit: int, offset: int)
    returns (countQuery: Cond, countArgs: seq<Value>, query: Cond, args: seq<Value>, limitAt: int, offsetAt: int)
    ensures countQuery == ListWhere(p) && countArgs == ListArgs(p)
    ensures query == ListWhere(p) && args == ListArgs(p) + [IntV(limit), IntV(offset)]
    ensures limitAt == |args| - 1 && offsetAt == |args|
  {
    countQuery, countArgs := Eq(Col(UserId), Param(1)), [IntV(p.user)];
    var argIdx := 2;
    if p.state != "" {
      countQuery, countArgs := And(countQuery, Eq(Col(State), Param(argIdx))), countArgs + [TextV(p.state)];
      argIdx := argIdx + 1;
    } else {
      countQuery := And(countQuery, NotEq(Col(State), Const(TextV("archived"))));
    }
    if p.favorite.Some? {
      countQuery, countArgs := And(countQuery, Eq(Col(IsFavorite), Param(argIdx))), countArgs + [BoolV(p.favorite.value)];
    }

    query, args := Eq(Col(UserId), Param(1)), [IntV(p.user)];
    argIdx := 2;
    if p.state != "" {
      query, args := And(query, Eq(Col(State), Param(argIdx))), args + [TextV(p.state)];
      argIdx := argIdx + 1;
    } else {
      query := And(query, NotEq(Col(State), Const(TextV("archived"))));
    }
    if p.favorite.Some? {
      query, args := And(query, Eq(Col(IsFavorite), Param(argIdx))), args + [BoolV(p.favorite.value)];
      argIdx := argIdx + 1;
    }
    limitAt, offsetAt := argIdx, argIdx + 1;
    args := args + [IntV(limit), IntV(offset)];
  }

  /** With or without the page's two arguments behind, the condition holds of exactly the wanted items. */
  lemma ListSelects(p: ListParams, more: seq<Value>, id: int, it: Item, now: int)
    ensures CondInRange(ListWhere(p), |ListArgs(p) + more|)
    ensures Holds(ListWhere(p), ListArgs(p) + more, ItemRow(id, it), now) == True3 <==> Wanted(it, p)
  {
    var args, row := ListArgs(p) + more, ItemRow(id, it);
    assert args[0] == IntV(p.user);
    assert p.state != "" ==> args[1] == TextV(p.state);
    assert p.favorite.Some? ==> args[if p.state != "" then 2 else 1] == BoolV(p.favorite.value);
    var mine := Eq(Col(UserId), Param(1));
    var inState := if p.state != "" then Eq(Col(State), Param(2)) else NotEq(Col(State), Const(TextV("archived")));
    assert Holds(mine, args, row, now) == Truly(it.user == p.user);
    assert Holds(inState, args, row, now) == Truly(if p.state != "" then it.state == p.state else it.state != "archived");
    if p.favorite.Some? {
      var starred := Eq(Col(IsFavorite), Param(if p.state != "" then 3 else 2));
      assert Holds(starred, args, row, now) == Truly(it.favorite == p.favorite.value);
      assert ListWhere(p) == And(And(mine, inState), starred);
    } else {
      assert ListWhere(p) == And(mine, inState);
    }
  }

  // --- What the two queries select --------------------------------------------------------------

  /** Rows the count query counts. */
  function Counted(db: Db, p: ListParams, now: int): set<int>
  {
    set k | k in db.items && CondInRange(ListWhere(p), |ListArgs(p)|)
            && Holds(ListWhere(p), ListArgs(p), ItemRow(k, db.items[k]), now) == True3
  }

  /** Rows the page query joins with their content, before LIMIT and OFFSET. */
  function Joined(db: Db, p: ListParams, limit: int, offset: int, now: int): set<int> {
    var args := ListArgs(p) + [IntV(limit), IntV(offset)];
    set k | k in db.items && db.items[k].content in db.contents && CondInRange(ListWhere(p), |args|)
            && Holds(ListWhere(p), args, ItemRow(k, db.items[k]), now) == True3
  }

  function WantedIds(db: Db, p: ListParams): set<int> {
    set k | k in db.items && Wanted(db.items[k], p)
  }

  /** In every state a run of the library reaches, count and page select the same rows: the wanted items. */
  lemma CountMatchesPage(ops: seq<Op>, p: ListParams, limit: int, offset: int, now: int)
    ensures var db := Run(EMPTY_DB, ops);
            Counted(db, p, now) == WantedIds(db, p) && Joined(db, p, limit, offset, now) == WantedIds(db, p)
  {
    RunKeepsItems(EMPTY_DB, ops);
    var db := Run(EMPTY_DB, ops);
    forall k | k in db.items
      ensures k in Counted(db, p, now) <==> k in WantedIds(db, p)
      ensures k in Joined(db, p, limit, offset, now) <==> k in WantedIds(db, p)
    {
      assert ItemOk(db.contents, db.next, k, db.items[k]);
      ListSelects(p, [], k, db.items[k], now);
      ListSelects(p, [IntV(limit), IntV(offset)], k, db.items[k], now);
      assert ListArgs(p) + [] == ListArgs(p);
    }
    assert forall k :: k in Counted(db, p, now) <==> k in WantedIds(db, p);
    assert forall k :: k in Joined(db, p, limit, offset, now) <==> k in WantedIds(db, p);
  }

  // --- The page's filter ----------------------------------------------------------------------------

  /** prepareState: without a choice the page lists what is unread, and "all" sends no state. */
  function PrepareState(state: Option<SearchFilters.FilterState>): string {
    if state == None then "unread"
    else if state == Some(SearchFilters.AllItems) then "" else SearchFilters.StateName(state.value)
  }

  function Request(user: int, f: SearchFilters.FilterParams): ListParams {
    ListParams(user, PrepareState(f.state), f.favorite)
  }

  /** What each choice of the filter bar shows: "all" means all but the archive. */
  lemma FilterShows(user: int, f: SearchFilters.FilterParams, it: Item)
    requires ValidState(it.state)
    ensures Wanted(it, Request(user, f)) <==>
      && it.user == user
      && (f.favorite.Some? ==> it.favorite == f.favorite.value)
      && (match f.state
          case None => it.state == "unread"
          case Some(AllItems) => it.state == "unread" || it.state == "read"
          case Some(Read) => it.state == "read"
          case Some(Archived) => it.state == "archived")
  {
    assert |"unread"| == 6 && |"read"| == 4 && |"archived"| == 8 && |""| == 0;
  }

  // --- The client's list -------------------------------------------------------------------------

  /** ORDER BY saved_at DESC. */
  function SavedAt(db: Db): int -> int {
    k => if k in db.items then db.items[k].savedAt else 0
  }

  /**
   The loop of useLibraryQuery, for whatever limit is asked and whatever order the query gives each time:
   it shows exactly the wanted items, each once and latest first, if no two items saved at the same instant
   meet at a page boundary; and without any such two the list is always the same.
   */
  method LoadLibrary(db: Db, p: ListParams, limit: int, answers: seq<seq<int>>) returns (pages: seq<Page<int>>)
    requires answers != [] && |answers| > |answers[0]| && AllListings(WantedIds(db, p), SavedAt(db), answers)
    ensures |pages| <= |answers| && pages == Served(answers, LibraryLimit(limit), |pages|) && NextPageParam(pages) == None
    ensures !BoundaryTie(SavedAt(db), answers[0], LibraryLimit(limit)) ==> Listing(WantedIds(db, p), SavedAt(db), Flatten(pages))
    ensures NoTies(WantedIds(db, p), SavedAt(db)) ==>
              forall other :: Listing(WantedIds(db, p), SavedAt(db), other) ==> other == Flatten(pages)
  {
    pages := FetchOrdered(answers, LibraryLimit(limit), WantedIds(db, p), SavedAt(db));
    if NoTies(WantedIds(db, p), SavedAt(db)) {
      forall other | Listing(WantedIds(db, p), SavedAt(db), other) ensures other == Flatten(pages) {
        NoTiesOneListing(WantedIds(db, p), SavedAt(db), other, answers[0]);
      }
    }
  }
}
