/** Library items: the partial update, and what every run of saves, updates and deletes keeps. */
module LibraryItems {
  import opened Wrappers
  import opened Sql
  import opened SqlPatch

  datatype Item = Item(user: int, content: int, state: string, favorite: bool, savedAt: int, readAt: Option<int>)

  /** contents holds the ids of article_contents. */
  datatype Db = Db(items: map<int, Item>, contents: set<int>, next: int)

  datatype LibError = NotFound | AlreadySaved | Rejected

  /** CHECK (state IN ..). */
  predicate ValidState(state: string) {
    state == "unread" || state == "read" || state == "archived"
  }

  function PatchItem(it: Item, state: Option<string>, favorite: Option<bool>, now: int): Item {
    it.(state := state.GetOr(it.state), favorite := favorite.GetOr(it.favorite),
        readAt := if state == None then it.readAt else if state.value == "read" then Some(now) else None)
  }

  /** An update that would store an invalid state fails as a whole. */
  function UpdateItem(db: Db, user: int, id: int, state: Option<string>, favorite: Option<bool>, now: int): Db {
    if id in db.items && db.items[id].user == user && (state.Some? ==> ValidState(state.value))
    then db.(items := db.items[id := PatchItem(db.items[id], state, favorite, now)])
    else db
  }

  predicate Saved(db: Db, user: int, content: int) {
    exists k :: k in db.items && db.items[k].user == user && db.items[k].content == content
  }

  function CreateItem(db: Db, user: int, content: int, now: int): Db {
    if content !in db.contents || Saved(db, user, content) then db
    else db.(items := db.items[db.next := Item(user, content, "unread", false, now, None)], next := db.next + 1)
  }

  function DeleteItem(db: Db, user: int, id: int): Db {
    if id in db.items && db.items[id].user == user then db.(items := db.items - {id}) else db
  }

  // --- The rows ------------------------------------------------------------------------------

  function ItemRow(id: int, it: Item): Row {
    map[Id := IntV(id), UserId := IntV(it.user), ContentId := IntV(it.content), State := TextV(it.state),
        IsFavorite := BoolV(it.favorite), SavedAt := TimeV(it.savedAt),
        ReadAt := if it.readAt.Some? then TimeV(it.readAt.value) else Null]
  }

  /** Scanning a row back. */
  function Scan(row: Row): Option<Item> {
    if && UserId in row && row[UserId].IntV? && ContentId in row && row[ContentId].IntV?
       && State in row && row[State].TextV? && IsFavorite in row && row[IsFavorite].BoolV?
       && SavedAt in row && row[SavedAt].TimeV? && ReadAt in row && (row[ReadAt].TimeV? || row[ReadAt].Null?)
    then Some(Item(row[UserId].i, row[ContentId].i, row[State].s, row[IsFavorite].b, row[SavedAt].t,
                   if row[ReadAt].TimeV? then Some(row[ReadAt].t) else None))
    else None
  }

  lemma ScanRow(id: int, it: Item)
    ensures Scan(ItemRow(id, it)) == Some(it)
  {
  }

  function ScanAll(table: Table): map<int, Item> {
    map k | k in table && Scan(table[k]).Some? :: Scan(table[k]).value
  }

  /** Scanning the rows gives the items back. */
  lemma ScanAllRows(items: map<int, Item>)
    ensures ScanAll(RowsOf(items, ItemRow)) == items
  {
    forall k | k in items ensures Scan(RowsOf(items, ItemRow)[k]) == Some(items[k]) {
      ScanRow(k, items[k]);
    }
  }

  lemma ItemRowsKeyed()
    ensures RowsKeyed(ItemRow)
  {
  }

  lemma ItemScope(id: int, it: Item, user: int)
    ensures InScope(ItemRow(id, it), UserId, IntV(user), false) <==> it.user == user
  {
  }

  // --- The builder -----------------------------------------------------------------------------

  /** The clauses for the state: read_at follows it. */
  function StateClauses(state: Option<string>): seq<Assign> {
    if state == None then []
    else [Assign(State, Const(TextV(state.value))), Assign(ReadAt, if state.value == "read" then Now else Const(Null))]
  }

  function ItemPatch(state: Option<string>, favorite: Option<bool>): seq<Assign> {
    StateClauses(state) + Field(IsFavorite, if favorite.Some? then Some(BoolV(favorite.value)) else None)
  }

  method BuildUpdateItem(state: Option<string>, favorite: Option<bool>)
    returns (setClauses: seq<Assign>, args: seq<Value>, argIdx: int)
    ensures Building(setClauses, args, argIdx) && DistinctColumns(setClauses)
    ensures Meaning(setClauses, args) == ItemPatch(state, favorite)
  {
    setClauses, args, argIdx := [], [], 1;
    if state.Some? {
      Append(setClauses, args, argIdx, Assign(State, Param(argIdx)), [TextV(state.value)]);
      setClauses := setClauses + [Assign(State, Param(argIdx))];
      args := args + [TextV(state.value)];
      argIdx := argIdx + 1;
      var readAt := Assign(ReadAt, if state.value == "read" then Now else Const(Null));
      Append(setClauses, args, argIdx, readAt, []);
      assert args + [] == args;
      setClauses := setClauses + [readAt];
    }
    setClauses, args, argIdx :=
      Put(setClauses, args, argIdx, IsFavorite, if favorite.Some? then Some(BoolV(favorite.value)) else None);
    assert forall i, j :: 0 <= i < j < |Columns(setClauses)| ==> Columns(setClauses)[i] != Columns(setClauses)[j];
  }

  lemma StateEffect(row: Row, state: Option<string>, now: int)
    ensures SetsInRange(StateClauses(state), 0)
    ensures Assigned(StateClauses(state), [], row, now)
         == if state == None then row
            else row[State := TextV(state.value)][ReadAt := if state.value == "read" then TimeV(now) else Null]
  {
    if state.Some? {
      var first, second := StateClauses(state)[0], StateClauses(state)[1];
      AssignedMore([], first, row, now);
      AssignedMore([] + [first], second, row, now);
      assert [] + [first] + [second] == StateClauses(state);
    }
  }

  lemma ItemRowState(id: int, it: Item, state: string, readAt: Option<int>)
    ensures ItemRow(id, it.(state := state, readAt := readAt))
         == ItemRow(id, it)[State := TextV(state)][ReadAt := if readAt.Some? then TimeV(readAt.value) else Null]
  {
  }

  lemma ItemRowFavorite(id: int, it: Item, favorite: bool)
    ensures ItemRow(id, it.(favorite := favorite)) == ItemRow(id, it)[IsFavorite := BoolV(favorite)]
  {
  }

  /** Executing the clauses on an item's row is patching the item. */
  lemma ItemPatchRow(id: int, it: Item, state: Option<string>, favorite: Option<bool>, now: int)
    ensures SetsInRange(ItemPatch(state, favorite), 0)
    ensures Assigned(ItemPatch(state, favorite), [], ItemRow(id, it), now) == ItemRow(id, PatchItem(it, state, favorite, now))
  {
    var fav := if favorite.Some? then Some(BoolV(favorite.value)) else None;
    StateEffect(ItemRow(id, it), state, now);
    AssignedField(StateClauses(state), IsFavorite, fav, ItemRow(id, it), now);
    var readAt := if state.GetOr("") == "read" then Some(now) else None;
    var a := if state.Some? then it.(state := state.value, readAt := readAt) else it;
    if state.Some? { ItemRowState(id, it, state.value, readAt); }
    if favorite.Some? { ItemRowFavorite(id, a, favorite.value); }
    assert PatchItem(it, state, favorite, now) == if favorite.Some? then a.(favorite := favorite.value) else a;
  }

  /** The items after the patch of one row, whatever its state says. */
  function PatchedItems(items: map<int, Item>, user: int, id: int, state: Option<string>, favorite: Option<bool>, now: int): map<int, Item> {
    if id in items && items[id].user == user then items[id := PatchItem(items[id], state, favorite, now)] else items
  }

  /** UpdateRecords for items, given what the clauses do to the addressed row. */
  lemma UpdateOneItem(setClauses: seq<Assign>, args: seq<Value>, argIdx: int, items: map<int, Item>, user: int, id: int,
                      patched: Item, after: map<int, Item>, now: int)
    requires Building(setClauses, args, argIdx) && DistinctColumns(setClauses) && setClauses != []
    requires SetsInRange(Meaning(setClauses, args), 0)
    requires id in items ==> Assigned(Meaning(setClauses, args), [], ItemRow(id, items[id]), now) == ItemRow(id, patched)
    requires after == if id in items && items[id].user == user then items[id := patched] else items
    ensures Update(setClauses, Where(argIdx, UserId, false), args + [IntV(id), IntV(user)], RowsOf(items, ItemRow), now)
         == Ok(Effect(RowsOf(after, ItemRow), if id in items && items[id].user == user then {id} else {}))
  {
    ItemRowsKeyed();
    if id in items {
      ItemScope(id, items[id], user);
    }
    UpdateRecords(setClauses, args, argIdx, UserId, false, items, ItemRow, id, IntV(user),
                  id in items && items[id].user == user, patched, now);
  }

  /** On every item's row, the clauses do what the patch does to the item. */
  ghost predicate PatchesItems(clauses: seq<Assign>, state: Option<string>, favorite: Option<bool>, now: int) {
    SetsInRange(clauses, 0)
    && forall id, it ::
         Assigned(clauses, [], ItemRow(id, it), now) == ItemRow(id, PatchItem(it, state, favorite, now))
  }

  lemma BuiltClausesPatchItems(setClauses: seq<Assign>, args: seq<Value>, state: Option<string>, favorite: Option<bool>, now: int)
    requires SetsInRange(setClauses, |args|) && Meaning(setClauses, args) == ItemPatch(state, favorite)
    ensures PatchesItems(Meaning(setClauses, args), state, favorite, now)
  {
    MeaningIsClosed(setClauses, args);
    forall id, it
      ensures Assigned(Meaning(setClauses, args), [], ItemRow(id, it), now) == ItemRow(id, PatchItem(it, state, favorite, now))
    {
      ItemPatchRow(id, it, state, favorite, now);
    }
  }

  /** The executed UPDATE patches exactly the user's item of that id. */
  lemma UpdateItemMeansPatch(setClauses: seq<Assign>, args: seq<Value>, argIdx: int, items: map<int, Item>, user: int, id: int,
                             state: Option<string>, favorite: Option<bool>, now: int)
    requires Building(setClauses, args, argIdx) && DistinctColumns(setClauses) && setClauses != []
    requires PatchesItems(Meaning(setClauses, args), state, favorite, now)
    ensures Update(setClauses, Where(argIdx, UserId, false), args + [IntV(id), IntV(user)], RowsOf(items, ItemRow), now)
         == Ok(Effect(RowsOf(PatchedItems(items, user, id, state, favorite, now), ItemRow),
                      if id in items && items[id].user == user then {id} else {}))
  {
    var patched := if id in items then PatchItem(items[id], state, favorite, now) else Item(0, 0, "", false, 0, None);
    UpdateOneItem(setClauses, args, argIdx, items, user, id, patched, PatchedItems(items, user, id, state, favorite, now), now);
  }

  // --- Runs ----------------------------------------------------------------------------------------

  datatype Op =
    | Save(user: int, content: int, now: int)
    | Change(user: int, id: int, state: Option<string>, favorite: Option<bool>, now: int)
    | Remove(user: int, id: int)

  function Do(db: Db, op: Op): Db {
    match op
    case Save(user, content, now) => CreateItem(db.(contents := db.contents + {content}), user, content, now)
    case Change(user, id, state, favorite, now) => UpdateItem(db, user, id, state, favorite, now)
    case Remove(user, id) => DeleteItem(db, user, id)
  }

  function Run(db: Db, ops: seq<Op>): Db
    decreases |ops|
  {
    if ops == [] then db else Run(Do(db, ops[0]), ops[1..])
  }

  predicate ItemOk(contents: set<int>, next: int, id: int, it: Item) {
    id < next && it.content in contents && ValidState(it.state) && (it.readAt.Some? <==> it.state == "read")
  }

  predicate SameSave(a: Item, b: Item) {
    a.user == b.user && a.content == b.content
  }

  ghost predicate ItemsOk(items: map<int, Item>, contents: set<int>, next: int) {
    && (forall k :: k in items ==> ItemOk(contents, next, k, items[k]))
    && (forall j, k :: j in items && k in items && SameSave(items[j], items[k]) ==> j == k)
  }

  lemma StepKeepsItems(db: Db, op: Op)
    requires ItemsOk(db.items, db.contents, db.next)
    ensures var after := Do(db, op); ItemsOk(after.items, after.contents, after.next)
  {
    var after := Do(db, op);
    forall j, k | j in after.items && k in after.items && SameSave(after.items[j], after.items[k]) ensures j == k {
      if j in db.items && k in db.items { assert SameSave(db.items[j], db.items[k]); }
    }
  }

  const EMPTY_DB := Db(map[], {}, 0)

  lemma {:induction false} RunKeepsItems(db: Db, ops: seq<Op>)
    requires ItemsOk(db.items, db.contents, db.next)
    ensures var after := Run(db, ops); ItemsOk(after.items, after.contents, after.next)
    decreases |ops|
  {
    if ops != [] {
      StepKeepsItems(db, ops[0]);
      RunKeepsItems(Do(db, ops[0]), ops[1..]);
    }
  }

  /** After every run of saves, updates and deletes, read_at is set exactly on the items whose state is read. */
  lemma ReadAtFollowsState(ops: seq<Op>)
    ensures var items := Run(EMPTY_DB, ops).items;
            forall k :: k in items ==> (items[k].readAt.Some? <==> items[k].state == "read")
  {
    RunKeepsItems(EMPTY_DB, ops);
    var after := Run(EMPTY_DB, ops);
    assert forall k :: k in after.items ==> ItemOk(after.contents, after.next, k, after.items[k]);
  }
}
