/** The library store over its tables, its partial update sent as the statement the builder emits. */
module LibraryStore {
  import opened Wrappers
  import opened Sql
  import opened SqlPatch
  import opened LibraryItems

  class LibraryStore {
    var items: map<int, Item>
    var contents: set<int>
    var next: int

    constructor ()
      ensures View() == EMPTY_DB
    {
      items, contents, next := map[], {}, 0;
    }

    function View(): Db
      reads this
    {
      Db(items, contents, next)
    }

    method CreateItem(user: int, content: int, now: int) returns (r: Result<int, LibError>)
      requires content in contents
      modifies this`items, this`next
      ensures View() == LibraryItems.CreateItem(old(View()), user, content, now)
      ensures r == if Saved(old(View()), user, content) then Err(AlreadySaved) else Ok(old(next))
    {
      if exists k :: k in items && items[k].user == user && items[k].content == content {
        return Err(AlreadySaved);
      }
      items := items[next := Item(user, content, "unread", false, now, None)];
      r := Ok(next);
      next := next + 1;
    }

    method GetItemByID(user: int, id: int) returns (r: Result<Item, LibError>)
      ensures r == if id in items && items[id].user == user then Ok(items[id]) else Err(NotFound)
    {
      if id !in items || items[id].user != user {
        return Err(NotFound);
      }
      r := Ok(items[id]);
    }

    /** Only the given fields change; an invalid state is refused by the table's CHECK. */
    method UpdateItem(user: int, id: int, state: Option<string>, favorite: Option<bool>, now: int)
      returns (r: Result<Item, LibError>)
      modifies this`items
      ensures View() == LibraryItems.UpdateItem(old(View()), user, id, state, favorite, now)
      ensures !(id in old(items) && old(items)[id].user == user) ==> r == Err(NotFound)
      ensures id in old(items) && old(items)[id].user == user ==>
                r == if state.Some? && !ValidState(state.value) then Err(Rejected) else Ok(items[id])
    {
      var setClauses, args, argIdx := BuildUpdateItem(state, favorite);
      if |setClauses| == 0 {
        assert Meaning(setClauses, args) == [] && state == None && favorite == None;
        r := GetItemByID(user, id);
        return;
      }
      BuiltClausesPatchItems(setClauses, args, state, favorite, now);
      var found, after := Execute(setClauses, args, argIdx, user, id, state, favorite, now);
      if found && !ValidState(after[id].state) && state.Some? {
        return Err(Rejected);
      }
      if !found {
        return Err(NotFound);
      }
      items := after;
      r := Ok(items[id]);
    }

    /** Sends the statement and scans the table it leaves. */
    method Execute(setClauses: seq<Assign>, args: seq<Value>, argIdx: int, user: int, id: int,
                   ghost state: Option<string>, ghost favorite: Option<bool>, now: int)
      returns (found: bool, after: map<int, Item>)
      requires Building(setClauses, args, argIdx) && DistinctColumns(setClauses) && setClauses != []
      requires PatchesItems(Meaning(setClauses, args), state, favorite, now)
      ensures found <==> id in items && items[id].user == user
      ensures after == PatchedItems(items, user, id, state, favorite, now)
    {
      UpdateItemMeansPatch(setClauses, args, argIdx, items, user, id, state, favorite, now);
      var result := Update(setClauses, Where(argIdx, UserId, false), args + [IntV(id), IntV(user)], RowsOf(items, ItemRow), now);
      ScanAllRows(PatchedItems(items, user, id, state, favorite, now));
      found := id in result.value.updated;
      after := ScanAll(result.value.table);
    }

    method DeleteItem(user: int, id: int) returns (r: Result<(), LibError>)
      modifies this`items
      ensures View() == LibraryItems.DeleteItem(old(View()), user, id)
      ensures r == if id in old(items) && old(items)[id].user == user then Ok(()) else Err(NotFound)
    {
      if id !in items || items[id].user != user {
        return Err(NotFound);
      }
      items := items - {id};
      r := Ok(());
    }
  }
}
