/** The mutation callbacks as they run against the query client, one query at a time. */
module QueryCache {
  import opened Wrappers
  import opened OptimisticCache

  class QueryClient {
    var lists: map<string, Option<ListData>>
    var items: map<int, LibraryItem>

    constructor (cache: Cache)
      ensures View() == cache
    {
      lists, items := cache.lists, cache.items;
    }

    function View(): Cache
      reads this
    {
      Cache(lists, items)
    }

    method SetListData(key: string, data: Option<ListData>)
      modifies this`lists
      ensures lists == if data.Some? then old(lists)[key := data] else old(lists)
    {
      if data.Some? {
        lists := lists[key := data];
      }
    }

    method OnMutate(id: int, input: UpdateInput) returns (ctx: Rollback)
      modifies this
      ensures View() == OptimisticCache.OnMutate(old(View()), id, input) && ctx == Snapshot(old(View()), id)
    {
      var previousLists := lists;
      var previousItem := if id in items then Some(items[id]) else None;
      ghost var patched := OptimisticCache.OnMutate(old(View()), id, input).lists;
      var rest := previousLists.Keys;
      while rest != {}
        invariant rest <= previousLists.Keys && lists.Keys == previousLists.Keys && items == old(items)
        invariant forall k :: k in lists ==> lists[k] == if k in rest then previousLists[k] else patched[k]
        decreases |rest|
      {
        var key :| key in rest;
        rest := rest - {key};
        var data := previousLists[key];
        if data.Some? {
          SetListData(key, Some(PatchData(data.value, id, input)));
        }
      }
      assert lists == patched;
      if previousItem.Some? {
        items := items[id := ApplyPatch(previousItem.value, input)];
      }
      ctx := Rollback(previousLists, previousItem);
    }

    method OnError(id: int, ctx: Rollback)
      modifies this
      ensures View() == OptimisticCache.OnError(old(View()), id, ctx)
    {
      RestoreLists(ctx.previousLists);
      if ctx.previousItem.Some? {
        items := items[id := ctx.previousItem.value];
      }
    }

    method RestoreLists(previous: map<string, Option<ListData>>)
      modifies this`lists
      ensures lists == Restored(old(lists), previous)
    {
      ghost var before, loaded := lists, Loaded(previous);
      var rest := previous.Keys;
      while rest != {}
        invariant rest <= previous.Keys
        invariant forall k :: k in lists <==> k in before || (k in loaded && k !in rest)
        invariant forall k :: k in lists ==> lists[k] == if k in loaded && k !in rest then previous[k] else before[k]
        decreases |rest|
      {
        var key :| key in rest;
        rest := rest - {key};
        SetListData(key, previous[key]);
      }
    }
  }
}
