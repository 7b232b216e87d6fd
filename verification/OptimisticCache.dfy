/**
 Optimistic updates of the library: patch every cached copy, keep a snapshot, put
 it back on failure.
 */
module OptimisticCache {
  import opened Wrappers
  import opened Mutations
  import opened SnapshotLogs
  import LibraryItems

  /** rest stands for the fields no update touches. */
  datatype LibraryItem = LibraryItem(id: int, state: string, isFavorite: bool, note: Option<string>, rest: string)

  datatype ListPage = ListPage(items: seq<LibraryItem>, total: nat)

  datatype ListData = ListData(pages: seq<ListPage>, pageParams: seq<int>)

  /** Queries by key; a list query that has not loaded yet has no data. */
  datatype Cache = Cache(lists: map<string, Option<ListData>>, items: map<int, LibraryItem>)

  /** A field left out is none; the note may also be set to null. */
  datatype UpdateInput = UpdateInput(state: Option<string>, isFavorite: Option<bool>, note: Option<Option<string>>)

  function ApplyPatch(it: LibraryItem, input: UpdateInput): LibraryItem {
    it.(state := input.state.GetOr(it.state), isFavorite := input.isFavorite.GetOr(it.isFavorite),
        note := input.note.GetOr(it.note))
  }

  function PatchItems(items: seq<LibraryItem>, id: int, input: UpdateInput): (r: seq<LibraryItem>)
    ensures |r| == |items|
    ensures forall i :: 0 <= i < |items| ==> r[i] == if items[i].id == id then ApplyPatch(items[i], input) else items[i]
  {
    seq(|items|, i requires 0 <= i < |items| => if items[i].id == id then ApplyPatch(items[i], input) else items[i])
  }

  function PatchPage(page: ListPage, id: int, input: UpdateInput): ListPage {
    page.(items := PatchItems(page.items, id, input))
  }

  function PatchPages(pages: seq<ListPage>, id: int, input: UpdateInput): (r: seq<ListPage>)
    ensures |r| == |pages| && forall i :: 0 <= i < |pages| ==> r[i] == PatchPage(pages[i], id, input)
  {
    seq(|pages|, i requires 0 <= i < |pages| => PatchPage(pages[i], id, input))
  }

  function PatchData(data: ListData, id: int, input: UpdateInput): ListData {
    data.(pages := PatchPages(data.pages, id, input))
  }

  // --- The callbacks -----------------------------------------------------------------------

  datatype Rollback = Rollback(previousLists: map<string, Option<ListData>>, previousItem: Option<LibraryItem>)

  function Snapshot(cache: Cache, id: int): Rollback {
    Rollback(cache.lists, if id in cache.items then Some(cache.items[id]) else None)
  }

  function PatchLists(lists: map<string, Option<ListData>>, id: int, input: UpdateInput): map<string, Option<ListData>> {
    map k | k in lists :: if lists[k] == None then None else Some(PatchData(lists[k].value, id, input))
  }

  function OnMutate(cache: Cache, id: int, input: UpdateInput): Cache {
    Cache(PatchLists(cache.lists, id, input),
          if id in cache.items then cache.items[id := ApplyPatch(cache.items[id], input)] else cache.items)
  }

  function Loaded(lists: map<string, Option<ListData>>): set<string> {
    set k | k in lists && lists[k].Some?
  }

  /** Setting a query's data to undefined does nothing, so only loaded lists are put back. */
  function Restored(lists: map<string, Option<ListData>>, previous: map<string, Option<ListData>>): map<string, Option<ListData>> {
    map k | k in lists.Keys + Loaded(previous) :: if k in Loaded(previous) then previous[k] else lists[k]
  }

  function OnError(cache: Cache, id: int, ctx: Rollback): Cache {
    Cache(Restored(cache.lists, ctx.previousLists),
          if ctx.previousItem.Some? then cache.items[id := ctx.previousItem.value] else cache.items)
  }

  datatype Change = Change(id: int, input: UpdateInput)

  function Updates(): Callbacks<Cache, Change, Rollback> {
    Callbacks((c: Cache, k: Change) => OnMutate(c, k.id, k.input), (c: Cache, k: Change) => Snapshot(c, k.id),
              (c: Cache, k: Change, ctx: Rollback) => OnError(c, k.id, ctx))
  }

  /** Putting every list back gives the lists of the snapshot, whatever was patched in between. */
  lemma RestoreAll(lists: map<string, Option<ListData>>, previous: map<string, Option<ListData>>)
    requires lists.Keys == previous.Keys && Loaded(lists) == Loaded(previous)
    ensures Restored(lists, previous) == previous
  {
    var after := Restored(lists, previous);
    assert Loaded(previous) <= previous.Keys;
    assert after.Keys == previous.Keys;
    forall k | k in previous ensures after[k] == previous[k] {
      assert k in Loaded(lists) <==> lists[k].Some?;
      assert k in Loaded(previous) <==> previous[k].Some?;
    }
  }

  lemma PatchLoads(lists: map<string, Option<ListData>>, id: int, input: UpdateInput)
    ensures PatchLists(lists, id, input).Keys == lists.Keys && Loaded(PatchLists(lists, id, input)) == Loaded(lists)
  {
  }

  /** Failing at once undoes the patch. */
  lemma FailureUndoes(cache: Cache, id: int, input: UpdateInput)
    ensures OnError(OnMutate(cache, id, input), id, Snapshot(cache, id)) == cache
  {
    PatchLoads(cache.lists, id, input);
    RestoreAll(PatchLists(cache.lists, id, input), cache.lists);
    assert OnError(OnMutate(cache, id, input), id, Snapshot(cache, id)).items == cache.items;
  }

  lemma UpdatesUndo()
    ensures Undoes(Updates())
  {
    forall c: Cache, k: Change ensures Updates().restore(Updates().mutate(c, k), k, Updates().snapshot(c, k)) == c {
      FailureUndoes(c, k.id, k.input);
    }
  }

  /** Any properly nested sequence of failing mutations, over any lists and pages, leaves the cache exactly as it was. */
  lemma NestedFailuresRestore(cache: Cache, ms: seq<Failing<Change>>)
    ensures ExecAll(Updates(), cache, ms) == cache
  {
    UpdatesUndo();
    Mutations.NestedFailuresRestore(Updates(), cache, ms);
  }

  /** With failures only of the latest survivor, the cache shows the start patched by every update that has not failed. */
  lemma SurvivingUpdatesShow(cache: Cache, steps: seq<Step<Change>>)
    requires LastFailsFirst([], {}, steps)
    ensures Run(Updates(), State(cache, map[]), steps).cache == PatchAll(Updates(), cache, Survivors([], {}, steps))
  {
    UpdatesUndo();
    SurvivorsShow(Updates(), cache, steps);
  }

  // --- Any interleaving --------------------------------------------------------------------------

  datatype Queries = Queries(keys: set<string>, loaded: set<string>)

  /** The cached lists, which every failure puts back as a whole. */
  function Lists(): Part<Cache, Change, map<string, Option<ListData>>, Queries> {
    Part((c: Cache) => c.lists, (lists: map<string, Option<ListData>>, k: Change) => PatchLists(lists, k.id, k.input),
         (k: Change) => true, (c: Cache) => Queries(c.lists.Keys, Loaded(c.lists)))
  }

  lemma ListsPatched()
    ensures Patches(Updates(), Lists())
  {
    forall c: Cache, k: Change ensures Lists().shape(Updates().mutate(c, k)) == Lists().shape(c) {
      PatchLoads(c.lists, k.id, k.input);
    }
  }

  lemma ListsPutBack()
    ensures PutsBack(Updates(), Lists())
  {
    forall c: Cache, d: Cache, k: Change | Lists().shape(c) == Lists().shape(d) ensures BackTo(Updates(), Lists(), c, d, k) {
      RestoreAll(d.lists, c.lists);
    }
  }

  /** In every interleaving the cached lists are the starting ones patched by the changes the snapshot log shows. */
  lemma ListsShowLog(cache: Cache, steps: seq<Step<Change>>)
    ensures Run(Updates(), State(cache, map[]), steps).cache.lists == Replay(Lists(), cache.lists, Shown(Lists().touches, steps))
  {
    ListsPatched();
    ListsPutBack();
    PartShowsLog(Updates(), Lists(), cache, steps);
  }

  type Updating = State<Cache, Change, Rollback>

  predicate SamePage(a: ListPage, b: ListPage) {
    a.total == b.total && |a.items| == |b.items| && forall i :: 0 <= i < |a.items| ==> a.items[i].id == b.items[i].id
  }

  predicate SameData(a: ListData, b: ListData) {
    a.pageParams == b.pageParams && |a.pages| == |b.pages| && forall i :: 0 <= i < |a.pages| ==> SamePage(a.pages[i], b.pages[i])
  }

  predicate SameEntry(a: Option<ListData>, b: Option<ListData>) {
    a.Some? == b.Some? && (a.Some? ==> SameData(a.value, b.value))
  }

  /** The same queries with the same pages, item ids, order and totals. */
  ghost predicate SameShape(a: map<string, Option<ListData>>, b: map<string, Option<ListData>>) {
    a.Keys == b.Keys && forall k :: k in a ==> SameEntry(a[k], b[k])
  }

  ghost predicate ShapeKept(start: Cache, s: Updating) {
    && SameShape(start.lists, s.cache.lists) && s.cache.items.Keys == start.items.Keys
    && forall m :: m in s.open ==>
         && SameShape(start.lists, s.open[m].ctx.previousLists)
         && (s.open[m].ctx.previousItem.Some? ==> s.open[m].change.id in start.items)
  }

  lemma PatchKeepsShape(start: Cache, cache: Cache, id: int, input: UpdateInput)
    requires SameShape(start.lists, cache.lists)
    ensures SameShape(start.lists, OnMutate(cache, id, input).lists)
  {
    var after := OnMutate(cache, id, input).lists;
    forall k | k in start.lists ensures SameEntry(start.lists[k], after[k]) {
      assert SameEntry(start.lists[k], cache.lists[k]);
      if cache.lists[k].Some? {
        var a, b, c := start.lists[k].value, cache.lists[k].value, after[k].value;
        forall i | 0 <= i < |a.pages| ensures SamePage(a.pages[i], c.pages[i]) {
          assert SamePage(a.pages[i], b.pages[i]);
        }
      }
    }
  }

  lemma RestoreKeepsShape(start: Cache, cache: Cache, id: int, ctx: Rollback)
    requires SameShape(start.lists, cache.lists) && SameShape(start.lists, ctx.previousLists)
    ensures SameShape(start.lists, OnError(cache, id, ctx).lists)
  {
    var after := OnError(cache, id, ctx).lists;
    assert after.Keys == cache.lists.Keys;
    forall k | k in start.lists ensures SameEntry(start.lists[k], after[k]) {
      assert SameEntry(start.lists[k], cache.lists[k]) && SameEntry(start.lists[k], ctx.previousLists[k]);
    }
  }

  lemma StepKeepsShape(start: Cache, s: Updating, step: Step<Change>)
    requires ShapeKept(start, s)
    ensures ShapeKept(start, Apply(Updates(), s, step))
  {
    match step
    case Mutate(m, change) => PatchKeepsShape(start, s.cache, change.id, change.input);
    case Fail(m) => if m in s.open { RestoreKeepsShape(start, s.cache, s.open[m].change.id, s.open[m].ctx); }
    case Succeed(m) =>
  }

  lemma {:induction false} RunKeepsShape(start: Cache, s: Updating, steps: seq<Step<Change>>)
    requires ShapeKept(start, s)
    ensures ShapeKept(start, Run(Updates(), s, steps))
    decreases |steps|
  {
    if steps != [] {
      StepKeepsShape(start, s, steps[0]);
      RunKeepsShape(start, Apply(Updates(), s, steps[0]), steps[1..]);
    }
  }

  /** With no fetch in between, every interleaving keeps page count, item ids, order and totals, and which items are cached. */
  lemma EveryInterleavingKeepsShape(cache: Cache, steps: seq<Step<Change>>)
    ensures var after := Run(Updates(), State(cache, map[]), steps).cache;
            SameShape(cache.lists, after.lists) && after.items.Keys == cache.items.Keys
  {
    forall k | k in cache.lists ensures SameEntry(cache.lists[k], cache.lists[k]) {
      if cache.lists[k].Some? {
        assert forall i :: 0 <= i < |cache.lists[k].value.pages| ==> SamePage(cache.lists[k].value.pages[i], cache.lists[k].value.pages[i]);
      }
    }
    RunKeepsShape(cache, State(cache, map[]), steps);
  }

  // --- Two updates that overlap ------------------------------------------------------------------------

  /** What the first of two overlapping updates puts back when it fails. */
  lemma FirstFails(cache: Cache, x: Change, y: Change)
    ensures var two := OnMutate(OnMutate(cache, x.id, x.input), y.id, y.input);
            var lost := OnError(two, x.id, Snapshot(cache, x.id));
            lost.lists == cache.lists && lost.items == if x.id == y.id then cache.items else OnMutate(cache, y.id, y.input).items
  {
    var one := OnMutate(cache, x.id, x.input);
    PatchLoads(cache.lists, x.id, x.input);
    PatchLoads(one.lists, y.id, y.input);
    RestoreAll(OnMutate(one, y.id, y.input).lists, cache.lists);
    assert OnError(OnMutate(one, y.id, y.input), x.id, Snapshot(cache, x.id)).items
        == if x.id == y.id then cache.items else OnMutate(cache, y.id, y.input).items;
  }

  /**
   When two failing updates overlap without nesting, the second puts back a snapshot that still holds the first
   one's patch: the lists end as that patch left them, and so does the item if both were about the same.
   */
  lemma CrossedFailures(cache: Cache, x: Change, y: Change)
    ensures var end := Crossed(Updates(), cache, x, y, Fail(0), Fail(1));
            && end.lists == OnMutate(cache, x.id, x.input).lists
            && end.items == if x.id == y.id then OnMutate(cache, x.id, x.input).items else cache.items
  {
    UpdatesUndo();
    CrossedEnds(Updates(), cache, x, y);
    FirstFails(cache, x, y);
    var one := OnMutate(cache, x.id, x.input);
    PatchLoads(cache.lists, x.id, x.input);
    RestoreAll(cache.lists, one.lists);
  }

  /** So it restores the cache if and only if the first patch had changed nothing it leaves behind. */
  lemma CrossedRestoresIff(cache: Cache, x: Change, y: Change)
    ensures Crossed(Updates(), cache, x, y, Fail(0), Fail(1)) == cache <==> PatchesNothing(cache, x, x.id == y.id)
  {
    CrossedFailures(cache, x, y);
    PatchesNothingMeans(cache, x);
  }

  /**
   When the first of two overlapping updates fails and the second succeeds, in either order, the cache keeps the
   second one's patch if and only if that patch changes nothing in the lists, nor in the item if both are about it.
   */
  lemma SuccessIsLostIff(cache: Cache, x: Change, y: Change)
    ensures var end := Crossed(Updates(), cache, x, y, Fail(0), Succeed(1));
            && end == Crossed(Updates(), cache, x, y, Succeed(1), Fail(0)) && end.lists == cache.lists
            && (end == OnMutate(cache, y.id, y.input) <==> PatchesNothing(cache, y, x.id == y.id))
  {
    UpdatesUndo();
    CrossedEnds(Updates(), cache, x, y);
    FirstFails(cache, x, y);
    PatchesNothingMeans(cache, y);
  }

  /** When it is the second that fails, the cache keeps exactly the first one's patch. */
  lemma SecondFailureIsExact(cache: Cache, x: Change, y: Change)
    ensures Crossed(Updates(), cache, x, y, Succeed(0), Fail(1)) == OnMutate(cache, x.id, x.input)
    ensures Crossed(Updates(), cache, x, y, Fail(1), Succeed(0)) == OnMutate(cache, x.id, x.input)
  {
    UpdatesUndo();
    CrossedEnds(Updates(), cache, x, y);
  }

  lemma PatchesNothingMeans(cache: Cache, x: Change)
    ensures ListsUntouched(cache.lists, x) <==> OnMutate(cache, x.id, x.input).lists == cache.lists
    ensures ItemKept(cache, x) <==> OnMutate(cache, x.id, x.input).items == cache.items
  {
    var one := OnMutate(cache, x.id, x.input);
    if ListsUntouched(cache.lists, x) {
      forall k | k in cache.lists ensures one.lists[k] == cache.lists[k] {
        if cache.lists[k].Some? { UntouchedData(cache.lists[k].value, x.id, x.input); }
      }
    }
    if one.lists == cache.lists {
      forall k | k in cache.lists && cache.lists[k].Some? ensures DataUntouched(cache.lists[k].value, x.id, x.input) {
        assert one.lists[k] == cache.lists[k];
        UntouchedData(cache.lists[k].value, x.id, x.input);
      }
    }
    if x.id in cache.items && one.items == cache.items {
      assert one.items[x.id] == cache.items[x.id];
    }
  }

  predicate ItemUntouched(it: LibraryItem, id: int, input: UpdateInput) {
    it.id == id ==> ApplyPatch(it, input) == it
  }

  predicate DataUntouched(data: ListData, id: int, input: UpdateInput) {
    forall i, j :: 0 <= i < |data.pages| && 0 <= j < |data.pages[i].items| ==> ItemUntouched(data.pages[i].items[j], id, input)
  }

  predicate ListsUntouched(lists: map<string, Option<ListData>>, x: Change) {
    forall k :: k in lists && lists[k].Some? ==> DataUntouched(lists[k].value, x.id, x.input)
  }

  predicate ItemKept(cache: Cache, x: Change) {
    x.id in cache.items ==> ApplyPatch(cache.items[x.id], x.input) == cache.items[x.id]
  }

  /** No copy in the lists differs from its patched form, nor, where it matters, the single item. */
  predicate PatchesNothing(cache: Cache, x: Change, itemToo: bool) {
    ListsUntouched(cache.lists, x) && (itemToo ==> ItemKept(cache, x))
  }

  lemma UntouchedData(data: ListData, id: int, input: UpdateInput)
    ensures PatchData(data, id, input) == data <==> DataUntouched(data, id, input)
  {
    var after := PatchData(data, id, input);
    if DataUntouched(data, id, input) {
      forall i | 0 <= i < |data.pages| ensures after.pages[i] == data.pages[i] {
        assert forall j :: 0 <= j < |data.pages[i].items| ==> ItemUntouched(data.pages[i].items[j], id, input);
        assert after.pages[i].items == data.pages[i].items;
      }
      assert after.pages == data.pages;
    }
    if after == data {
      forall i, j | 0 <= i < |data.pages| && 0 <= j < |data.pages[i].items| ensures ItemUntouched(data.pages[i].items[j], id, input) {
        assert after.pages[i].items[j] == data.pages[i].items[j];
      }
    }
  }

  // --- Success ------------------------------------------------------------------------------------------

  /** The cached copy shows the server's state and star. */
  predicate Shows(it: LibraryItem, row: LibraryItems.Item) {
    it.state == row.state && it.isFavorite == row.favorite
  }

  /** When the server accepts the update, the predicted state and star are what it stored. */
  lemma PredictionIsStored(db: LibraryItems.Db, user: int, it: LibraryItem, input: UpdateInput, now: int)
    requires it.id in db.items && db.items[it.id].user == user && Shows(it, db.items[it.id])
    requires input.state.Some? ==> LibraryItems.ValidState(input.state.value)
    ensures var after := LibraryItems.UpdateItem(db, user, it.id, input.state, input.isFavorite, now);
            it.id in after.items && Shows(ApplyPatch(it, input), after.items[it.id])
  {
    assert ApplyPatch(it, input).state == input.state.GetOr(it.state);
  }
}
