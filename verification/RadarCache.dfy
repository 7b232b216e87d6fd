/** Optimistic updates of topics and subscriptions in the radar pages. */
module RadarCache {
  import opened Wrappers
  import opened Mutations
  import opened SnapshotLogs
  import RadarTables

  datatype TopicView = TopicView(id: int, name: string, description: string, threshold: real, active: bool, rest: string)

  datatype FeedView = FeedView(id: int, subscribed: bool, rest: string)

  /** The topic list, the single topics and the feed list, as far as they are cached. */
  datatype Cache = Cache(topics: Option<seq<TopicView>>, topic: map<int, TopicView>, feeds: Option<seq<FeedView>>)

  datatype TopicInput = TopicInput(name: Option<string>, description: Option<string>, threshold: Option<real>, active: Option<bool>)

  function PatchTopic(t: TopicView, input: TopicInput): TopicView {
    t.(name := input.name.GetOr(t.name), description := input.description.GetOr(t.description),
       threshold := input.threshold.GetOr(t.threshold), active := input.active.GetOr(t.active))
  }

  function PatchTopics(ts: seq<TopicView>, id: int, input: TopicInput): (r: seq<TopicView>)
    ensures |r| == |ts| && forall i :: 0 <= i < |ts| ==> r[i].id == ts[i].id
  {
    seq(|ts|, i requires 0 <= i < |ts| => if ts[i].id == id then PatchTopic(ts[i], input) else ts[i])
  }

  function ToggleFeeds(fs: seq<FeedView>, id: int, subscribed: bool): (r: seq<FeedView>)
    ensures |r| == |fs| && forall i :: 0 <= i < |fs| ==> r[i].id == fs[i].id
  {
    seq(|fs|, i requires 0 <= i < |fs| => if fs[i].id == id then fs[i].(subscribed := subscribed) else fs[i])
  }

  /** One of the two optimistic mutations. */
  datatype Change = EditTopic(id: int, input: TopicInput) | Toggle(id: int, subscribed: bool)

  function OnMutate(cache: Cache, change: Change): Cache {
    match change
    case EditTopic(id, input) =>
      cache.(topics := if cache.topics.Some? then Some(PatchTopics(cache.topics.value, id, input)) else None,
             topic := if id in cache.topic then cache.topic[id := PatchTopic(cache.topic[id], input)] else cache.topic)
    case Toggle(id, subscribed) =>
      cache.(feeds := if cache.feeds.Some? then Some(ToggleFeeds(cache.feeds.value, id, subscribed)) else None)
  }

  /** What onMutate returns: only what the mutation touches. */
  datatype Rollback = TopicRollback(topics: Option<seq<TopicView>>, topic: Option<TopicView>) | FeedRollback(feeds: Option<seq<FeedView>>)

  function Snapshot(cache: Cache, change: Change): Rollback {
    match change
    case EditTopic(id, _) => TopicRollback(cache.topics, if id in cache.topic then Some(cache.topic[id]) else None)
    case Toggle(_, _) => FeedRollback(cache.feeds)
  }

  function OnError(cache: Cache, change: Change, ctx: Rollback): Cache {
    match ctx
    case TopicRollback(topics, topic) =>
      cache.(topics := if topics.Some? then topics else cache.topics,
             topic := if topic.Some? then cache.topic[change.id := topic.value] else cache.topic)
    case FeedRollback(feeds) => cache.(feeds := if feeds.Some? then feeds else cache.feeds)
  }

  function Edits(): Callbacks<Cache, Change, Rollback> {
    Callbacks((c: Cache, k: Change) => OnMutate(c, k), (c: Cache, k: Change) => Snapshot(c, k),
              (c: Cache, k: Change, ctx: Rollback) => OnError(c, k, ctx))
  }

  lemma FailureUndoes(cache: Cache, change: Change)
    ensures OnError(OnMutate(cache, change), change, Snapshot(cache, change)) == cache
  {
    var after := OnError(OnMutate(cache, change), change, Snapshot(cache, change));
    assert after.topic == cache.topic;
  }

  lemma EditsUndo()
    ensures Undoes(Edits())
  {
    forall c: Cache, k: Change ensures Edits().restore(Edits().mutate(c, k), k, Edits().snapshot(c, k)) == c {
      FailureUndoes(c, k);
    }
  }

  /** Topic edits and toggles, nested in any way and all failing, leave the cache exactly as it was. */
  lemma NestedFailuresRestore(cache: Cache, ms: seq<Failing<Change>>)
    ensures ExecAll(Edits(), cache, ms) == cache
  {
    EditsUndo();
    Mutations.NestedFailuresRestore(Edits(), cache, ms);
  }

  // --- Any interleaving of edits and toggles -------------------------------------------------------

  /** The topic list, which only failed edits put back, and the feed list, which only failed toggles do. */
  function TopicList(): Part<Cache, Change, Option<seq<TopicView>>, bool> {
    Part((c: Cache) => c.topics, (ts: Option<seq<TopicView>>, k: Change) => EditedTopics(ts, k),
         (k: Change) => k.EditTopic?, (c: Cache) => c.topics.Some?)
  }

  function FeedList(): Part<Cache, Change, Option<seq<FeedView>>, bool> {
    Part((c: Cache) => c.feeds, (fs: Option<seq<FeedView>>, k: Change) => ToggledFeeds(fs, k),
         (k: Change) => k.Toggle?, (c: Cache) => c.feeds.Some?)
  }

  function EditedTopics(ts: Option<seq<TopicView>>, k: Change): Option<seq<TopicView>> {
    if ts.Some? && k.EditTopic? then Some(PatchTopics(ts.value, k.id, k.input)) else ts
  }

  function ToggledFeeds(fs: Option<seq<FeedView>>, k: Change): Option<seq<FeedView>> {
    if fs.Some? && k.Toggle? then Some(ToggleFeeds(fs.value, k.id, k.subscribed)) else fs
  }

  /** In every interleaving both lists are the starting ones patched by the changes their snapshot logs show. */
  lemma ListsShowLogs(cache: Cache, steps: seq<Step<Change>>)
    ensures var end := Run(Edits(), State(cache, map[]), steps).cache;
            && end.topics == Replay(TopicList(), cache.topics, Shown(TopicList().touches, steps))
            && end.feeds == Replay(FeedList(), cache.feeds, Shown(FeedList().touches, steps))
  {
    forall c: Cache, d: Cache, k: Change | TopicList().shape(c) == TopicList().shape(d) ensures BackTo(Edits(), TopicList(), c, d, k) {}
    forall c: Cache, d: Cache, k: Change | FeedList().shape(c) == FeedList().shape(d) ensures BackTo(Edits(), FeedList(), c, d, k) {}
    PartShowsLog(Edits(), TopicList(), cache, steps);
    PartShowsLog(Edits(), FeedList(), cache, steps);
  }

  // --- Two changes that overlap ----------------------------------------------------------------------

  /** An edit and a toggle never disturb each other: crossed in time, both failing, they still restore the cache. */
  lemma EditAndToggleCross(cache: Cache, edit: Change, toggle: Change)
    requires edit.EditTopic? && toggle.Toggle?
    ensures Crossed(Edits(), cache, edit, toggle, Fail(0), Fail(1)) == cache
    ensures Crossed(Edits(), cache, edit, toggle, Fail(0), Succeed(1)) == OnMutate(cache, toggle)
    ensures Crossed(Edits(), cache, toggle, edit, Fail(0), Fail(1)) == cache
    ensures Crossed(Edits(), cache, toggle, edit, Fail(0), Succeed(1)) == OnMutate(cache, edit)
  {
    EditsUndo();
    CrossedEnds(Edits(), cache, edit, toggle);
    CrossedEnds(Edits(), cache, toggle, edit);
    var both := OnMutate(OnMutate(cache, edit), toggle);
    assert both == OnMutate(OnMutate(cache, toggle), edit);
    assert OnError(both, edit, Snapshot(cache, edit)) == OnMutate(cache, toggle) by {
      assert OnError(both, edit, Snapshot(cache, edit)).topic == cache.topic;
    }
    assert OnError(both, toggle, Snapshot(cache, toggle)) == OnMutate(cache, edit);
    FailureUndoes(cache, edit);
    FailureUndoes(cache, toggle);
  }

  /** The change leaves the cached list, or the cached topic, as it is. */
  predicate ListKept(cache: Cache, k: Change) {
    match k
    case EditTopic(id, input) =>
      cache.topics.Some? ==> forall t :: t in cache.topics.value && t.id == id ==> PatchTopic(t, input) == t
    case Toggle(id, subscribed) =>
      cache.feeds.Some? ==> forall f :: f in cache.feeds.value && f.id == id ==> f.subscribed == subscribed
  }

  predicate TopicKept(cache: Cache, k: Change) {
    k.EditTopic? && k.id in cache.topic ==> PatchTopic(cache.topic[k.id], k.input) == cache.topic[k.id]
  }

  lemma PatchTopicsKept(ts: seq<TopicView>, id: int, input: TopicInput)
    ensures PatchTopics(ts, id, input) == ts <==> forall t :: t in ts && t.id == id ==> PatchTopic(t, input) == t
  {
    var after := PatchTopics(ts, id, input);
    if after == ts {
      forall i | 0 <= i < |ts| && ts[i].id == id ensures PatchTopic(ts[i], input) == ts[i] { assert after[i] == ts[i]; }
    } else {
      var i :| 0 <= i < |ts| && after[i] != ts[i];
      assert ts[i] in ts;
    }
  }

  lemma ToggleFeedsKept(fs: seq<FeedView>, id: int, subscribed: bool)
    ensures ToggleFeeds(fs, id, subscribed) == fs <==> forall f :: f in fs && f.id == id ==> f.subscribed == subscribed
  {
    var after := ToggleFeeds(fs, id, subscribed);
    if after == fs {
      forall i | 0 <= i < |fs| && fs[i].id == id ensures fs[i].subscribed == subscribed { assert after[i] == fs[i]; }
    } else {
      var i :| 0 <= i < |fs| && after[i] != fs[i];
      assert fs[i] in fs;
    }
  }

  lemma KeptMeans(cache: Cache, k: Change)
    ensures ListKept(cache, k) <==> OnMutate(cache, k).topics == cache.topics && OnMutate(cache, k).feeds == cache.feeds
    ensures TopicKept(cache, k) <==> OnMutate(cache, k).topic == cache.topic
  {
    var after := OnMutate(cache, k);
    match k {
      case EditTopic(id, input) =>
        if cache.topics.Some? { PatchTopicsKept(cache.topics.value, id, input); }
        if id in cache.topic { assert after.topic == cache.topic ==> after.topic[id] == cache.topic[id]; }
      case Toggle(id, subscribed) =>
        if cache.feeds.Some? { ToggleFeedsKept(cache.feeds.value, id, subscribed); }
    }
  }

  /** Both edits, or both toggles. */
  predicate SameKind(x: Change, y: Change) {
    x.EditTopic? <==> y.EditTopic?
  }

  /** What the first of two overlapping changes of one kind puts back: everything of its kind but the other's single topic. */
  lemma FirstFails(cache: Cache, x: Change, y: Change)
    requires SameKind(x, y)
    ensures var lost := OnError(OnMutate(OnMutate(cache, x), y), x, Snapshot(cache, x));
            && lost.topics == cache.topics && lost.feeds == cache.feeds
            && lost.topic == if x.id == y.id then cache.topic else OnMutate(cache, y).topic
  {
    var lost := OnError(OnMutate(OnMutate(cache, x), y), x, Snapshot(cache, x));
    assert lost.topic == if x.id == y.id then cache.topic else OnMutate(cache, y).topic;
  }

  /** Two crossed failures of one kind restore the cache if and only if the first change showed nothing that is left behind. */
  lemma CrossedRestoresIff(cache: Cache, x: Change, y: Change)
    requires SameKind(x, y)
    ensures var end := Crossed(Edits(), cache, x, y, Fail(0), Fail(1));
            && end.topics == OnMutate(cache, x).topics && end.feeds == OnMutate(cache, x).feeds
            && (end == cache <==> ListKept(cache, x) && (x.id == y.id ==> TopicKept(cache, x)))
  {
    EditsUndo();
    CrossedEnds(Edits(), cache, x, y);
    FirstFails(cache, x, y);
    KeptMeans(cache, x);
    var end := Crossed(Edits(), cache, x, y, Fail(0), Fail(1));
    assert end.topic == if x.id == y.id then OnMutate(cache, x).topic else cache.topic;
  }

  /** A change that succeeds beside an earlier one that fails stays visible if and only if it showed nothing new in its list. */
  lemma SuccessIsLostIff(cache: Cache, x: Change, y: Change)
    requires SameKind(x, y)
    ensures var end := Crossed(Edits(), cache, x, y, Fail(0), Succeed(1));
            && end == Crossed(Edits(), cache, x, y, Succeed(1), Fail(0)) && end.topics == cache.topics && end.feeds == cache.feeds
            && (end == OnMutate(cache, y) <==> ListKept(cache, y) && (x.id == y.id ==> TopicKept(cache, y)))
  {
    EditsUndo();
    CrossedEnds(Edits(), cache, x, y);
    FirstFails(cache, x, y);
    KeptMeans(cache, y);
  }

  // --- Agreement with the server -----------------------------------------------------------------------

  /** The cached copy shows the stored topic. */
  predicate Shows(t: TopicView, row: RadarTables.Topic) {
    t.name == row.name && t.description == row.description && t.threshold == row.threshold && t.active == row.active
  }

  /** Every cached topic agrees with the user's topics on the server. */
  ghost predicate Agrees(cache: Cache, db: RadarTables.Db, user: int) {
    && (cache.topics.Some? ==> forall t :: t in cache.topics.value ==> t.id in db.topics && Shows(t, db.topics[t.id]))
    && (forall id :: id in cache.topic ==> cache.topic[id].id == id && id in db.topics && Shows(cache.topic[id], db.topics[id]))
    && (cache.feeds.Some? ==> forall f :: f in cache.feeds.value ==> (f.subscribed <==> RadarTables.SubKey(user, f.id) in db.subs))
  }

  /** The server's answer to the request the mutation sends. */
  function Stored(db: RadarTables.Db, user: int, change: Change, now: int): RadarTables.Db {
    match change
    case EditTopic(id, input) => RadarTables.UpdateTopic(db, user, id, input.name, input.description, input.threshold, input.active)
    case Toggle(id, true) => RadarTables.Subscribe(db, user, id, now)
    case Toggle(id, false) => RadarTables.Unsubscribe(db, user, id)
  }

  predicate Accepted(db: RadarTables.Db, user: int, change: Change) {
    match change
    case EditTopic(id, _) => id in db.topics && db.topics[id].user == user
    case Toggle(id, subscribed) => subscribed ==> RadarTables.MaySubscribe(db, user, id)
  }

  lemma TopicsAgree(cache: Cache, db: RadarTables.Db, user: int, change: Change, now: int, i: int)
    requires Agrees(cache, db, user) && Accepted(db, user, change) && cache.topics.Some? && 0 <= i < |cache.topics.value|
    ensures var t, store := OnMutate(cache, change).topics.value[i], Stored(db, user, change, now);
            t.id in store.topics && Shows(t, store.topics[t.id])
  {
    assert cache.topics.value[i] in cache.topics.value;
  }

  lemma FeedsAgree(cache: Cache, db: RadarTables.Db, user: int, change: Change, now: int, i: int)
    requires Agrees(cache, db, user) && Accepted(db, user, change) && cache.feeds.Some? && 0 <= i < |cache.feeds.value|
    ensures var f := OnMutate(cache, change).feeds.value[i];
            f.subscribed <==> RadarTables.SubKey(user, f.id) in Stored(db, user, change, now).subs
  {
    assert cache.feeds.value[i] in cache.feeds.value;
  }

  lemma TopicAgrees(cache: Cache, db: RadarTables.Db, user: int, change: Change, now: int, id: int)
    requires Agrees(cache, db, user) && Accepted(db, user, change) && id in cache.topic
    ensures var t, store := OnMutate(cache, change).topic[id], Stored(db, user, change, now);
            t.id == id && id in store.topics && Shows(t, store.topics[id])
  {
  }

  /** When the server accepts a change, a cache that agreed with it before agrees with it after the prediction. */
  lemma PredictionAgrees(cache: Cache, db: RadarTables.Db, user: int, change: Change, now: int)
    requires Agrees(cache, db, user) && Accepted(db, user, change)
    ensures Agrees(OnMutate(cache, change), Stored(db, user, change, now), user)
  {
    var after, store := OnMutate(cache, change), Stored(db, user, change, now);
    if after.topics.Some? {
      forall t | t in after.topics.value ensures t.id in store.topics && Shows(t, store.topics[t.id]) {
        var i :| 0 <= i < |after.topics.value| && after.topics.value[i] == t;
        TopicsAgree(cache, db, user, change, now, i);
      }
    }
    if after.feeds.Some? {
      forall f | f in after.feeds.value ensures f.subscribed <==> RadarTables.SubKey(user, f.id) in store.subs {
        var i :| 0 <= i < |after.feeds.value| && after.feeds.value[i] == f;
        FeedsAgree(cache, db, user, change, now, i);
      }
    }
    forall id | id in after.topic
      ensures after.topic[id].id == id && id in store.topics && Shows(after.topic[id], store.topics[id])
    {
      TopicAgrees(cache, db, user, change, now, id);
    }
  }
}
