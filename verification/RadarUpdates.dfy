/** The two partial updates of the radar store, sent as the statements their builders emit. */
module RadarUpdates {
  import opened Wrappers
  import opened Sql
  import opened SqlPatch
  import opened RadarPatches
  import RadarTables
  import RadarStore

  // --- Scanning rows back ---------------------------------------------------------------------

  function TextIn(row: Row, col: Column): string {
    if col in row && row[col].TextV? then row[col].s else ""
  }

  function OptTextIn(row: Row, col: Column): Option<string> {
    if col in row && row[col].TextV? then Some(row[col].s) else None
  }

  function ScanFeed(row: Row): RadarTables.Feed {
    RadarTables.Feed(
      TextIn(row, Url),
      if OwnerUserId in row && row[OwnerUserId].IntV? then Some(row[OwnerUserId].i) else None,
      OptTextIn(row, Title),
      if FetchIntervalSeconds in row && row[FetchIntervalSeconds].IntV? then row[FetchIntervalSeconds].i else 0,
      IsActive in row && row[IsActive].BoolV? && row[IsActive].b,
      OptTextIn(row, Etag), OptTextIn(row, LastModified),
      if LastFetchedAt in row && row[LastFetchedAt].TimeV? then Some(row[LastFetchedAt].t) else None,
      OptTextIn(row, LastError))
  }

  lemma ScanFeedRow(id: int, f: RadarTables.Feed)
    ensures ScanFeed(FeedRow(id, f)) == f
  {
  }

  function ScanFeeds(table: Table): map<int, RadarTables.Feed> {
    map f | f in table :: ScanFeed(table[f])
  }

  lemma ScanFeedRows(feeds: map<int, RadarTables.Feed>)
    ensures ScanFeeds(RowsOf(feeds, FeedRow)) == feeds
  {
    forall f | f in feeds ensures ScanFeed(RowsOf(feeds, FeedRow)[f]) == feeds[f] {
      ScanFeedRow(f, feeds[f]);
    }
  }

  // --- UpdateFeed -------------------------------------------------------------------------------

  /** An empty patch is refused; a feed of another owner is not found and not touched. */
  method UpdateFeed(store: RadarStore.RadarStore, feed: int, owner: Option<int>, title: Option<string>,
                    interval: Option<int>, active: Option<bool>, now: int)
    returns (r: Result<RadarTables.Feed, RadarTables.StoreError>)
    modifies store`feeds
    ensures store.View() == RadarTables.UpdateFeed(old(store.View()), feed, owner, title, interval, active)
    ensures title == None && interval == None && active == None ==> r == Err(RadarTables.InvalidInput)
    ensures title.Some? || interval.Some? || active.Some? ==>
              r == if feed in store.feeds && store.feeds[feed].owner == owner then Ok(store.feeds[feed]) else Err(RadarTables.NotFound)
  {
    var setClauses, args, argIdx := BuildUpdateFeed(title, interval, active);
    assert |setClauses| == |FeedPatch(title, interval, active)|;
    if |setClauses| == 0 {
      return Err(RadarTables.InvalidInput);
    }
    var found, after := Execute(store, setClauses, args, argIdx, feed, owner, title, interval, active, now);
    if !found {
      return Err(RadarTables.NotFound);
    }
    store.feeds := after;
    r := Ok(store.feeds[feed]);
  }

  method Execute(store: RadarStore.RadarStore, setClauses: seq<Assign>, args: seq<Value>, argIdx: int, feed: int, owner: Option<int>,
                 ghost title: Option<string>, ghost interval: Option<int>, ghost active: Option<bool>, now: int)
    returns (found: bool, after: map<int, RadarTables.Feed>)
    requires Building(setClauses, args, argIdx) && DistinctColumns(setClauses) && setClauses != []
    requires Meaning(setClauses, args) == FeedPatch(title, interval, active)
    ensures found <==> feed in store.feeds && store.feeds[feed].owner == owner
    ensures after == RadarTables.UpdateFeed(store.View(), feed, owner, title, interval, active).feeds
  {
    UpdateFeedMeansPatch(setClauses, args, argIdx, store.View(), feed, owner, title, interval, active, now);
    var result := Update(setClauses, Where(argIdx, OwnerUserId, true), args + [IntV(feed), OptInt(owner)],
                         RowsOf(store.feeds, FeedRow), now);
    ScanFeedRows(RadarTables.UpdateFeed(store.View(), feed, owner, title, interval, active).feeds);
    found := feed in result.value.updated;
    after := ScanFeeds(result.value.table);
  }

  // --- UpdateTopic ------------------------------------------------------------------------------

  function ScanTopic(row: Row): Stamped {
    Stamped(
      RadarTables.Topic(
        if UserId in row && row[UserId].IntV? then row[UserId].i else 0,
        TextIn(row, Name), TextIn(row, Description),
        if MatchThreshold in row && row[MatchThreshold].RealV? then row[MatchThreshold].r else 0.0,
        IsActive in row && row[IsActive].BoolV? && row[IsActive].b,
        if Embedding in row && row[Embedding].VectorV? then Some(row[Embedding].v) else None),
      if UpdatedAt in row && row[UpdatedAt].TimeV? then row[UpdatedAt].t else 0)
  }

  lemma ScanTopicRow(id: int, s: Stamped)
    ensures ScanTopic(TopicRow(id, s)) == s
  {
  }

  function ScanTopics(table: Table): map<int, Stamped> {
    map t | t in table :: ScanTopic(table[t])
  }

  lemma ScanTopicRows(stamped: map<int, Stamped>)
    ensures ScanTopics(RowsOf(stamped, TopicRow)) == stamped
  {
    forall t | t in stamped ensures ScanTopic(RowsOf(stamped, TopicRow)[t]) == stamped[t] {
      ScanTopicRow(t, stamped[t]);
    }
  }

  /** The topics with their updated_at column. */
  function Stamp(topics: map<int, RadarTables.Topic>, updatedAt: map<int, int>): map<int, Stamped>
    requires topics.Keys <= updatedAt.Keys
  {
    map t | t in topics :: Stamped(topics[t], updatedAt[t])
  }

  /**
   An empty patch is refused; a topic of another user is not found and not touched; otherwise the patched
   topic is stored and returned, and its updated_at alone is the time of the call.
   */
  method UpdateTopic(store: RadarStore.RadarStore, updatedAt: map<int, int>, user: int, topic: int, name: Option<string>,
                     description: Option<string>, threshold: Option<real>, active: Option<bool>, now: int)
    returns (r: Result<RadarTables.Topic, RadarTables.StoreError>, stamps: map<int, int>)
    requires store.topics.Keys <= updatedAt.Keys
    modifies store`topics
    ensures var none := name == None && description == None && threshold == None && active == None;
            && (none ==> r == Err(RadarTables.InvalidInput) && store.View() == old(store.View()))
            && (!none ==> store.View() == RadarTables.UpdateTopic(old(store.View()), user, topic, name, description, threshold, active))
            && (!none ==> r == if topic in store.topics && store.topics[topic].user == user then Ok(store.topics[topic])
                               else Err(RadarTables.NotFound))
    ensures stamps == if r.Ok? then updatedAt[topic := now] else updatedAt
  {
    stamps := updatedAt;
    var setClauses, args, argIdx := BuildUpdateTopic(name, description, threshold, active);
    NoTopicClauses(name, description, threshold, active);
    if |setClauses| == 0 {
      return Err(RadarTables.InvalidInput), stamps;
    }
    var found, after := ExecuteTopic(store, updatedAt, setClauses, args, argIdx, user, topic, name, description, threshold, active, now);
    RestampedStore(store.View(), updatedAt, user, topic, name, description, threshold, active, now);
    if !found {
      return Err(RadarTables.NotFound), stamps;
    }
    store.topics := Topics(after);
    stamps := stamps[topic := after[topic].updatedAt];
    r := Ok(store.topics[topic]);
  }

  lemma RestampedStore(db: RadarTables.Db, updatedAt: map<int, int>, user: int, topic: int, name: Option<string>,
                       description: Option<string>, threshold: Option<real>, active: Option<bool>, now: int)
    requires db.topics.Keys <= updatedAt.Keys
    ensures var after := Restamped(Stamp(db.topics, updatedAt), user, topic, name, description, threshold, active, now);
            && db.(topics := Topics(after)) == RadarTables.UpdateTopic(db, user, topic, name, description, threshold, active)
            && (topic in db.topics && db.topics[topic].user == user ==> topic in after && after[topic].updatedAt == now)
  {
    RestampedTopics(Stamp(db.topics, updatedAt), db, user, topic, name, description, threshold, active, now);
  }

  lemma NoTopicClauses(name: Option<string>, description: Option<string>, threshold: Option<real>, active: Option<bool>)
    ensures TopicPatch(name, description, threshold, active) == [] <==>
              name == None && description == None && threshold == None && active == None
  {
    assert |TopicPatch(name, description, threshold, active)|
        == |Field(Name, TextOf(name))| + |Field(Description, TextOf(description))|
           + |Field(MatchThreshold, RealOf(threshold))| + |Field(IsActive, BoolOf(active))|;
  }

  method ExecuteTopic(store: RadarStore.RadarStore, updatedAt: map<int, int>, setClauses: seq<Assign>, args: seq<Value>, argIdx: int,
                      user: int, topic: int, ghost name: Option<string>, ghost description: Option<string>,
                      ghost threshold: Option<real>, ghost active: Option<bool>, now: int)
    returns (found: bool, after: map<int, Stamped>)
    requires store.topics.Keys <= updatedAt.Keys
    requires Building(setClauses, args, argIdx) && DistinctColumns(setClauses) && setClauses != []
    requires Meaning(setClauses, args) == TopicPatch(name, description, threshold, active) + [Assign(UpdatedAt, Now)]
    ensures found <==> topic in store.topics && store.topics[topic].user == user
    ensures after == Restamped(Stamp(store.topics, updatedAt), user, topic, name, description, threshold, active, now)
  {
    var stamped := Stamp(store.topics, updatedAt);
    UpdateTopicRows(setClauses, args, argIdx, stamped, user, topic, name, description, threshold, active, now);
    var result := Update(setClauses, Where(argIdx, UserId, false), args + [IntV(topic), IntV(user)], RowsOf(stamped, TopicRow), now);
    ScanTopicRows(Restamped(stamped, user, topic, name, description, threshold, active, now));
    found := topic in result.value.updated;
    after := ScanTopics(result.value.table);
  }
}
