/** The UPDATE builders of the radar store, against the patches they stand for. */
module RadarPatches {
  import opened Wrappers
  import opened Sql
  import opened SqlPatch
  import RadarTables

  // --- Feeds --------------------------------------------------------------------------------

  function OptText(s: Option<string>): Value {
    if s.Some? then TextV(s.value) else Null
  }

  function OptInt(i: Option<int>): Value {
    if i.Some? then IntV(i.value) else Null
  }

  function OptTime(i: Option<int>): Value {
    if i.Some? then TimeV(i.value) else Null
  }

  function FeedRow(id: int, f: RadarTables.Feed): Row {
    map[Id := IntV(id), Url := TextV(f.url), OwnerUserId := OptInt(f.owner), Title := OptText(f.title),
        FetchIntervalSeconds := IntV(f.interval), IsActive := BoolV(f.active), Etag := OptText(f.etag),
        LastModified := OptText(f.lastModified), LastFetchedAt := OptTime(f.lastFetchedAt), LastError := OptText(f.lastError)]
  }

  function TextOf(s: Option<string>): Option<Value> {
    if s.Some? then Some(TextV(s.value)) else None
  }

  function IntOf(i: Option<int>): Option<Value> {
    if i.Some? then Some(IntV(i.value)) else None
  }

  function BoolOf(b: Option<bool>): Option<Value> {
    if b.Some? then Some(BoolV(b.value)) else None
  }

  function RealOf(r: Option<real>): Option<Value> {
    if r.Some? then Some(RealV(r.value)) else None
  }

  /** An empty title clears the column. */
  function TitleClause(title: Option<string>): seq<Assign> {
    if title.Some? then [Assign(Title, NullIf(Const(TextV(title.value)), Const(TextV(""))))] else []
  }

  /** The clauses the patch stands for, values in place. */
  function FeedPatch(title: Option<string>, interval: Option<int>, active: Option<bool>): seq<Assign> {
    TitleClause(title) + Field(FetchIntervalSeconds, IntOf(interval)) + Field(IsActive, BoolOf(active))
  }

  method BuildUpdateFeed(title: Option<string>, interval: Option<int>, active: Option<bool>)
    returns (setClauses: seq<Assign>, args: seq<Value>, argIdx: int)
    ensures Building(setClauses, args, argIdx) && DistinctColumns(setClauses)
    ensures Meaning(setClauses, args) == FeedPatch(title, interval, active)
  {
    setClauses, args, argIdx := [], [], 1;
    if title.Some? {
      Append(setClauses, args, argIdx, Assign(Title, NullIf(Param(argIdx), Const(TextV("")))), [TextV(title.value)]);
      setClauses := setClauses + [Assign(Title, NullIf(Param(argIdx), Const(TextV(""))))];
      args := args + [TextV(title.value)];
      argIdx := argIdx + 1;
    }
    setClauses, args, argIdx := Put(setClauses, args, argIdx, FetchIntervalSeconds, IntOf(interval));
    setClauses, args, argIdx := Put(setClauses, args, argIdx, IsActive, BoolOf(active));
    assert forall i, j :: 0 <= i < j < |Columns(setClauses)| ==> Columns(setClauses)[i] != Columns(setClauses)[j];
  }

  /** The title column after the patch; null when the new title is empty. */
  function NewTitle(title: Option<string>): Option<Value> {
    if title.Some? then Some(if title.value == "" then Null else TextV(title.value)) else None
  }

  /** NULLIF(title, ''). */
  lemma TitleValue(t: string, row: Row, now: int)
    ensures Eval(NullIf(Const(TextV(t)), Const(TextV(""))), [], row, now) == if t == "" then Null else TextV(t)
  {
    assert Eval(Const(TextV(t)), [], row, now) == TextV(t) && Eval(Const(TextV("")), [], row, now) == TextV("");
  }

  lemma TitleEffect(row: Row, title: Option<string>, now: int)
    ensures SetsInRange(TitleClause(title), 0)
    ensures Assigned(TitleClause(title), [], row, now) == Write(row, Title, NewTitle(title))
  {
    if title.Some? {
      var clause := Assign(Title, NullIf(Const(TextV(title.value)), Const(TextV(""))));
      AssignedMore([], clause, row, now);
      TitleValue(title.value, row, now);
      assert [] + [clause] == TitleClause(title);
    }
  }

  /** On any row, the clauses write what the patch gives. */
  lemma FeedPatchEffect(row: Row, title: Option<string>, interval: Option<int>, active: Option<bool>, now: int)
    ensures SetsInRange(FeedPatch(title, interval, active), 0)
    ensures Assigned(FeedPatch(title, interval, active), [], row, now)
         == Write(Write(Write(row, Title, NewTitle(title)), FetchIntervalSeconds, IntOf(interval)), IsActive, BoolOf(active))
  {
    TitleEffect(row, title, now);
    AssignedField(TitleClause(title), FetchIntervalSeconds, IntOf(interval), row, now);
    AssignedField(TitleClause(title) + Field(FetchIntervalSeconds, IntOf(interval)), IsActive, BoolOf(active), row, now);
  }

  lemma FeedRowTitle(id: int, f: RadarTables.Feed, title: Option<string>)
    ensures FeedRow(id, f.(title := title)) == FeedRow(id, f)[Title := OptText(title)]
  {
  }

  lemma FeedRowRest(id: int, f: RadarTables.Feed, interval: int, active: bool)
    ensures FeedRow(id, f.(interval := interval)) == FeedRow(id, f)[FetchIntervalSeconds := IntV(interval)]
    ensures FeedRow(id, f.(active := active)) == FeedRow(id, f)[IsActive := BoolV(active)]
  {
  }

  /** Executing the clauses on a feed's row is patching the feed. */
  lemma FeedPatchRow(id: int, f: RadarTables.Feed, title: Option<string>, interval: Option<int>, active: Option<bool>, now: int)
    ensures SetsInRange(FeedPatch(title, interval, active), 0)
    ensures Assigned(FeedPatch(title, interval, active), [], FeedRow(id, f), now)
         == FeedRow(id, RadarTables.PatchFeed(f, title, interval, active))
  {
    FeedPatchEffect(FeedRow(id, f), title, interval, active, now);
    var a := if title.Some? then f.(title := if title.value == "" then None else title) else f;
    var b := if interval.Some? then a.(interval := interval.value) else a;
    if title.Some? { FeedRowTitle(id, f, if title.value == "" then None else title); }
    if interval.Some? { FeedRowRest(id, a, interval.value, true); }
    if active.Some? { FeedRowRest(id, b, 0, active.value); }
    assert RadarTables.PatchFeed(f, title, interval, active) == if active.Some? then b.(active := active.value) else b;
  }

  const ANY_FEED := RadarTables.Feed("", None, None, 0, true, None, None, None, None)

  lemma FeedRowsKeyed()
    ensures RowsKeyed(FeedRow)
  {
  }

  lemma FeedScope(id: int, f: RadarTables.Feed, owner: Option<int>)
    ensures InScope(FeedRow(id, f), OwnerUserId, OptInt(owner), true) <==> f.owner == owner
  {
  }

  /**
   The executed UPDATE is RadarTables.UpdateFeed: the addressed feed of that owner, null meaning the catalog,
   gets the patch, and no other row of the table changes.
   */
  lemma UpdateFeedMeansPatch(setClauses: seq<Assign>, args: seq<Value>, argIdx: int, db: RadarTables.Db, feed: int,
                             owner: Option<int>, title: Option<string>, interval: Option<int>, active: Option<bool>, now: int)
    requires Building(setClauses, args, argIdx) && DistinctColumns(setClauses) && setClauses != []
    requires Meaning(setClauses, args) == FeedPatch(title, interval, active)
    ensures Update(setClauses, Where(argIdx, OwnerUserId, true), args + [IntV(feed), OptInt(owner)], RowsOf(db.feeds, FeedRow), now)
         == Ok(Effect(RowsOf(RadarTables.UpdateFeed(db, feed, owner, title, interval, active).feeds, FeedRow),
                      if feed in db.feeds && db.feeds[feed].owner == owner then {feed} else {}))
  {
    MeaningIsClosed(setClauses, args);
    FeedRowsKeyed();
    if feed in db.feeds {
      FeedPatchRow(feed, db.feeds[feed], title, interval, active, now);
      FeedScope(feed, db.feeds[feed], owner);
    }
    UpdateRecords(setClauses, args, argIdx, OwnerUserId, true, db.feeds, FeedRow, feed, OptInt(owner),
                  feed in db.feeds && db.feeds[feed].owner == owner,
                  if feed in db.feeds then RadarTables.PatchFeed(db.feeds[feed], title, interval, active) else ANY_FEED, now);
  }

  // --- Topics -------------------------------------------------------------------------------

  /** A topic with its updated_at. */
  datatype Stamped = Stamped(topic: RadarTables.Topic, updatedAt: int)

  function TopicRow(id: int, s: Stamped): Row {
    var t := s.topic;
    map[Id := IntV(id), UserId := IntV(t.user), Name := TextV(t.name), Description := TextV(t.description),
        MatchThreshold := RealV(t.threshold), IsActive := BoolV(t.active),
        Embedding := if t.embedding.Some? then VectorV(t.embedding.value) else Null, UpdatedAt := TimeV(s.updatedAt)]
  }

  function TopicPatch(name: Option<string>, description: Option<string>, threshold: Option<real>, active: Option<bool>): seq<Assign> {
    [] + Field(Name, TextOf(name)) + Field(Description, TextOf(description))
    + Field(MatchThreshold, RealOf(threshold)) + Field(IsActive, BoolOf(active))
  }

  /** Without a field to change there are no clauses, and the caller reports an error. */
  method BuildUpdateTopic(name: Option<string>, description: Option<string>, threshold: Option<real>, active: Option<bool>)
    returns (setClauses: seq<Assign>, args: seq<Value>, argIdx: int)
    ensures Building(setClauses, args, argIdx) && DistinctColumns(setClauses)
    ensures setClauses == [] <==> TopicPatch(name, description, threshold, active) == []
    ensures setClauses != [] ==> Meaning(setClauses, args) == TopicPatch(name, description, threshold, active) + [Assign(UpdatedAt, Now)]
  {
    setClauses, args, argIdx := BuildTopicFields(name, description, threshold, active);
    if |setClauses| == 0 {
      return;
    }
    ghost var before := Columns(setClauses);
    Append(setClauses, args, argIdx, Assign(UpdatedAt, Now), []);
    assert args + [] == args;
    setClauses := setClauses + [Assign(UpdatedAt, Now)];
    assert forall i :: 0 <= i < |before| ==> setClauses[i].col == before[i];
  }

  method BuildTopicFields(name: Option<string>, description: Option<string>, threshold: Option<real>, active: Option<bool>)
    returns (setClauses: seq<Assign>, args: seq<Value>, argIdx: int)
    ensures Building(setClauses, args, argIdx) && Meaning(setClauses, args) == TopicPatch(name, description, threshold, active)
    ensures UpdatedAt !in Columns(setClauses)
    ensures forall i, j :: 0 <= i < j < |setClauses| ==> Columns(setClauses)[i] != Columns(setClauses)[j]
  {
    setClauses, args, argIdx := [], [], 1;
    setClauses, args, argIdx := Put(setClauses, args, argIdx, Name, TextOf(name));
    setClauses, args, argIdx := Put(setClauses, args, argIdx, Description, TextOf(description));
    setClauses, args, argIdx := Put(setClauses, args, argIdx, MatchThreshold, RealOf(threshold));
    setClauses, args, argIdx := Put(setClauses, args, argIdx, IsActive, BoolOf(active));
  }

  /** On any row, the clauses write what the patch gives, and the time. */
  lemma TopicPatchEffect(row: Row, name: Option<string>, description: Option<string>, threshold: Option<real>, active: Option<bool>, now: int)
    ensures var patch := TopicPatch(name, description, threshold, active) + [Assign(UpdatedAt, Now)];
            && SetsInRange(patch, 0)
            && Assigned(patch, [], row, now)
            == Write(Write(Write(Write(row, Name, TextOf(name)), Description, TextOf(description)),
                           MatchThreshold, RealOf(threshold)), IsActive, BoolOf(active))[UpdatedAt := TimeV(now)]
  {
    var a := [] + Field(Name, TextOf(name));
    var b := a + Field(Description, TextOf(description));
    var c := b + Field(MatchThreshold, RealOf(threshold));
    AssignedField([], Name, TextOf(name), row, now);
    AssignedField(a, Description, TextOf(description), row, now);
    AssignedField(b, MatchThreshold, RealOf(threshold), row, now);
    AssignedField(c, IsActive, BoolOf(active), row, now);
    AssignedMore(TopicPatch(name, description, threshold, active), Assign(UpdatedAt, Now), row, now);
  }

  lemma TopicRowTexts(id: int, s: Stamped, name: string, description: string)
    ensures TopicRow(id, s.(topic := s.topic.(name := name))) == TopicRow(id, s)[Name := TextV(name)]
    ensures TopicRow(id, s.(topic := s.topic.(description := description))) == TopicRow(id, s)[Description := TextV(description)]
  {
  }

  lemma TopicRowRest(id: int, s: Stamped, threshold: real, active: bool, now: int)
    ensures TopicRow(id, s.(topic := s.topic.(threshold := threshold))) == TopicRow(id, s)[MatchThreshold := RealV(threshold)]
    ensures TopicRow(id, s.(topic := s.topic.(active := active))) == TopicRow(id, s)[IsActive := BoolV(active)]
    ensures TopicRow(id, s.(updatedAt := now)) == TopicRow(id, s)[UpdatedAt := TimeV(now)]
  {
  }

  lemma TopicPatchRow(id: int, s: Stamped, name: Option<string>, description: Option<string>,
                      threshold: Option<real>, active: Option<bool>, now: int)
    ensures var patch := TopicPatch(name, description, threshold, active) + [Assign(UpdatedAt, Now)];
            && SetsInRange(patch, 0)
            && Assigned(patch, [], TopicRow(id, s), now)
            == TopicRow(id, Stamped(RadarTables.PatchTopic(s.topic, name, description, threshold, active), now))
  {
    TopicPatchEffect(TopicRow(id, s), name, description, threshold, active, now);
    var a := if name.Some? then s.(topic := s.topic.(name := name.value)) else s;
    var b := if description.Some? then a.(topic := a.topic.(description := description.value)) else a;
    var c := if threshold.Some? then b.(topic := b.topic.(threshold := threshold.value)) else b;
    var d := if active.Some? then c.(topic := c.topic.(active := active.value)) else c;
    TopicRowTexts(id, s, name.GetOr(""), "");
    TopicRowTexts(id, a, "", description.GetOr(""));
    TopicRowRest(id, b, threshold.GetOr(0.0), true, now);
    TopicRowRest(id, c, 0.0, active.GetOr(true), now);
    TopicRowRest(id, d, 0.0, true, now);
    assert d.(updatedAt := now) == Stamped(RadarTables.PatchTopic(s.topic, name, description, threshold, active), now);
  }

  const ANY_TOPIC := Stamped(RadarTables.Topic(0, "", "", 0.0, true, None), 0)

  lemma TopicRowsKeyed()
    ensures RowsKeyed(TopicRow)
  {
  }

  lemma TopicScope(id: int, s: Stamped, user: int)
    ensures InScope(TopicRow(id, s), UserId, IntV(user), false) <==> s.topic.user == user
  {
  }

  function Topics(stamped: map<int, Stamped>): map<int, RadarTables.Topic> {
    map t | t in stamped :: stamped[t].topic
  }

  /** The table after the update: the user's topic is patched and stamped. */
  function Restamped(stamped: map<int, Stamped>, user: int, topic: int, name: Option<string>, description: Option<string>,
                     threshold: Option<real>, active: Option<bool>, now: int): map<int, Stamped> {
    if topic in stamped && stamped[topic].topic.user == user
    then stamped[topic := Stamped(RadarTables.PatchTopic(stamped[topic].topic, name, description, threshold, active), now)]
    else stamped
  }

  lemma RestampedTopics(stamped: map<int, Stamped>, db: RadarTables.Db, user: int, topic: int, name: Option<string>,
                        description: Option<string>, threshold: Option<real>, active: Option<bool>, now: int)
    requires Topics(stamped) == db.topics
    ensures Topics(Restamped(stamped, user, topic, name, description, threshold, active, now))
         == RadarTables.UpdateTopic(db, user, topic, name, description, threshold, active).topics
  {
  }

  lemma UpdateTopicRows(setClauses: seq<Assign>, args: seq<Value>, argIdx: int, stamped: map<int, Stamped>,
                        user: int, topic: int, name: Option<string>, description: Option<string>,
                        threshold: Option<real>, active: Option<bool>, now: int)
    requires Building(setClauses, args, argIdx) && DistinctColumns(setClauses) && setClauses != []
    requires Meaning(setClauses, args) == TopicPatch(name, description, threshold, active) + [Assign(UpdatedAt, Now)]
    ensures Update(setClauses, Where(argIdx, UserId, false), args + [IntV(topic), IntV(user)], RowsOf(stamped, TopicRow), now)
         == Ok(Effect(RowsOf(Restamped(stamped, user, topic, name, description, threshold, active, now), TopicRow),
                      if topic in stamped && stamped[topic].topic.user == user then {topic} else {}))
  {
    MeaningIsClosed(setClauses, args);
    TopicRowsKeyed();
    var patched := ANY_TOPIC;
    if topic in stamped {
      patched := Stamped(RadarTables.PatchTopic(stamped[topic].topic, name, description, threshold, active), now);
      TopicPatchRow(topic, stamped[topic], name, description, threshold, active, now);
      TopicScope(topic, stamped[topic], user);
    }
    var mine := topic in stamped && stamped[topic].topic.user == user;
    UpdateRecords(setClauses, args, argIdx, UserId, false, stamped, TopicRow, topic, IntV(user), mine, patched, now);
  }

  /** The executed UPDATE is RadarTables.UpdateTopic, with updated_at stamped on the row it changed. */
  lemma UpdateTopicMeansPatch(setClauses: seq<Assign>, args: seq<Value>, argIdx: int, db: RadarTables.Db, stamped: map<int, Stamped>,
                              user: int, topic: int, name: Option<string>, description: Option<string>,
                              threshold: Option<real>, active: Option<bool>, now: int)
    requires Building(setClauses, args, argIdx) && DistinctColumns(setClauses) && setClauses != []
    requires Meaning(setClauses, args) == TopicPatch(name, description, threshold, active) + [Assign(UpdatedAt, Now)]
    requires Topics(stamped) == db.topics
    ensures var after := Restamped(stamped, user, topic, name, description, threshold, active, now);
            && Topics(after) == RadarTables.UpdateTopic(db, user, topic, name, description, threshold, active).topics
            && Update(setClauses, Where(argIdx, UserId, false), args + [IntV(topic), IntV(user)], RowsOf(stamped, TopicRow), now)
            == Ok(Effect(RowsOf(after, TopicRow), if topic in stamped && stamped[topic].topic.user == user then {topic} else {}))
  {
    RestampedTopics(stamped, db, user, topic, name, description, threshold, active, now);
    UpdateTopicRows(setClauses, args, argIdx, stamped, user, topic, name, description, threshold, active, now);
  }
}
