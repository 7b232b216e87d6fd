/** The list of a user's matches: optional filters as nullable parameters, count and page alike. */
module MatchList {
  import opened Wrappers
  import opened Sql
  import opened RadarTables
  import opened RadarReach
  import RadarPipeline
  import PipelineBase
  import opened Pagination
  import opened Ordering
  import opened Repaging

  datatype Filter = Filter(user: int, topic: Option<int>, state: Option<MatchState>)

  function StateText(state: MatchState): string {
    match state
    case New => "new"
    case Seen => "seen"
  }

  /** m.topic_id, m.state and t.user_id of a joined row. */
  function MatchRow(k: MatchKey, m: Match, t: Topic): Row {
    map[TopicId := IntV(k.topic), State := TextV(StateText(m.state)), UserId := IntV(t.user)]
  }

  /** t.user_id = $1 AND ($2 IS NULL OR m.topic_id = $2) AND ($3 IS NULL OR m.state = $3). */
  const MATCHES_WHERE :=
    And(And(Eq(Col(UserId), Param(1)), Or(IsNull(Param(2)), Eq(Col(TopicId), Param(2)))),
        Or(IsNull(Param(3)), Eq(Col(State), Param(3))))

  function FilterArgs(f: Filter): seq<Value> {
    [IntV(f.user), if f.topic.Some? then IntV(f.topic.value) else Null,
     if f.state.Some? then TextV(StateText(f.state.value)) else Null]
  }

  predicate Wanted(k: MatchKey, m: Match, t: Topic, f: Filter) {
    t.user == f.user && (f.topic.Some? ==> k.topic == f.topic.value) && (f.state.Some? ==> m.state == f.state.value)
  }

  lemma FilterSelects(f: Filter, more: seq<Value>, k: MatchKey, m: Match, t: Topic, now: int)
    ensures CondInRange(MATCHES_WHERE, |FilterArgs(f) + more|)
    ensures Holds(MATCHES_WHERE, FilterArgs(f) + more, MatchRow(k, m, t), now) == True3 <==> Wanted(k, m, t, f)
  {
    var args, row := FilterArgs(f) + more, MatchRow(k, m, t);
    assert args[..3] == FilterArgs(f);
    assert args[0] == FilterArgs(f)[0] && args[1] == FilterArgs(f)[1] && args[2] == FilterArgs(f)[2];
    var mine := Eq(Col(UserId), Param(1));
    var onTopic := Or(IsNull(Param(2)), Eq(Col(TopicId), Param(2)));
    var inState := Or(IsNull(Param(3)), Eq(Col(State), Param(3)));
    assert CondInRange(mine, |args|) && CondInRange(Eq(Col(TopicId), Param(2)), |args|) && CondInRange(Eq(Col(State), Param(3)), |args|);
    assert CondInRange(onTopic, |args|) && CondInRange(inState, |args|) && CondInRange(And(mine, onTopic), |args|);
    assert Holds(mine, args, row, now) == Truly(t.user == f.user);
    assert Holds(onTopic, args, row, now) == Truly(f.topic.Some? ==> k.topic == f.topic.value);
    assert StateText(New) != StateText(Seen) by { assert StateText(New)[0] != StateText(Seen)[0]; }
    assert Holds(inState, args, row, now) == Truly(f.state.Some? ==> m.state == f.state.value);
    assert Holds(And(mine, onTopic), args, row, now) == Both(Holds(mine, args, row, now), Holds(onTopic, args, row, now));
    assert MATCHES_WHERE == And(And(mine, onTopic), inState);
  }

  /** The count joins topics only. */
  function Counted(db: Db, f: Filter, now: int): set<MatchKey> {
    set k | k in db.matches && k.topic in db.topics && CondInRange(MATCHES_WHERE, |FilterArgs(f)|)
            && Holds(MATCHES_WHERE, FilterArgs(f), MatchRow(k, db.matches[k], db.topics[k.topic]), now) == True3
  }

  /** The page joins topics, findings and feeds, and has LIMIT and OFFSET as arguments four and five. */
  function Joined(db: Db, f: Filter, limit: int, offset: int, now: int): set<MatchKey> {
    var args := FilterArgs(f) + [IntV(limit), IntV(offset)];
    set k | k in db.matches && k.topic in db.topics && k.finding in db.findings && db.findings[k.finding].feed in db.feeds
            && CondInRange(MATCHES_WHERE, |args|)
            && Holds(MATCHES_WHERE, args, MatchRow(k, db.matches[k], db.topics[k.topic]), now) == True3
  }

  function WantedKeys(db: Db, f: Filter): set<MatchKey> {
    set k | k in db.matches && k.topic in db.topics && Wanted(k, db.matches[k], db.topics[k.topic], f)
  }

  /** In every state the pipeline reaches, the extra joins of the page lose no counted match. */
  lemma CountMatchesPage(w: RadarPipeline.World, steps: seq<RadarPipeline.Step>, f: Filter, limit: int, offset: int, now: int)
    ensures var db := RadarPipeline.Run(w, RadarPipeline.START, steps).db;
            Counted(db, f, now) == WantedKeys(db, f) && Joined(db, f, limit, offset, now) == WantedKeys(db, f)
  {
    PipelineBase.RunBase(w, RadarPipeline.START, steps);
    var db := RadarPipeline.Run(w, RadarPipeline.START, steps).db;
    forall k | k in db.matches
      ensures k in Counted(db, f, now) <==> k in WantedKeys(db, f)
      ensures k in Joined(db, f, limit, offset, now) <==> k in WantedKeys(db, f)
    {
      assert MatchVisible(db.topics, db.findings, db.feeds, k);
      FilterSelects(f, [], k, db.matches[k], db.topics[k.topic], now);
      FilterSelects(f, [IntV(limit), IntV(offset)], k, db.matches[k], db.topics[k.topic], now);
      assert FilterArgs(f) + [] == FilterArgs(f);
    }
  }

  /**
   The loop of useMatchesQuery, for whatever limit is asked and whatever order the query gives each time:
   exactly the wanted matches, each once and latest first, if no two of the same time meet at a page boundary.
   */
  method LoadMatches(db: Db, f: Filter, limit: int, ghost matchedAt: MatchKey -> int, answers: seq<seq<MatchKey>>)
    returns (pages: seq<Page<MatchKey>>)
    requires answers != [] && |answers| > |answers[0]| && AllListings(WantedKeys(db, f), matchedAt, answers)
    ensures |pages| <= |answers| && pages == Served(answers, RadarLimit(limit), |pages|) && NextPageParam(pages) == None
    ensures !BoundaryTie(matchedAt, answers[0], RadarLimit(limit)) ==> Listing(WantedKeys(db, f), matchedAt, Flatten(pages))
    ensures NoTies(WantedKeys(db, f), matchedAt) ==>
              forall other :: Listing(WantedKeys(db, f), matchedAt, other) ==> other == Flatten(pages)
  {
    pages := FetchOrdered(answers, RadarLimit(limit), WantedKeys(db, f), matchedAt);
    if NoTies(WantedKeys(db, f), matchedAt) {
      forall other | Listing(WantedKeys(db, f), matchedAt, other) ensures other == Flatten(pages) {
        NoTiesOneListing(WantedKeys(db, f), matchedAt, other, answers[0]);
      }
    }
  }
}
