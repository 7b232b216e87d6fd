/**
 What every radar statement keeps: keys and references stay consistent, and a
 user is only ever connected to feeds visible to them.
 */
module RadarReach {
  import opened Wrappers
  import opened RadarTables

  /** The calls a user or an administrator can make on the radar store. */
  datatype UserOp =
    | OpAddFeed(url: string, owner: Option<int>, interval: int)
    | OpSubscribe(user: int, feed: int, now: int)
    | OpUnsubscribe(user: int, feed: int)
    | OpSeed(user: int, now: int)
    | OpUpdateFeed(feed: int, owner: Option<int>, title: Option<string>, newInterval: Option<int>, active: Option<bool>)
    | OpDeleteFeed(feed: int, owner: Option<int>)
    | OpCreateTopic(user: int, name: string, description: string, threshold: real)
    | OpEmbedTopic(topic: int, vec: Vec)
    | OpUpdateTopic(user: int, topic: int, newName: Option<string>, newDescription: Option<string>,
                    newThreshold: Option<real>, active: Option<bool>)
    | OpDeleteTopic(user: int, topic: int)
    | OpSetMatchState(user: int, key: MatchKey, state: MatchState)
    | OpDeleteUser(user: int)

  function Do(db: Db, op: UserOp): Db {
    match op
    case OpAddFeed(url, owner, interval) => AddFeed(db, url, owner, interval)
    case OpSubscribe(user, feed, now) => Subscribe(db, user, feed, now)
    case OpUnsubscribe(user, feed) => Unsubscribe(db, user, feed)
    case OpSeed(user, now) => Seed(db, user, now)
    case OpUpdateFeed(feed, owner, title, interval, active) => UpdateFeed(db, feed, owner, title, interval, active)
    case OpDeleteFeed(feed, owner) => DeleteFeed(db, feed, owner)
    case OpCreateTopic(user, name, description, threshold) => CreateTopic(db, user, name, description, threshold)
    case OpEmbedTopic(topic, vec) => EmbedTopic(db, topic, vec)
    case OpUpdateTopic(user, topic, name, description, threshold, active) =>
      UpdateTopic(db, user, topic, name, description, threshold, active)
    case OpDeleteTopic(user, topic) => DeleteTopic(db, user, topic)
    case OpSetMatchState(user, key, state) => SetMatchState(db, user, key, state)
    case OpDeleteUser(user) => DeleteUser(db, user)
  }

  // --- Invariants -----------------------------------------------------------------

  ghost predicate FeedIds(feeds: map<int, Feed>, next: int) {
    0 <= next && forall f :: f in feeds ==> 0 <= f < next
  }

  ghost predicate TopicIds(topics: map<int, Topic>, next: int) {
    0 <= next && forall t :: t in topics ==> 0 <= t < next
  }

  ghost predicate FindingIds(findings: map<int, Finding>, next: int) {
    0 <= next && forall x :: x in findings ==> 0 <= x < next
  }

  /** The reference of findings to feeds. */
  ghost predicate FindingsHaveFeeds(findings: map<int, Finding>, feeds: map<int, Feed>) {
    forall x :: x in findings ==> findings[x].feed in feeds
  }

  predicate SameKey(a: Finding, b: Finding) {
    a.ext.Some? && a.feed == b.feed && a.ext == b.ext
  }

  /** UNIQUE (feed_id, external_id). */
  ghost predicate UniqueFindings(findings: map<int, Finding>) {
    forall x, y :: x in findings && y in findings && SameKey(findings[x], findings[y]) ==> x == y
  }

  predicate SameUrl(a: Feed, b: Feed) {
    a.url == b.url && a.owner == b.owner
  }

  /** The partial unique indexes on feed urls. */
  ghost predicate UniqueFeeds(feeds: map<int, Feed>) {
    forall f, g :: f in feeds && g in feeds && SameUrl(feeds[f], feeds[g]) ==> f == g
  }

  predicate SubVisible(feeds: map<int, Feed>, k: SubKey) {
    k.feed in feeds && Visible(feeds[k.feed], k.user)
  }

  /** Every subscription is to a catalog feed or to one the subscriber owns. */
  ghost predicate SubsVisible(subs: map<SubKey, int>, feeds: map<int, Feed>) {
    forall k :: k in subs ==> SubVisible(feeds, k)
  }

  predicate MatchVisible(topics: map<int, Topic>, findings: map<int, Finding>, feeds: map<int, Feed>, k: MatchKey) {
    && k.topic in topics && k.finding in findings && findings[k.finding].feed in feeds
    && Visible(feeds[findings[k.finding].feed], topics[k.topic].user)
  }

  /** Every match ties a topic to a finding of a feed visible to the topic's user. */
  ghost predicate MatchesVisible(matches: map<MatchKey, Match>, topics: map<int, Topic>,
                                 findings: map<int, Finding>, feeds: map<int, Feed>) {
    forall k :: k in matches ==> MatchVisible(topics, findings, feeds, k)
  }

  ghost predicate DbInv(db: Db) {
    && FeedIds(db.feeds, db.nextFeed)
    && TopicIds(db.topics, db.nextTopic)
    && FindingIds(db.findings, db.nextFinding)
    && FindingsHaveFeeds(db.findings, db.feeds)
    && UniqueFindings(db.findings)
    && UniqueFeeds(db.feeds)
    && SubsVisible(db.subs, db.feeds)
    && MatchesVisible(db.matches, db.topics, db.findings, db.feeds)
  }

  // --- What an operation may do to feeds and findings -------------------------------

  /** A finding row that outlives an operation keeps everything but its embedding. */
  predicate SameContent(a: Finding, b: Finding) {
    a.(embedding := None) == b.(embedding := None)
  }

  /** Finding ids are given for life; rows only gain or change their embedding. */
  ghost predicate FindingsFrame(before: map<int, Finding>, next: int, after: map<int, Finding>) {
    forall x :: x in after && x < next ==> x in before && SameContent(before[x], after[x])
  }

  /** A surviving feed keeps its url and owner; feeds are identified for life by their id. */
  ghost predicate FeedsFrame(before: map<int, Feed>, next: int, after: map<int, Feed>) {
    forall f :: f in after ==>
      if f in before then after[f].url == before[f].url && after[f].owner == before[f].owner else f >= next
  }

  /** While a feed lives, its findings live. */
  ghost predicate FindingsStay(before: map<int, Finding>, after: map<int, Finding>, feeds: map<int, Feed>) {
    forall x :: x in before && before[x].feed in feeds ==> x in after
  }

  ghost predicate Frame(before: Db, after: Db) {
    && before.nextFeed <= after.nextFeed
    && before.nextFinding <= after.nextFinding
    && FeedsFrame(before.feeds, before.nextFeed, after.feeds)
    && FindingsFrame(before.findings, before.nextFinding, after.findings)
    && FindingsStay(before.findings, after.findings, after.feeds)
  }

  /** Validators of old feeds are untouched and new feeds have none. */
  ghost predicate ValidatorsFrame(before: map<int, Feed>, after: map<int, Feed>) {
    forall f :: f in after ==>
      if f in before
      then after[f].etag == before[f].etag && after[f].lastModified == before[f].lastModified
      else after[f].etag == None && after[f].lastModified == None
  }

  /** No finding row is created or changed. */
  ghost predicate FindingsOnlyGo(before: map<int, Finding>, after: map<int, Finding>) {
    forall x :: x in after ==> x in before && after[x] == before[x]
  }

  /** User operations leave embeddings and validators alone and create no finding. */
  ghost predicate LeavesPipelineAlone(before: Db, after: Db) {
    && after.nextFinding == before.nextFinding
    && FindingsOnlyGo(before.findings, after.findings)
    && ValidatorsFrame(before.feeds, after.feeds)
  }

  ghost predicate Kept(before: Db, after: Db) {
    DbInv(after) && Frame(before, after) && LeavesPipelineAlone(before, after)
  }

  // --- Preservation -----------------------------------------------------------------

  /** Matches survive any change that keeps owners, topic users and the rows they join. */
  lemma MatchesStayVisible(db: Db, after: Db)
    requires DbInv(db)
    requires forall k :: k in after.matches ==> k in db.matches && k.topic in after.topics && k.finding in after.findings
    requires forall t :: t in after.topics && t in db.topics ==> after.topics[t].user == db.topics[t].user
    requires forall x :: x in after.findings && x in db.findings ==> after.findings[x].feed == db.findings[x].feed
    requires FindingsHaveFeeds(after.findings, after.feeds) && FeedsFrame(db.feeds, db.nextFeed, after.feeds)
    ensures MatchesVisible(after.matches, after.topics, after.findings, after.feeds)
  {
    forall k | k in after.matches ensures MatchVisible(after.topics, after.findings, after.feeds, k) {
      assert MatchVisible(db.topics, db.findings, db.feeds, k);
    }
  }

  lemma SubsStayVisible(db: Db, after: Db)
    requires DbInv(db)
    requires forall k :: k in after.subs ==> k in db.subs && k.feed in after.feeds
    requires FeedsFrame(db.feeds, db.nextFeed, after.feeds)
    ensures SubsVisible(after.subs, after.feeds)
  {
    forall k | k in after.subs ensures SubVisible(after.feeds, k) {
      assert SubVisible(db.feeds, k);
    }
  }

  lemma DropFeedsKeeps(db: Db, gone: set<int>)
    requires DbInv(db)
    ensures Kept(db, DropFeeds(db, gone))
  {
    var after := DropFeeds(db, gone);
    assert FindingsHaveFeeds(after.findings, after.feeds);
    assert forall k :: k in db.subs ==> SubVisible(db.feeds, k);
    SubsStayVisible(db, after);
    assert forall k :: k in db.matches ==> MatchVisible(db.topics, db.findings, db.feeds, k);
    MatchesStayVisible(db, after);
  }

  lemma DropTopicsKeeps(db: Db, gone: set<int>)
    requires DbInv(db)
    ensures Kept(db, DropTopics(db, gone))
  {
    var after := DropTopics(db, gone);
    assert forall k :: k in db.matches ==> MatchVisible(db.topics, db.findings, db.feeds, k);
    MatchesStayVisible(db, after);
  }

  lemma FewerSubsKeeps(db: Db, subs: map<SubKey, int>)
    requires DbInv(db) && subs.Keys <= db.subs.Keys
    ensures Kept(db, db.(subs := subs))
  {
    assert forall k :: k in subs ==> k in db.subs && SubVisible(db.feeds, k);
  }

  lemma KeptTransitive(a: Db, b: Db, c: Db)
    requires DbInv(a) && Kept(a, b) && Kept(b, c)
    ensures Kept(a, c)
  {
    forall f | f in c.feeds && f !in a.feeds ensures f >= a.nextFeed {
      if f in b.feeds {}
    }
  }

  lemma DeleteUserKeeps(db: Db, user: int)
    requires DbInv(db)
    ensures Kept(db, DeleteUser(db, user))
  {
    var gone := set f | f in db.feeds && db.feeds[f].owner == Some(user);
    var topics := set t | t in db.topics && db.topics[t].user == user;
    var mid := DropTopics(db, topics);
    DropTopicsKeeps(db, topics);
    var dropped := DropFeeds(mid, gone);
    DropFeedsKeeps(mid, gone);
    KeptTransitive(db, mid, dropped);
    FewerSubsKeeps(dropped, map k | k in dropped.subs && k.user != user :: dropped.subs[k]);
    KeptTransitive(db, dropped, DeleteUser(db, user));
  }

  /** Feeds may change everything but identity, url and owner. */
  lemma FeedRowKeeps(db: Db, feed: int, row: Feed)
    requires DbInv(db) && feed in db.feeds && SameUrl(row, db.feeds[feed])
    ensures var after := db.(feeds := db.feeds[feed := row]); DbInv(after) && Frame(db, after)
  {
    var after := db.(feeds := db.feeds[feed := row]);
    assert forall k :: k in db.subs ==> SubVisible(db.feeds, k);
    SubsStayVisible(db, after);
    assert forall k :: k in db.matches ==> MatchVisible(db.topics, db.findings, db.feeds, k);
    MatchesStayVisible(db, after);
  }

  lemma AddFeedUnique(db: Db, url: string, owner: Option<int>, interval: int)
    requires UniqueFeeds(db.feeds)
    ensures UniqueFeeds(AddFeed(db, url, owner, interval).feeds)
  {
    var after := AddFeed(db, url, owner, interval);
    forall f, g | f in after.feeds && g in after.feeds && SameUrl(after.feeds[f], after.feeds[g]) ensures f == g {
      if f in db.feeds && g in db.feeds && f != db.nextFeed && g != db.nextFeed { assert SameUrl(db.feeds[f], db.feeds[g]); }
    }
  }

  lemma AddFeedKeeps(db: Db, url: string, owner: Option<int>, interval: int)
    requires DbInv(db)
    ensures Kept(db, AddFeed(db, url, owner, interval))
  {
    var after := AddFeed(db, url, owner, interval);
    AddFeedFrame(db, url, owner, interval);
    AddFeedLeaves(db, url, owner, interval);
    AddFeedRest(db, url, owner, interval);
    AddFeedUnique(db, url, owner, interval);
    SubsStayVisible(db, after);
    assert forall k :: k in db.matches ==> MatchVisible(db.topics, db.findings, db.feeds, k);
    MatchesStayVisible(db, after);
  }

  lemma AddFeedFrame(db: Db, url: string, owner: Option<int>, interval: int)
    requires DbInv(db)
    ensures Frame(db, AddFeed(db, url, owner, interval))
  {
  }

  lemma AddFeedLeaves(db: Db, url: string, owner: Option<int>, interval: int)
    requires DbInv(db)
    ensures LeavesPipelineAlone(db, AddFeed(db, url, owner, interval))
  {
  }

  lemma AddFeedRest(db: Db, url: string, owner: Option<int>, interval: int)
    requires DbInv(db)
    ensures var after := AddFeed(db, url, owner, interval);
            && after.subs == db.subs && after.matches == db.matches && after.topics == db.topics && after.findings == db.findings
            && FeedIds(after.feeds, after.nextFeed) && db.feeds.Keys <= after.feeds.Keys
            && (forall k :: k in db.subs ==> k.feed in after.feeds)
  {
    assert forall k :: k in db.subs ==> SubVisible(db.feeds, k);
  }

  lemma SubscriptionsKeep(db: Db, op: UserOp)
    requires DbInv(db)
    requires op.OpSubscribe? || op.OpUnsubscribe? || op.OpSeed?
    ensures Kept(db, Do(db, op))
  {
    var after := Do(db, op);
    forall k | k in after.subs ensures SubVisible(after.feeds, k) {
      if k in db.subs { assert SubVisible(db.feeds, k); }
    }
  }

  /** Topics may change everything but identity and user. */
  lemma TopicRowKeeps(db: Db, topic: int, row: Topic)
    requires DbInv(db)
    requires topic in db.topics && row.user == db.topics[topic].user
    ensures Kept(db, db.(topics := db.topics[topic := row]))
  {
    assert forall k :: k in db.matches ==> MatchVisible(db.topics, db.findings, db.feeds, k);
    MatchesStayVisible(db, db.(topics := db.topics[topic := row]));
  }

  lemma CreateTopicKeeps(db: Db, row: Topic)
    requires DbInv(db)
    ensures Kept(db, db.(topics := db.topics[db.nextTopic := row], nextTopic := db.nextTopic + 1))
  {
    assert forall k :: k in db.matches ==> MatchVisible(db.topics, db.findings, db.feeds, k);
    MatchesStayVisible(db, db.(topics := db.topics[db.nextTopic := row], nextTopic := db.nextTopic + 1));
  }

  lemma MatchRowKeeps(db: Db, k: MatchKey, row: Match)
    requires DbInv(db) && k in db.matches
    ensures Kept(db, db.(matches := db.matches[k := row]))
  {
    assert forall k :: k in db.matches ==> MatchVisible(db.topics, db.findings, db.feeds, k);
  }

  /** Every user operation keeps the tables consistent and stays out of the pipeline's columns. */
  lemma UserOpKeeps(db: Db, op: UserOp)
    requires DbInv(db)
    ensures Kept(db, Do(db, op))
  {
    match op
    case OpAddFeed(url, owner, interval) => AddFeedKeeps(db, url, owner, interval);
    case OpUpdateFeed(feed, owner, title, interval, active) =>
      if feed in db.feeds { FeedRowKeeps(db, feed, PatchFeed(db.feeds[feed], title, interval, active)); }
    case OpDeleteFeed(feed, _) => DropFeedsKeeps(db, {feed});
    case OpDeleteTopic(_, topic) => DropTopicsKeeps(db, {topic});
    case OpDeleteUser(user) => DeleteUserKeeps(db, user);
    case OpSubscribe(_, _, _) => SubscriptionsKeep(db, op);
    case OpUnsubscribe(_, _) => SubscriptionsKeep(db, op);
    case OpSeed(_, _) => SubscriptionsKeep(db, op);
    case OpCreateTopic(user, name, description, threshold) =>
      CreateTopicKeeps(db, Topic(user, name, description, threshold, true, None));
    case OpEmbedTopic(topic, vec) =>
      if topic in db.topics { TopicRowKeeps(db, topic, db.topics[topic].(embedding := Some(vec))); }
    case OpUpdateTopic(user, topic, name, description, threshold, active) =>
      if topic in db.topics {
        TopicRowKeeps(db, topic, PatchTopic(db.topics[topic], name, description, threshold, active));
      }
    case OpSetMatchState(_, k, state) =>
      if k in db.matches { MatchRowKeeps(db, k, db.matches[k].(state := state)); }
  }

  // --- The statements the workers send ----------------------------------------------

  lemma MarkFetchedKeeps(db: Db, feed: int, etag: Option<string>, lastModified: Option<string>,
                         title: Option<string>, now: int)
    requires DbInv(db)
    ensures var after := MarkFetched(db, feed, etag, lastModified, title, now); DbInv(after) && Frame(db, after)
  {
    if feed in db.feeds {
      FeedRowKeeps(db, feed, MarkFetched(db, feed, etag, lastModified, title, now).feeds[feed]);
    }
  }

  lemma MarkErrorKeeps(db: Db, feed: int, message: string, now: int)
    requires DbInv(db)
    ensures Kept(db, MarkError(db, feed, message, now))
  {
    if feed in db.feeds {
      FeedRowKeeps(db, feed, MarkError(db, feed, message, now).feeds[feed]);
    }
  }

  lemma InsertFindingKeeps(db: Db, up: FindingUpsert)
    requires DbInv(db) && up.feed in db.feeds
    ensures DbInv(InsertFinding(db, up)) && Frame(db, InsertFinding(db, up))
  {
    var after := InsertFinding(db, up);
    if !Conflicts(db, up) {
      forall x | x in db.findings ensures !SameKey(after.findings[x], after.findings[db.nextFinding]) {
        assert SameKey(after.findings[x], after.findings[db.nextFinding]) ==> HasKey(db, up.feed, up.ext);
      }
      assert UniqueFindings(after.findings);
      assert forall k :: k in db.matches ==> MatchVisible(db.topics, db.findings, db.feeds, k);
      MatchesStayVisible(db, after);
    }
  }

  lemma UniquenessIgnoresEmbeddings(before: map<int, Finding>, after: map<int, Finding>)
    requires UniqueFindings(before)
    requires forall x :: x in after ==> x in before && SameContent(before[x], after[x])
    ensures UniqueFindings(after)
  {
    forall y, z | y in after && z in after && SameKey(after[y], after[z]) ensures y == z {
      assert SameKey(before[y], before[z]);
    }
  }

  lemma SetEmbeddingKeeps(db: Db, x: int, vec: Vec)
    requires DbInv(db)
    ensures DbInv(SetEmbedding(db, x, vec)) && Frame(db, SetEmbedding(db, x, vec))
  {
    var after := SetEmbedding(db, x, vec);
    SetEmbeddingFrame(db, x, vec);
    UniquenessIgnoresEmbeddings(db.findings, after.findings);
    assert forall k :: k in db.matches ==> MatchVisible(db.topics, db.findings, db.feeds, k);
    MatchesStayVisible(db, after);
  }

  lemma SetEmbeddingFrame(db: Db, x: int, vec: Vec)
    requires DbInv(db)
    ensures var after := SetEmbedding(db, x, vec);
            && Frame(db, after) && FindingIds(after.findings, after.nextFinding) && FindingsHaveFeeds(after.findings, after.feeds)
  {
  }

  lemma MatchFindingKeeps(sim: Similarity, db: Db, x: int)
    requires DbInv(db)
    ensures Kept(db, MatchFinding(sim, db, x))
  {
    var after := MatchFinding(sim, db, x);
    forall k | k in after.matches ensures MatchVisible(after.topics, after.findings, after.feeds, k) {
      if k in db.matches {
        assert MatchVisible(db.topics, db.findings, db.feeds, k);
      } else {
        assert SubVisible(db.feeds, SubKey(db.topics[k.topic].user, db.findings[x].feed));
      }
    }
  }
}
