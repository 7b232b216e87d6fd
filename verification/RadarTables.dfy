/**
 The radar tables and the meaning of each SQL statement the radar store sends.

 A table is a map from its key to its rows; a statement is a function from the
 database before to the database after, because Postgres runs each of them
 atomically.  Identity columns are drawn from counters that never go back.
 */
module RadarTables {
  import opened Wrappers
  import opened Text

  type Vec = seq<real>

  datatype Feed = Feed(
    url: string, owner: Option<int>, title: Option<string>, interval: int, active: bool,
    etag: Option<string>, lastModified: Option<string>,
    lastFetchedAt: Option<int>, lastError: Option<string>)

  datatype Finding = Finding(
    feed: int, ext: Option<string>, url: string, title: Option<string>, summary: Option<string>,
    publishedAt: Option<int>, embedding: Option<Vec>)

  datatype Topic = Topic(
    user: int, name: string, description: string, threshold: real, active: bool,
    embedding: Option<Vec>)

  datatype MatchState = New | Seen

  datatype Match = Match(similarity: real, state: MatchState)

  /** PRIMARY KEY (user_id, feed_id). */
  datatype SubKey = SubKey(user: int, feed: int)

  /** UNIQUE (topic_id, finding_id). */
  datatype MatchKey = MatchKey(topic: int, finding: int)

  /** A subscription's row is its created_at. */
  datatype Db = Db(
    feeds: map<int, Feed>, subs: map<SubKey, int>, findings: map<int, Finding>,
    topics: map<int, Topic>, matches: map<MatchKey, Match>,
    nextFeed: int, nextFinding: int, nextTopic: int)

  const EMPTY_DB := Db(map[], map[], map[], map[], map[], 0, 0, 0)

  datatype FindingUpsert = FindingUpsert(
    feed: int, ext: Option<string>, url: string, title: Option<string>, summary: Option<string>,
    publishedAt: Option<int>)

  datatype StoreError = NotFound | Duplicate | FeedNotFound | InvalidInput | QuotaExceeded

  /** Pgvector's 1 - (a <=> b), left abstract. */
  type Similarity = (Vec, Vec) -> real

  /** A feed a user may see: catalog feeds have a null owner. */
  predicate Visible(f: Feed, user: int) {
    f.owner == None || f.owner == Some(user)
  }

  // --- Feeds and subscriptions ------------------------------------------------

  /** The partial unique indexes on (url) of catalog feeds and (url, owner) of personal ones. */
  predicate UrlTaken(db: Db, url: string, owner: Option<int>) {
    exists f :: f in db.feeds && db.feeds[f].url == url && db.feeds[f].owner == owner
  }

  /** A user's personal feeds. */
  function Owned(db: Db, user: int): set<int> {
    set f | f in db.feeds && db.feeds[f].owner == Some(user)
  }

  function AddFeed(db: Db, url: string, owner: Option<int>, interval: int): Db {
    if UrlTaken(db, url, owner) then db
    else db.(feeds := db.feeds[db.nextFeed := Feed(url, owner, None, interval, true, None, None, None, None)],
             nextFeed := db.nextFeed + 1)
  }

  predicate MaySubscribe(db: Db, user: int, feed: int) {
    feed in db.feeds && Visible(db.feeds[feed], user)
  }

  /** INSERT .. SELECT guarded by visibility; a conflict keeps the old created_at. */
  function Subscribe(db: Db, user: int, feed: int, now: int): Db {
    if MaySubscribe(db, user, feed) && SubKey(user, feed) !in db.subs
    then db.(subs := db.subs[SubKey(user, feed) := now])
    else db
  }

  function Unsubscribe(db: Db, user: int, feed: int): Db {
    db.(subs := db.subs - {SubKey(user, feed)})
  }

  function Seed(db: Db, user: int, now: int): Db {
    db.(subs := (map f | f in db.feeds && db.feeds[f].active && db.feeds[f].owner == None :: SubKey(user, f) := now) + db.subs)
  }

  function PatchFeed(f: Feed, title: Option<string>, interval: Option<int>, active: Option<bool>): Feed {
    f.(title := if title == None then f.title else if title == Some("") then None else title,
       interval := interval.GetOr(f.interval),
       active := active.GetOr(f.active))
  }

  function UpdateFeed(db: Db, feed: int, owner: Option<int>, title: Option<string>, interval: Option<int>,
                      active: Option<bool>): Db {
    if feed in db.feeds && db.feeds[feed].owner == owner
    then db.(feeds := db.feeds[feed := PatchFeed(db.feeds[feed], title, interval, active)])
    else db
  }

  function SubsWithout(subs: map<SubKey, int>, gone: set<int>): map<SubKey, int> {
    map k | k in subs && k.feed !in gone :: subs[k]
  }

  function FindingsWithout(findings: map<int, Finding>, gone: set<int>): map<int, Finding> {
    map x | x in findings && findings[x].feed !in gone :: findings[x]
  }

  function MatchesWithout(matches: map<MatchKey, Match>, findings: map<int, Finding>, gone: set<int>): map<MatchKey, Match> {
    map k | k in matches && !(k.finding in findings && findings[k.finding].feed in gone) :: matches[k]
  }

  /** Deleting feeds cascades to their subscriptions, findings and matches. */
  function DropFeeds(db: Db, gone: set<int>): Db {
    db.(feeds := db.feeds - gone,
        subs := SubsWithout(db.subs, gone),
        findings := FindingsWithout(db.findings, gone),
        matches := MatchesWithout(db.matches, db.findings, gone))
  }

  function DeleteFeed(db: Db, feed: int, owner: Option<int>): Db {
    if feed in db.feeds && db.feeds[feed].owner == owner then DropFeeds(db, {feed}) else db
  }

  /** nullif(btrim(title), ''). */
  function NullIfBlank(title: Option<string>): Option<string> {
    if title == None || Btrim(title.value) == "" then None else Some(Btrim(title.value))
  }

  function MarkFetched(db: Db, feed: int, etag: Option<string>, lastModified: Option<string>,
                       title: Option<string>, now: int): Db {
    if feed in db.feeds
    then db.(feeds := db.feeds[feed := db.feeds[feed].(
               etag := etag, lastModified := lastModified, lastError := None, lastFetchedAt := Some(now),
               title := Coalesce(db.feeds[feed].title, NullIfBlank(title)))])
    else db
  }

  function MarkError(db: Db, feed: int, message: string, now: int): Db {
    if feed in db.feeds
    then db.(feeds := db.feeds[feed := db.feeds[feed].(lastError := Some(message), lastFetchedAt := Some(now))])
    else db
  }

  // --- Findings -----------------------------------------------------------------

  predicate HasKey(db: Db, feed: int, ext: Option<string>) {
    exists x :: x in db.findings && db.findings[x].feed == feed && db.findings[x].ext == ext
  }

  /** ON CONFLICT (feed_id, external_id): null external ids never conflict. */
  predicate Conflicts(db: Db, up: FindingUpsert) {
    up.ext.Some? && HasKey(db, up.feed, up.ext)
  }

  function NewFinding(up: FindingUpsert): Finding {
    Finding(up.feed, up.ext, up.url, up.title, up.summary, up.publishedAt, None)
  }

  function InsertFinding(db: Db, up: FindingUpsert): Db {
    if Conflicts(db, up) then db
    else db.(findings := db.findings[db.nextFinding := NewFinding(up)], nextFinding := db.nextFinding + 1)
  }

  function SetEmbedding(db: Db, x: int, vec: Vec): Db {
    if x in db.findings
    then db.(findings := db.findings[x := db.findings[x].(embedding := Some(vec))])
    else db
  }

  // --- Topics and matches -------------------------------------------------------

  function CreateTopic(db: Db, user: int, name: string, description: string, threshold: real): Db {
    db.(topics := db.topics[db.nextTopic := Topic(user, name, description, threshold, true, None)],
        nextTopic := db.nextTopic + 1)
  }

  function EmbedTopic(db: Db, topic: int, vec: Vec): Db {
    if topic in db.topics
    then db.(topics := db.topics[topic := db.topics[topic].(embedding := Some(vec))])
    else db
  }

  function PatchTopic(t: Topic, name: Option<string>, description: Option<string>, threshold: Option<real>,
                      active: Option<bool>): Topic {
    t.(name := name.GetOr(t.name), description := description.GetOr(t.description),
       threshold := threshold.GetOr(t.threshold), active := active.GetOr(t.active))
  }

  function UpdateTopic(db: Db, user: int, topic: int, name: Option<string>, description: Option<string>,
                       threshold: Option<real>, active: Option<bool>): Db {
    if topic in db.topics && db.topics[topic].user == user
    then db.(topics := db.topics[topic := PatchTopic(db.topics[topic], name, description, threshold, active)])
    else db
  }

  function DropTopics(db: Db, gone: set<int>): Db {
    db.(topics := db.topics - gone,
        matches := map k | k in db.matches && k.topic !in gone :: db.matches[k])
  }

  function DeleteTopic(db: Db, user: int, topic: int): Db {
    if topic in db.topics && db.topics[topic].user == user then DropTopics(db, {topic}) else db
  }

  function SetMatchState(db: Db, user: int, k: MatchKey, state: MatchState): Db {
    if k in db.matches && k.topic in db.topics && db.topics[k.topic].user == user
    then db.(matches := db.matches[k := db.matches[k].(state := state)])
    else db
  }

  /** Deleting an account cascades to its topics, personal feeds and subscriptions. */
  function DeleteUser(db: Db, user: int): Db {
    var gone := Owned(db, user);
    var topics := set t | t in db.topics && db.topics[t].user == user;
    var dropped := DropFeeds(DropTopics(db, topics), gone);
    dropped.(subs := map k | k in dropped.subs && k.user != user :: dropped.subs[k])
  }

  /** The join of the matcher's INSERT .. SELECT: topic t takes part for finding x. */
  predicate Joins(sim: Similarity, db: Db, t: int, x: int) {
    && t in db.topics && x in db.findings
    && db.topics[t].active
    && db.topics[t].embedding.Some? && db.findings[x].embedding.Some?
    && SubKey(db.topics[t].user, db.findings[x].feed) in db.subs
    && sim(db.topics[t].embedding.value, db.findings[x].embedding.value) >= db.topics[t].threshold
  }

  function NewMatch(sim: Similarity, db: Db, t: int, x: int): Match
    requires Joins(sim, db, t, x)
  {
    Match(sim(db.topics[t].embedding.value, db.findings[x].embedding.value), New)
  }

  /** The rows the SELECT produces. */
  function JoinRows(sim: Similarity, db: Db, x: int): map<MatchKey, Match> {
    map t | t in db.topics && Joins(sim, db, t, x) :: MatchKey(t, x) := NewMatch(sim, db, t, x)
  }

  /** INSERT .. SELECT .. ON CONFLICT (topic_id, finding_id) DO NOTHING. */
  function MatchFinding(sim: Similarity, db: Db, x: int): Db {
    db.(matches := JoinRows(sim, db, x) + db.matches)
  }
}
