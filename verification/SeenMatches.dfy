/** What the user has seen stays seen, whatever the pipeline and other users do. */
module SeenMatches {
  import opened Wrappers
  import opened RadarTables
  import opened RadarReach
  import opened RadarPipeline
  import opened PipelineBase

  /** The match is there and seen, or its topic or finding is gone; ids are never given again. */
  predicate SeenOrGone(db: Db, k: MatchKey, row: Match) {
    && k.topic < db.nextTopic && k.finding < db.nextFinding && row.state == Seen
    && (if k in db.matches then db.matches[k] == row else k.topic !in db.topics || k.finding !in db.findings)
  }

  /** The one operation that takes a match back to new. */
  predicate Unsees(op: UserOp, k: MatchKey) {
    op.OpSetMatchState? && op.key == k && op.state == New
  }

  lemma DropFeedsSeen(db: Db, gone: set<int>, k: MatchKey, row: Match)
    requires SeenOrGone(db, k, row)
    ensures SeenOrGone(DropFeeds(db, gone), k, row)
  {
  }

  lemma DropTopicsSeen(db: Db, gone: set<int>, k: MatchKey, row: Match)
    requires SeenOrGone(db, k, row)
    ensures SeenOrGone(DropTopics(db, gone), k, row)
  {
  }

  lemma DeleteUserSeen(db: Db, user: int, k: MatchKey, row: Match)
    requires SeenOrGone(db, k, row)
    ensures SeenOrGone(DeleteUser(db, user), k, row)
  {
    var topics := set t | t in db.topics && db.topics[t].user == user;
    DropTopicsSeen(db, topics, k, row);
    DropFeedsSeen(DropTopics(db, topics), Owned(db, user), k, row);
  }

  lemma UserOpSeen(db: Db, op: UserOp, k: MatchKey, row: Match)
    requires SeenOrGone(db, k, row) && !Unsees(op, k)
    ensures SeenOrGone(Do(db, op), k, row)
  {
    match op
    case OpDeleteUser(user) => DeleteUserSeen(db, user, k, row);
    case OpDeleteFeed(feed, _) => DropFeedsSeen(db, {feed}, k, row);
    case OpDeleteTopic(_, topic) => DropTopicsSeen(db, {topic}, k, row);
    case OpSetMatchState(_, key, state) => assert key == k ==> row.(state := state) == row;
    case _ =>
  }

  /** Matching again finds the row in place, or lacks a side of the join. */
  lemma MatchFindingSeen(sim: Similarity, db: Db, x: int, k: MatchKey, row: Match)
    requires SeenOrGone(db, k, row)
    ensures SeenOrGone(MatchFinding(sim, db, x), k, row)
  {
  }

  lemma UpsertSeen(w: World, s: State, a: int, pc: Pc, now: int, k: MatchKey, row: Match)
    requires SeenOrGone(s.db, k, row) && a in s.attempts && pc.Upserting?
    ensures SeenOrGone(Upsert(w, s, a, pc, now).db, k, row)
  {
  }

  /** The steps that only read, enqueue or mark a feed. */
  lemma OtherSeen(w: World, s: State, a: int, now: int, e: bool, l: bool, k: MatchKey, row: Match)
    requires SeenOrGone(s.db, k, row) && a in s.attempts && s.attempts[a].job in s.jobs
    requires !s.attempts[a].pc.Begin? && !s.attempts[a].pc.Upserting?
    ensures SeenOrGone(AdvanceAttempt(w, s, a, now, e, l).db, k, row)
  {
  }

  lemma BeginSeen(w: World, s: State, a: int, now: int, e: bool, l: bool, k: MatchKey, row: Match)
    requires SeenOrGone(s.db, k, row) && a in s.attempts && s.attempts[a].job in s.jobs && s.attempts[a].pc.Begin?
    ensures SeenOrGone(AdvanceAttempt(w, s, a, now, e, l).db, k, row)
  {
    match s.jobs[s.attempts[a].job]
    case MatchJob(x) => MatchFindingSeen(w.similarity, s.db, x, k, row);
    case CrawlJob(feed) => assert BeginCrawl(s, a, feed).db == s.db;
    case EmbedJob(x) => assert BeginEmbed(w, s, a, x).db == s.db;
  }

  lemma AdvanceSeen(w: World, s: State, a: int, now: int, e: bool, l: bool, k: MatchKey, row: Match)
    requires SeenOrGone(s.db, k, row) && a in s.attempts && s.attempts[a].job in s.jobs
    ensures SeenOrGone(AdvanceAttempt(w, s, a, now, e, l).db, k, row)
  {
    match s.attempts[a].pc
    case Begin => BeginSeen(w, s, a, now, e, l, k, row);
    case Upserting(_, _, _) => UpsertSeen(w, s, a, s.attempts[a].pc, now, k, row);
    case _ => OtherSeen(w, s, a, now, e, l, k, row);
  }

  lemma StepSeen(w: World, s: State, step: Step, k: MatchKey, row: Match)
    requires SeenOrGone(s.db, k, row) && (step.User? ==> !Unsees(step.op, k))
    ensures SeenOrGone(Apply(w, s, step).db, k, row)
  {
    match step
    case User(op) => UserOpSeen(s.db, op, k, row);
    case Advance(a, now, e, l) =>
      if a in s.attempts && s.attempts[a].job in s.jobs { AdvanceSeen(w, s, a, now, e, l, k, row); }
    case _ =>
  }

  predicate NeverUnseen(steps: seq<Step>, k: MatchKey) {
    forall i :: 0 <= i < |steps| && steps[i].User? ==> !Unsees(steps[i].op, k)
  }

  lemma {:induction false} RunSeen(w: World, s: State, steps: seq<Step>, k: MatchKey, row: Match)
    requires SeenOrGone(s.db, k, row) && NeverUnseen(steps, k)
    ensures SeenOrGone(Run(w, s, steps).db, k, row)
    decreases |steps|
  {
    if steps != [] {
      StepSeen(w, s, steps[0], k, row);
      RunSeen(w, Apply(w, s, steps[0]), steps[1..], k, row);
    }
  }

  /**
   A match the user has seen, in any reachable state: however crawls, embeddings, matcher runs, crashes,
   retries and other operations go on, as long as nobody sets it back to new, it is there with its similarity
   and seen, or it has gone with its topic or its finding and does not come back.
   */
  lemma SeenStaysSeen(w: World, before: seq<Step>, after: seq<Step>, k: MatchKey)
    requires var db := Run(w, START, before).db; k in db.matches && db.matches[k].state == Seen
    requires NeverUnseen(after, k)
    ensures var s := Run(w, START, before);
            var t := Run(w, s, after).db;
            if k in t.matches then t.matches[k] == s.db.matches[k] else k.topic !in t.topics || k.finding !in t.findings
  {
    var s := Run(w, START, before);
    RunBase(w, START, before);
    assert MatchVisible(s.db.topics, s.db.findings, s.db.feeds, k);
    RunSeen(w, s, after, k, s.db.matches[k]);
  }
}
