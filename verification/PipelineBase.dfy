/**
 The bookkeeping every run keeps: table constraints, job ids, and the frame of a
 single step.
 */
module PipelineBase {
  import opened Wrappers
  import opened Text
  import opened RadarTables
  import opened RadarReach
  import opened Crawler
  import opened RadarPipeline

  // --- Job and attempt bookkeeping ----------------------------------------------------

  predicate JobOk(db: Db, job: Job) {
    match job
    case CrawlJob(feed) => feed < db.nextFeed
    case EmbedJob(x) => 0 <= x < db.nextFinding
    case MatchJob(x) => 0 <= x < db.nextFinding
  }

  /** An attempt works on what its job names. */
  predicate PcOk(db: Db, job: Job, pc: Pc) {
    match pc
    case Begin => true
    case Returned => true
    case Fetching(feed, _, _, _) => job == CrawlJob(feed)
    case Upserting(feed, _, _) => job == CrawlJob(feed)
    case EnqueuingEmbed(feed, _, _, x) => job == CrawlJob(feed) && 0 <= x < db.nextFinding
    case Marking304(feed, _, _) => job == CrawlJob(feed)
    case Embedding(x, _) => job == EmbedJob(x)
    case EnqueuingMatch(x) => job == EmbedJob(x)
  }

  predicate AttemptOk(s: State, attempt: Attempt) {
    attempt.job in s.jobs && JobOk(s.db, s.jobs[attempt.job]) && PcOk(s.db, s.jobs[attempt.job], attempt.pc)
  }

  ghost predicate Wired(s: State) {
    && 0 <= s.nextJob
    && (forall j :: j in s.jobs ==> 0 <= j < s.nextJob && JobOk(s.db, s.jobs[j]))
    && s.done <= s.jobs.Keys
    && (forall a :: a in s.attempts ==> AttemptOk(s, s.attempts[a]))
  }

  /** What any step does: rows keep their identity, jobs are only added, one attempt moves. */
  ghost predicate StepFrame(s: State, t: State, a: int) {
    && Frame(s.db, t.db)
    && s.nextJob <= t.nextJob
    && (forall j :: j in s.jobs ==> j in t.jobs && t.jobs[j] == s.jobs[j])
    && (forall j :: j in t.jobs && j !in s.jobs ==> s.nextJob <= j < t.nextJob)
    && s.done <= t.done
    && (forall b :: b in t.attempts && b != a ==> b in s.attempts && t.attempts[b] == s.attempts[b])
    && (forall b :: b in s.attempts && b != a ==> b in t.attempts)
  }

  lemma WiredAfter(s: State, t: State, a: int)
    requires Wired(s) && StepFrame(s, t, a)
    requires forall j :: j in t.jobs && j !in s.jobs ==> JobOk(t.db, t.jobs[j])
    requires t.done <= t.jobs.Keys
    requires a in t.attempts ==> AttemptOk(t, t.attempts[a])
    ensures Wired(t)
  {
    forall b | b in t.attempts ensures AttemptOk(t, t.attempts[b]) {
      if b != a { assert AttemptOk(s, s.attempts[b]); }
    }
  }

  ghost predicate Base(s: State) {
    DbInv(s.db) && Wired(s)
  }

  function Subject(step: Step): int {
    if step.Deliver? || step.Advance? || step.FetchError? || step.Crash? then step.attempt else 0
  }

  lemma SameTablesBase(s: State, t: State, a: int)
    requires Base(s) && t.db == s.db && t.jobs == s.jobs && t.nextJob == s.nextJob && t.done == s.done
    requires t.attempts == s.attempts - {a}
    ensures Base(t) && StepFrame(s, t, a)
  {
    forall b | b in t.attempts ensures AttemptOk(t, t.attempts[b]) {
      assert AttemptOk(s, s.attempts[b]);
    }
  }

  /** An attempt that only moves on. */
  lemma OneMovesBase(s: State, t: State, a: int, pc: Pc)
    requires Base(s) && a in s.attempts && t == Goto(s, a, pc)
    requires AttemptOk(s, s.attempts[a]) && PcOk(s.db, s.jobs[s.attempts[a].job], pc)
    ensures Base(t) && StepFrame(s, t, a)
  {
    forall b | b in t.attempts ensures AttemptOk(t, t.attempts[b]) {
      assert AttemptOk(s, s.attempts[b]);
    }
  }

  lemma BeginMatchBase(w: World, s: State, a: int, x: int, now: int, e: bool, l: bool)
    requires Base(s) && a in s.attempts && s.attempts[a].job in s.jobs && s.attempts[a].pc.Begin?
    requires s.jobs[s.attempts[a].job] == MatchJob(x)
    ensures var t := AdvanceAttempt(w, s, a, now, e, l); Base(t) && StepFrame(s, t, a)
  {
    MatchFindingKeeps(w.similarity, s.db, x);
    WiredAfter(s, AdvanceAttempt(w, s, a, now, e, l), a);
  }

  lemma BeginCrawlBase(w: World, s: State, a: int, feed: int, now: int, e: bool, l: bool)
    requires Base(s) && a in s.attempts && s.attempts[a].job in s.jobs && s.attempts[a].pc.Begin?
    requires s.jobs[s.attempts[a].job] == CrawlJob(feed)
    ensures var t := AdvanceAttempt(w, s, a, now, e, l); Base(t) && StepFrame(s, t, a)
  {
    WiredAfter(s, AdvanceAttempt(w, s, a, now, e, l), a);
  }

  lemma BeginEmbedBase(w: World, s: State, a: int, x: int, now: int, e: bool, l: bool)
    requires Base(s) && a in s.attempts && s.attempts[a].job in s.jobs && s.attempts[a].pc.Begin?
    requires s.jobs[s.attempts[a].job] == EmbedJob(x)
    ensures var t := AdvanceAttempt(w, s, a, now, e, l); Base(t) && StepFrame(s, t, a)
  {
    var t := AdvanceAttempt(w, s, a, now, e, l);
    assert AttemptOk(s, s.attempts[a]);
    if a in t.attempts {
      OneMovesBase(s, t, a, t.attempts[a].pc);
    } else {
      SameTablesBase(s, t, a);
    }
  }

  lemma BeginBase(w: World, s: State, a: int, now: int, e: bool, l: bool)
    requires Base(s) && a in s.attempts && s.attempts[a].job in s.jobs && s.attempts[a].pc.Begin?
    ensures var t := AdvanceAttempt(w, s, a, now, e, l); Base(t) && StepFrame(s, t, a)
  {
    match s.jobs[s.attempts[a].job]
    case MatchJob(x) => BeginMatchBase(w, s, a, x, now, e, l);
    case CrawlJob(feed) => BeginCrawlBase(w, s, a, feed, now, e, l);
    case EmbedJob(x) => BeginEmbedBase(w, s, a, x, now, e, l);
  }

  lemma FetchBase(w: World, s: State, a: int, now: int, e: bool, l: bool)
    requires Base(s) && a in s.attempts && s.attempts[a].job in s.jobs && s.attempts[a].pc.Fetching?
    ensures var t := AdvanceAttempt(w, s, a, now, e, l); Base(t) && StepFrame(s, t, a)
  {
    var t := AdvanceAttempt(w, s, a, now, e, l);
    assert AttemptOk(s, s.attempts[a]);
    if a in t.attempts {
      OneMovesBase(s, t, a, t.attempts[a].pc);
    } else {
      SameTablesBase(s, t, a);
    }
  }

  lemma UpsertBase(w: World, s: State, a: int, now: int, e: bool, l: bool)
    requires Base(s) && a in s.attempts && s.attempts[a].job in s.jobs && s.attempts[a].pc.Upserting?
    ensures var t := AdvanceAttempt(w, s, a, now, e, l); Base(t) && StepFrame(s, t, a)
  {
    var t := AdvanceAttempt(w, s, a, now, e, l);
    var pc := s.attempts[a].pc;
    var ups := Upserts(w, pc.feed, pc.doc);
    assert AttemptOk(s, s.attempts[a]);
    if pc.next >= |ups| {
      MarkFetchedKeeps(s.db, pc.feed, NonEmpty(pc.doc.etag), NonEmpty(pc.doc.lastModified), NonEmpty(TrimSpace(pc.doc.title)), now);
    } else if pc.feed in s.db.feeds {
      InsertFindingKeeps(s.db, ups[pc.next]);
    }
    WiredAfter(s, t, a);
  }

  lemma EnqueueBase(w: World, s: State, a: int, now: int, e: bool, l: bool)
    requires Base(s) && a in s.attempts && s.attempts[a].job in s.jobs
    requires s.attempts[a].pc.EnqueuingEmbed? || s.attempts[a].pc.EnqueuingMatch?
    ensures var t := AdvanceAttempt(w, s, a, now, e, l); Base(t) && StepFrame(s, t, a)
  {
    var t := AdvanceAttempt(w, s, a, now, e, l);
    assert AttemptOk(s, s.attempts[a]);
    WiredAfter(s, t, a);
  }

  lemma MarkBase(w: World, s: State, a: int, now: int, e: bool, l: bool)
    requires Base(s) && a in s.attempts && s.attempts[a].job in s.jobs && s.attempts[a].pc.Marking304?
    ensures var t := AdvanceAttempt(w, s, a, now, e, l); Base(t) && StepFrame(s, t, a)
  {
    var t := AdvanceAttempt(w, s, a, now, e, l);
    var pc := s.attempts[a].pc;
    MarkFetchedKeeps(s.db, pc.feed, NonEmpty(pc.etag), NonEmpty(pc.lastModified), None, now);
    WiredAfter(s, t, a);
  }

  lemma EmbeddingBase(w: World, s: State, a: int, now: int, e: bool, l: bool)
    requires Base(s) && a in s.attempts && s.attempts[a].job in s.jobs && s.attempts[a].pc.Embedding?
    ensures var t := AdvanceAttempt(w, s, a, now, e, l); Base(t) && StepFrame(s, t, a)
  {
    var t := AdvanceAttempt(w, s, a, now, e, l);
    var pc := s.attempts[a].pc;
    assert AttemptOk(s, s.attempts[a]);
    SetEmbeddingKeeps(s.db, pc.finding, pc.vec);
    WiredAfter(s, t, a);
  }

  lemma ReturnedBase(w: World, s: State, a: int, now: int, e: bool, l: bool)
    requires Base(s) && a in s.attempts && s.attempts[a].job in s.jobs && s.attempts[a].pc.Returned?
    ensures var t := AdvanceAttempt(w, s, a, now, e, l); Base(t) && StepFrame(s, t, a)
  {
    WiredAfter(s, AdvanceAttempt(w, s, a, now, e, l), a);
  }

  lemma AdvanceBase(w: World, s: State, a: int, now: int, e: bool, l: bool)
    requires Base(s) && a in s.attempts && s.attempts[a].job in s.jobs
    ensures var t := AdvanceAttempt(w, s, a, now, e, l); Base(t) && StepFrame(s, t, a)
  {
    match s.attempts[a].pc
    case Begin => BeginBase(w, s, a, now, e, l);
    case Fetching(_, _, _, _) => FetchBase(w, s, a, now, e, l);
    case Upserting(_, _, _) => UpsertBase(w, s, a, now, e, l);
    case EnqueuingEmbed(_, _, _, _) => EnqueueBase(w, s, a, now, e, l);
    case EnqueuingMatch(_) => EnqueueBase(w, s, a, now, e, l);
    case Marking304(_, _, _) => MarkBase(w, s, a, now, e, l);
    case Embedding(_, _) => EmbeddingBase(w, s, a, now, e, l);
    case Returned => ReturnedBase(w, s, a, now, e, l);
  }

  /** A step that leaves tables and queue alone and at most ends an attempt. */
  lemma ScheduleBase(w: World, s: State, feed: int)
    requires Base(s)
    ensures Base(Apply(w, s, Schedule(feed))) && StepFrame(s, Apply(w, s, Schedule(feed)), 0)
  {
    WiredAfter(s, Apply(w, s, Schedule(feed)), 0);
  }

  lemma QueueBase(w: World, s: State, step: Step)
    requires Base(s) && (step.Deliver? || step.Publish?)
    ensures Base(Apply(w, s, step)) && StepFrame(s, Apply(w, s, step), Subject(step))
  {
    WiredAfter(s, Apply(w, s, step), Subject(step));
  }

  /** A crash ends its attempt and writes nothing. */
  lemma CrashShape(w: World, s: State, a: int)
    ensures var t := Apply(w, s, Crash(a));
            && t.db == s.db && t.jobs == s.jobs && t.nextJob == s.nextJob && t.done == s.done && t.docs == s.docs
            && t.attempts == s.attempts - {a} && t.matched == s.matched && s.lostMatches <= t.lostMatches
  {
  }

  lemma CrashBase(w: World, s: State, a: int)
    requires Base(s)
    ensures Base(Apply(w, s, Crash(a))) && StepFrame(s, Apply(w, s, Crash(a)), a)
  {
    CrashShape(w, s, a);
    SameTablesBase(s, Apply(w, s, Crash(a)), a);
  }

  lemma FetchErrorBase(w: World, s: State, a: int, now: int, message: string)
    requires Base(s)
    ensures var t := Apply(w, s, FetchError(a, now, message)); Base(t) && StepFrame(s, t, a)
  {
    if a in s.attempts && s.attempts[a].pc.Fetching? {
      MarkErrorKeeps(s.db, s.attempts[a].pc.feed, message, now);
      WiredAfter(s, Apply(w, s, FetchError(a, now, message)), a);
    }
  }

  lemma UserBase(w: World, s: State, op: UserOp)
    requires Base(s)
    ensures Base(Apply(w, s, User(op))) && StepFrame(s, Apply(w, s, User(op)), 0)
  {
    UserOpKeeps(s.db, op);
    WiredAfter(s, Apply(w, s, User(op)), 0);
  }

  /** Every step keeps the tables and the queue consistent. */
  lemma StepBase(w: World, s: State, step: Step)
    requires Base(s)
    ensures Base(Apply(w, s, step)) && StepFrame(s, Apply(w, s, step), Subject(step))
  {
    match step
    case Advance(a, now, e, l) =>
      if a in s.attempts && s.attempts[a].job in s.jobs { AdvanceBase(w, s, a, now, e, l); }
    case FetchError(a, now, message) => FetchErrorBase(w, s, a, now, message);
    case User(op) => UserBase(w, s, op);
    case Crash(a) => CrashBase(w, s, a);
    case Schedule(feed) => ScheduleBase(w, s, feed);
    case _ => QueueBase(w, s, step);
  }

  lemma {:induction false} RunBase(w: World, s: State, steps: seq<Step>)
    requires Base(s)
    ensures Base(Run(w, s, steps))
    decreases |steps|
  {
    if steps != [] {
      StepBase(w, s, steps[0]);
      RunBase(w, Apply(w, s, steps[0]), steps[1..]);
    }
  }

  /**
   Over every run of user calls and workers: a subscription reaches a catalog feed or the
   subscriber's own, and a match, even one that outlived its subscription, ties a topic to a
   finding of a feed its user may see.
   */
  lemma EveryConnectionIsVisible(w: World, steps: seq<Step>)
    ensures var db := Run(w, START, steps).db;
            && (forall k :: k in db.subs ==> k.feed in db.feeds && Visible(db.feeds[k.feed], k.user))
            && (forall k :: k in db.matches ==>
                  && k.topic in db.topics && k.finding in db.findings
                  && db.findings[k.finding].feed in db.feeds
                  && Visible(db.feeds[db.findings[k.finding].feed], db.topics[k.topic].user))
  {
    RunBase(w, START, steps);
    var db := Run(w, START, steps).db;
    assert forall k :: k in db.subs ==> SubVisible(db.feeds, k);
    assert forall k :: k in db.matches ==> MatchVisible(db.topics, db.findings, db.feeds, k);
  }

  /** Over every run, no two findings of a feed share an external id and no two feeds an owner and url. */
  lemma KeysStayUnique(w: World, steps: seq<Step>)
    ensures var db := Run(w, START, steps).db; UniqueFindings(db.findings) && UniqueFeeds(db.feeds)
  {
    RunBase(w, START, steps);
  }
}
