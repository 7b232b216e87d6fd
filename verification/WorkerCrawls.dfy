/**
 What a run of the workers alone adds to the findings: the first occurrence of
 each new key of the documents being crawled, and nothing else.
 */
module WorkerCrawls {
  import opened Wrappers
  import opened Text
  import opened RadarTables
  import opened RadarReach
  import opened Crawler
  import opened RadarPipeline
  import opened PipelineBase
  import opened ConditionalFetch
  import opened EmbedJobs
  import opened NoLostWork
  import opened WorkerRuns

  // --- Crawling -------------------------------------------------------------------------

  /** The upsert at n is the first of its key in the document. */
  predicate FirstOccurrence(ups: seq<FindingUpsert>, n: nat)
    requires n < |ups|
  {
    forall i :: 0 <= i < n ==> ups[i].ext != ups[n].ext
  }

  /** What a feed's current document proposes. */
  function CurrentUpserts(w: World, s0: State, feed: int): seq<FindingUpsert> {
    if feed in s0.db.feeds && s0.db.feeds[feed].url in s0.docs
    then Upserts(w, feed, s0.docs[s0.db.feeds[feed].url]) else []
  }

  ghost predicate IsUpsert(ups: seq<FindingUpsert>, n: nat, row: Finding) {
    n < |ups| && FirstOccurrence(ups, n) && row.(embedding := None) == NewFinding(ups[n])
  }

  /** A row created during the run: the first occurrence of a key that was new to a feed due for crawling. */
  ghost predicate FromCrawl(w: World, s0: State, row: Finding) {
    && HasPending(s0, CrawlJob(row.feed))
    && !HasKey(s0.db, row.feed, row.ext)
    && exists n :: IsUpsert(CurrentUpserts(w, s0, row.feed), n, row)
  }

  ghost predicate NewRows(w: World, s0: State, s: State) {
    forall x :: x in s.db.findings && x !in s0.db.findings ==> FromCrawl(w, s0, s.db.findings[x])
  }

  predicate Reads(s0: State, feed: int, doc: Doc) {
    feed in s0.db.feeds && s0.db.feeds[feed].url in s0.docs && doc == s0.docs[s0.db.feeds[feed].url]
  }

  ghost predicate CrawlDone(w: World, s0: State, db: Db, feed: int) {
    && feed in s0.db.feeds && s0.db.feeds[feed].url in s0.docs
    && KeysPresent(db, feed, CurrentUpserts(w, s0, feed), |CurrentUpserts(w, s0, feed)|)
  }

  ghost predicate PcCrawl(w: World, s0: State, db: Db, job: Job, pc: Pc) {
    match pc
    case Fetching(feed, url, _, _) => feed in s0.db.feeds && url == s0.db.feeds[feed].url
    case Upserting(feed, doc, _) => Reads(s0, feed, doc)
    case EnqueuingEmbed(feed, doc, _, _) => Reads(s0, feed, doc)
    case Marking304(feed, _, _) => CrawlDone(w, s0, db, feed)
    case Returned => job.CrawlJob? ==> CrawlDone(w, s0, db, job.feed)
    case _ => true
  }

  ghost predicate Crawls(w: World, s0: State, s: State) {
    && (forall a :: a in s.attempts && s.attempts[a].job in s.jobs ==>
          s.attempts[a].job !in s0.done && PcCrawl(w, s0, s.db, s.jobs[s.attempts[a].job], s.attempts[a].pc))
    && (forall j :: j in s.done && j !in s0.done && j in s.jobs && s.jobs[j].CrawlJob? ==>
          CrawlDone(w, s0, s.db, s.jobs[j].feed))
  }

  lemma CrawlDoneStays(w: World, s0: State, s: State, t: State, feed: int)
    requires Base(s) && Fixed(s0, s) && Fixed(s, t) && Frame(s.db, t.db) && CrawlDone(w, s0, s.db, feed)
    ensures CrawlDone(w, s0, t.db, feed)
  {
    assert feed in s.db.feeds && feed in t.db.feeds;
    var ups := CurrentUpserts(w, s0, feed);
    KeysStay(s.db, t.db, feed, ups, |ups|);
  }

  lemma PcCrawlStays(w: World, s0: State, s: State, t: State, job: Job, pc: Pc)
    requires Base(s) && Fixed(s0, s) && Fixed(s, t) && Frame(s.db, t.db) && PcCrawl(w, s0, s.db, job, pc)
    ensures PcCrawl(w, s0, t.db, job, pc)
  {
    match pc
    case Marking304(feed, _, _) => CrawlDoneStays(w, s0, s, t, feed);
    case Returned => if job.CrawlJob? { CrawlDoneStays(w, s0, s, t, job.feed); }
    case _ =>
  }

  lemma CrawlsAfter(w: World, s0: State, s: State, t: State, a: int)
    requires Base(s) && Fixed(s0, s) && Fixed(s, t) && StepFrame(s, t, a) && Crawls(w, s0, s)
    requires forall j :: j in t.done && j !in s.done ==> a in s.attempts && s.attempts[a] == Attempt(j, Returned)
    requires a in t.attempts && t.attempts[a].job in t.jobs ==>
               t.attempts[a].job !in s0.done && PcCrawl(w, s0, t.db, t.jobs[t.attempts[a].job], t.attempts[a].pc)
    ensures Crawls(w, s0, t)
  {
    forall b | b in t.attempts && t.attempts[b].job in t.jobs
      ensures t.attempts[b].job !in s0.done && PcCrawl(w, s0, t.db, t.jobs[t.attempts[b].job], t.attempts[b].pc)
    {
      if b != a {
        assert AttemptOk(s, s.attempts[b]);
        PcCrawlStays(w, s0, s, t, s.jobs[s.attempts[b].job], s.attempts[b].pc);
      }
    }
    forall j | j in t.done && j !in s0.done && j in t.jobs && t.jobs[j].CrawlJob?
      ensures CrawlDone(w, s0, t.db, t.jobs[j].feed)
    {
      if j in s.done {
        CrawlDoneStays(w, s0, s, t, s.jobs[j].feed);
      } else {
        assert AttemptOk(s, s.attempts[a]);
        assert PcCrawl(w, s0, s.db, s.jobs[j], Returned);
        CrawlDoneStays(w, s0, s, t, s.jobs[j].feed);
      }
    }
  }

  lemma FetchCrawls(w: World, s0: State, s: State, a: int, now: int, e: bool, l: bool)
    requires Honest(w) && Safe(w, s) && Fixed(s0, s) && Crawls(w, s0, s)
    requires a in s.attempts && s.attempts[a].job in s.jobs && s.attempts[a].pc.Fetching?
    ensures var t := AdvanceAttempt(w, s, a, now, e, l);
            a in t.attempts ==> PcCrawl(w, s0, t.db, t.jobs[t.attempts[a].job], t.attempts[a].pc)
  {
    var pc := s.attempts[a].pc;
    assert AttemptOk(s, s.attempts[a]);
    assert PcCrawl(w, s0, s.db, s.jobs[s.attempts[a].job], pc) && PcSeen(w, s.db, pc);
    if pc.url in s.docs && w.notModified(pc.url, pc.etag, pc.lastModified, s.docs[pc.url]) {
      NotModifiedIsSeen(w, s.db, pc.feed, pc.url, pc.etag, pc.lastModified, s.docs[pc.url]);
    }
  }

  /** Steps that begin, enqueue, embed or return say nothing new about documents. */
  lemma OtherPcCrawl(w: World, s0: State, s: State, a: int, now: int, e: bool, l: bool)
    requires Base(s) && Fixed(s0, s) && a in s.attempts && s.attempts[a].job in s.jobs && s.attempts[a].job !in s0.done
    requires PcCrawl(w, s0, s.db, s.jobs[s.attempts[a].job], s.attempts[a].pc)
    requires var pc := s.attempts[a].pc; !pc.Fetching? && !pc.Upserting? && !pc.Marking304?
    ensures var t := AdvanceAttempt(w, s, a, now, e, l);
            a in t.attempts && t.attempts[a].job in t.jobs ==>
              t.attempts[a].job !in s0.done && PcCrawl(w, s0, t.db, t.jobs[t.attempts[a].job], t.attempts[a].pc)
  {
    assert AttemptOk(s, s.attempts[a]);
  }

  /** The loop goes on with the same document, or is through with it. */
  lemma UpsertPcCrawl(w: World, s0: State, s: State, a: int, now: int, e: bool, l: bool)
    requires Safe(w, s) && Fixed(s0, s) && Crawls(w, s0, s) && a in s.attempts && s.attempts[a].job in s.jobs
    requires Fixed(s, AdvanceAttempt(w, s, a, now, e, l)) && Frame(s.db, AdvanceAttempt(w, s, a, now, e, l).db)
    requires s.attempts[a].pc.Upserting?
    ensures var t := AdvanceAttempt(w, s, a, now, e, l);
            a in t.attempts ==> PcCrawl(w, s0, t.db, s.jobs[s.attempts[a].job], t.attempts[a].pc)
  {
    var pc, t := s.attempts[a].pc, AdvanceAttempt(w, s, a, now, e, l);
    assert AttemptOk(s, s.attempts[a]);
    assert PcCrawl(w, s0, s.db, s.jobs[s.attempts[a].job], pc) && PcSeen(w, s.db, pc);
    if pc.next >= |Upserts(w, pc.feed, pc.doc)| {
      assert CrawlDone(w, s0, s.db, pc.feed);
      CrawlDoneStays(w, s0, s, t, pc.feed);
    }
  }

  lemma MarkPcCrawl(w: World, s0: State, s: State, a: int, now: int, e: bool, l: bool)
    requires Safe(w, s) && Fixed(s0, s) && Crawls(w, s0, s) && a in s.attempts && s.attempts[a].job in s.jobs
    requires Fixed(s, AdvanceAttempt(w, s, a, now, e, l)) && Frame(s.db, AdvanceAttempt(w, s, a, now, e, l).db)
    requires s.attempts[a].pc.Marking304?
    ensures var t := AdvanceAttempt(w, s, a, now, e, l);
            a in t.attempts ==> PcCrawl(w, s0, t.db, s.jobs[s.attempts[a].job], t.attempts[a].pc)
  {
    assert AttemptOk(s, s.attempts[a]);
    assert PcCrawl(w, s0, s.db, s.jobs[s.attempts[a].job], s.attempts[a].pc);
    CrawlDoneStays(w, s0, s, AdvanceAttempt(w, s, a, now, e, l), s.attempts[a].pc.feed);
  }

  /** A step keeps its attempt's job, and enqueuing does not rename one. */
  lemma SameJob(w: World, s: State, a: int, now: int, e: bool, l: bool)
    requires Base(s) && a in s.attempts && s.attempts[a].job in s.jobs
    ensures var t := AdvanceAttempt(w, s, a, now, e, l);
            a in t.attempts && t.attempts[a].job in t.jobs ==>
              t.attempts[a].job == s.attempts[a].job && t.jobs[t.attempts[a].job] == s.jobs[s.attempts[a].job]
  {
  }

  lemma AdvancedPcCrawl(w: World, s0: State, s: State, a: int, now: int, e: bool, l: bool)
    requires Honest(w) && Safe(w, s) && Fixed(s0, s) && Crawls(w, s0, s) && a in s.attempts && s.attempts[a].job in s.jobs
    requires Fixed(s, AdvanceAttempt(w, s, a, now, e, l)) && Frame(s.db, AdvanceAttempt(w, s, a, now, e, l).db)
    ensures var t := AdvanceAttempt(w, s, a, now, e, l);
            a in t.attempts && t.attempts[a].job in t.jobs ==>
              t.attempts[a].job !in s0.done && PcCrawl(w, s0, t.db, t.jobs[t.attempts[a].job], t.attempts[a].pc)
  {
    SameJob(w, s, a, now, e, l);
    assert PcCrawl(w, s0, s.db, s.jobs[s.attempts[a].job], s.attempts[a].pc) && s.attempts[a].job !in s0.done;
    match s.attempts[a].pc
    case Fetching(_, _, _, _) => FetchCrawls(w, s0, s, a, now, e, l);
    case Upserting(_, _, _) => UpsertPcCrawl(w, s0, s, a, now, e, l);
    case Marking304(_, _, _) => MarkPcCrawl(w, s0, s, a, now, e, l);
    case _ => OtherPcCrawl(w, s0, s, a, now, e, l);
  }

  lemma AdvanceCrawls(w: World, s0: State, s: State, a: int, now: int, e: bool, l: bool)
    requires Honest(w) && Safe(w, s) && Fixed(s0, s) && Crawls(w, s0, s) && a in s.attempts && s.attempts[a].job in s.jobs
    requires Fixed(s, AdvanceAttempt(w, s, a, now, e, l))
    ensures Crawls(w, s0, AdvanceAttempt(w, s, a, now, e, l))
  {
    AdvanceBase(w, s, a, now, e, l);
    AdvanceDone(w, s, a, now, e, l);
    AdvancedPcCrawl(w, s0, s, a, now, e, l);
    CrawlsAfter(w, s0, s, AdvanceAttempt(w, s, a, now, e, l), a);
  }

  lemma StepCrawls(w: World, s0: State, s: State, step: Step)
    requires Honest(w) && Safe(w, s) && Fixed(s0, s) && Crawls(w, s0, s) && Harmless(s, step) && Fixed(s, Apply(w, s, step))
    ensures Crawls(w, s0, Apply(w, s, step))
  {
    if step.Advance? {
      if step.attempt in s.attempts && s.attempts[step.attempt].job in s.jobs {
        AdvanceCrawls(w, s0, s, step.attempt, step.now, step.showEtag, step.showLastModified);
      }
    } else {
      StepBase(w, s, step);
      var a := Subject(step);
      if a in s.attempts { assert AttemptOk(s, s.attempts[a]); }
      FailurePcCrawl(w, s0, s, step);
      CrawlsAfter(w, s0, s, Apply(w, s, step), a);
    }
  }

  lemma FailurePcCrawl(w: World, s0: State, s: State, step: Step)
    requires Base(s) && Fixed(s0, s) && Crawls(w, s0, s) && Harmless(s, step) && !step.Advance?
    ensures var t := Apply(w, s, step);
            var a := Subject(step);
            && t.done == s.done
            && (a in t.attempts && t.attempts[a].job in t.jobs ==>
                  t.attempts[a].job !in s0.done && PcCrawl(w, s0, t.db, t.jobs[t.attempts[a].job], t.attempts[a].pc))
  {
    var a := Subject(step);
    if a in s.attempts { assert AttemptOk(s, s.attempts[a]); }
  }

  // --- Rows -----------------------------------------------------------------------------

  lemma InsertNewRow(w: World, s0: State, s: State, a: int, now: int, e: bool, l: bool)
    requires Base(s0) && Safe(w, s) && Fixed(s0, s) && Frame(s0.db, s.db) && Crawls(w, s0, s)
    requires a in s.attempts && s.attempts[a].job in s.jobs && s.attempts[a].pc.Upserting?
    ensures var pc := s.attempts[a].pc;
            var ups := Upserts(w, pc.feed, pc.doc);
            pc.next < |ups| && pc.feed in s.db.feeds && !Conflicts(s.db, ups[pc.next]) ==>
              FromCrawl(w, s0, NewFinding(ups[pc.next]))
  {
    var pc := s.attempts[a].pc;
    var ups := Upserts(w, pc.feed, pc.doc);
    var j := s.attempts[a].job;
    assert AttemptOk(s, s.attempts[a]);
    assert PcCrawl(w, s0, s.db, s.jobs[j], pc) && PcSeen(w, s.db, pc);
    if pc.next < |ups| && pc.feed in s.db.feeds && !Conflicts(s.db, ups[pc.next]) {
      var row := NewFinding(ups[pc.next]);
      assert Pending(s0, j) && s0.jobs[j] == CrawlJob(pc.feed);
      if HasKey(s0.db, pc.feed, row.ext) {
        HasKeyStays(s0.db, s.db, pc.feed, row.ext);
      }
      assert IsUpsert(CurrentUpserts(w, s0, pc.feed), pc.next, row);
    }
  }

  lemma AdvanceNewRows(w: World, s0: State, s: State, a: int, now: int, e: bool, l: bool)
    requires Base(s0) && Safe(w, s) && Fixed(s0, s) && Frame(s0.db, s.db) && Crawls(w, s0, s) && NewRows(w, s0, s)
    requires a in s.attempts && s.attempts[a].job in s.jobs
    ensures NewRows(w, s0, AdvanceAttempt(w, s, a, now, e, l))
  {
    var t := AdvanceAttempt(w, s, a, now, e, l);
    if s.attempts[a].pc.Upserting? {
      InsertNewRow(w, s0, s, a, now, e, l);
      UpsertNewRows(w, s0, s, a, now, e, l);
    } else {
      AdvanceBase(w, s, a, now, e, l);
      AdvanceRows(w, s, a, now, e, l);
      NoInsert(w, s, a, now, e, l);
      EmbedNewRows(w, s0, s, t);
    }
  }

  lemma NoInsert(w: World, s: State, a: int, now: int, e: bool, l: bool)
    requires a in s.attempts && s.attempts[a].job in s.jobs && !s.attempts[a].pc.Upserting?
    ensures var t := AdvanceAttempt(w, s, a, now, e, l); forall x :: x in t.db.findings ==> x in s.db.findings
  {
  }

  lemma EmbedNewRows(w: World, s0: State, s: State, t: State)
    requires NewRows(w, s0, s) && RowsProgress(s.db.findings, s.db.nextFinding, t.db.findings)
    requires forall x :: x in t.db.findings ==> x in s.db.findings
    ensures NewRows(w, s0, t)
  {
    forall x | x in t.db.findings && x !in s0.db.findings ensures FromCrawl(w, s0, t.db.findings[x]) {
      var row := s.db.findings[x];
      assert FromCrawl(w, s0, row) && SameContent(row, t.db.findings[x]);
      var n: nat :| IsUpsert(CurrentUpserts(w, s0, row.feed), n, row);
      assert IsUpsert(CurrentUpserts(w, s0, row.feed), n, t.db.findings[x]);
    }
  }

  lemma UpsertNewRows(w: World, s0: State, s: State, a: int, now: int, e: bool, l: bool)
    requires NewRows(w, s0, s) && a in s.attempts && s.attempts[a].job in s.jobs && s.attempts[a].pc.Upserting?
    requires var pc := s.attempts[a].pc;
             var ups := Upserts(w, pc.feed, pc.doc);
             pc.next < |ups| && pc.feed in s.db.feeds && !Conflicts(s.db, ups[pc.next]) ==>
               FromCrawl(w, s0, NewFinding(ups[pc.next]))
    ensures NewRows(w, s0, AdvanceAttempt(w, s, a, now, e, l))
  {
  }
}
