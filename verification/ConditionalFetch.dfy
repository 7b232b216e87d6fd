/**
 Conditional requests: a 304 never hides an item, because validators are stored
 only after every entry of the version they name.
 */
module ConditionalFetch {
  import opened Wrappers
  import opened Text
  import opened RadarTables
  import opened RadarReach
  import opened Crawler
  import opened RadarPipeline
  import opened PipelineBase

  /** Validators (possibly only one of the two) that document d came with. */
  predicate Names(etag: string, lastModified: string, d: Doc) {
    (etag == "" || etag == d.etag) && (lastModified == "" || lastModified == d.lastModified)
  }

  /**
   The origins' side of conditional requests (RFC 9110, sections 13.1.2, 13.1.3
   and 15.4.5): without validators there is no 304, and a 304 means the current
   version lists the same entries as the version the validators came with.
   */
  ghost predicate Honest(w: World) {
    && (forall url, doc :: w.serves(url, doc) ==> !w.notModified(url, "", "", doc))
    && (forall url, past, doc, etag, lastModified ::
          w.serves(url, past) && w.serves(url, doc) && Names(etag, lastModified, past)
          && !(etag == "" && lastModified == "") && w.notModified(url, etag, lastModified, doc)
          ==> past.items == doc.items)
  }

  predicate KeysPresent(db: Db, feed: int, ups: seq<FindingUpsert>, n: nat)
    requires n <= |ups|
  {
    forall i :: 0 <= i < n ==> HasKey(db, feed, ups[i].ext)
  }

  ghost predicate SeenAs(w: World, db: Db, feed: int, url: string, etag: string, lastModified: string, d: Doc) {
    w.serves(url, d) && Names(etag, lastModified, d) && KeysPresent(db, feed, Upserts(w, feed, d), |Upserts(w, feed, d)|)
  }

  /** Validators are only kept for a version whose every entry is already a finding. */
  ghost predicate Seen(w: World, db: Db, feed: int, url: string, etag: string, lastModified: string) {
    (etag == "" && lastModified == "") || exists d :: SeenAs(w, db, feed, url, etag, lastModified, d)
  }

  ghost predicate FeedSeen(w: World, db: Db, feed: int)
    requires feed in db.feeds
  {
    Seen(w, db, feed, db.feeds[feed].url, Header(db.feeds[feed].etag), Header(db.feeds[feed].lastModified))
  }

  ghost predicate PcSeen(w: World, db: Db, pc: Pc) {
    match pc
    case Fetching(feed, url, etag, lastModified) =>
      feed in db.feeds ==> url == db.feeds[feed].url && Seen(w, db, feed, url, etag, lastModified)
    case Upserting(feed, doc, next) =>
      next <= |Upserts(w, feed, doc)| &&
      (feed in db.feeds ==> w.serves(db.feeds[feed].url, doc) && KeysPresent(db, feed, Upserts(w, feed, doc), next))
    case EnqueuingEmbed(feed, doc, next, _) =>
      next < |Upserts(w, feed, doc)| &&
      (feed in db.feeds ==> w.serves(db.feeds[feed].url, doc) && KeysPresent(db, feed, Upserts(w, feed, doc), next + 1))
    case Marking304(feed, etag, lastModified) =>
      feed in db.feeds ==> Seen(w, db, feed, db.feeds[feed].url, etag, lastModified)
    case _ => true
  }

  ghost predicate AllSeen(w: World, s: State) {
    && (forall url :: url in s.docs ==> w.serves(url, s.docs[url]))
    && (forall f :: f in s.db.feeds ==> FeedSeen(w, s.db, f))
    && (forall a :: a in s.attempts ==> PcSeen(w, s.db, s.attempts[a].pc))
  }

  lemma HasKeyStays(db: Db, after: Db, feed: int, ext: Option<string>)
    requires DbInv(db) && Frame(db, after) && feed in db.feeds && feed in after.feeds && HasKey(db, feed, ext)
    ensures HasKey(after, feed, ext)
  {
    var x :| x in db.findings && db.findings[x].feed == feed && db.findings[x].ext == ext;
    assert x in after.findings && SameContent(db.findings[x], after.findings[x]);
  }

  lemma KeysStay(db: Db, after: Db, feed: int, ups: seq<FindingUpsert>, n: nat)
    requires DbInv(db) && Frame(db, after) && feed in db.feeds && feed in after.feeds
    requires n <= |ups| && KeysPresent(db, feed, ups, n)
    ensures KeysPresent(after, feed, ups, n)
  {
    forall i | 0 <= i < n ensures HasKey(after, feed, ups[i].ext) {
      HasKeyStays(db, after, feed, ups[i].ext);
    }
  }

  lemma SeenStays(w: World, db: Db, after: Db, feed: int, url: string, etag: string, lastModified: string)
    requires DbInv(db) && Frame(db, after) && feed in db.feeds && feed in after.feeds
    requires Seen(w, db, feed, url, etag, lastModified)
    ensures Seen(w, after, feed, url, etag, lastModified)
  {
    if !(etag == "" && lastModified == "") {
      var d :| SeenAs(w, db, feed, url, etag, lastModified, d);
      KeysStay(db, after, feed, Upserts(w, feed, d), |Upserts(w, feed, d)|);
      assert SeenAs(w, after, feed, url, etag, lastModified, d);
    }
  }

  lemma PcSeenStays(w: World, db: Db, after: Db, job: Job, pc: Pc)
    requires DbInv(db) && Frame(db, after) && JobOk(db, job) && PcOk(db, job, pc) && PcSeen(w, db, pc)
    ensures PcSeen(w, after, pc)
  {
    match pc
    case Fetching(feed, url, etag, lastModified) =>
      if feed in after.feeds { SeenStays(w, db, after, feed, url, etag, lastModified); }
    case Upserting(feed, doc, next) =>
      if feed in after.feeds { KeysStay(db, after, feed, Upserts(w, feed, doc), next); }
    case EnqueuingEmbed(feed, doc, next, _) =>
      if feed in after.feeds { KeysStay(db, after, feed, Upserts(w, feed, doc), next + 1); }
    case Marking304(feed, etag, lastModified) =>
      if feed in after.feeds { SeenStays(w, db, after, feed, db.feeds[feed].url, etag, lastModified); }
    case _ =>
  }

  lemma FeedSeenStays(w: World, db: Db, after: Db, feed: int)
    requires DbInv(db) && Frame(db, after) && feed in after.feeds && ValidatorsFrame(db.feeds, after.feeds)
    requires feed in db.feeds ==> FeedSeen(w, db, feed)
    ensures FeedSeen(w, after, feed)
  {
    if feed in db.feeds {
      var f := db.feeds[feed];
      SeenStays(w, db, after, feed, f.url, Header(f.etag), Header(f.lastModified));
    }
  }

  /** The other attempts are not disturbed. */
  lemma AttemptsSeenAfter(w: World, s: State, t: State, a: int)
    requires Base(s) && AllSeen(w, s) && StepFrame(s, t, a)
    requires a in t.attempts ==> PcSeen(w, t.db, t.attempts[a].pc)
    ensures forall b :: b in t.attempts ==> PcSeen(w, t.db, t.attempts[b].pc)
  {
    forall b | b in t.attempts ensures PcSeen(w, t.db, t.attempts[b].pc) {
      if b != a {
        assert AttemptOk(s, s.attempts[b]);
        PcSeenStays(w, s.db, t.db, s.jobs[s.attempts[b].job], s.attempts[b].pc);
      }
    }
  }

  lemma SeenAfter(w: World, s: State, t: State, a: int)
    requires Base(s) && AllSeen(w, s) && StepFrame(s, t, a)
    requires ValidatorsFrame(s.db.feeds, t.db.feeds)
    requires forall url :: url in t.docs ==> w.serves(url, t.docs[url])
    requires a in t.attempts ==> PcSeen(w, t.db, t.attempts[a].pc)
    ensures AllSeen(w, t)
  {
    AttemptsSeenAfter(w, s, t, a);
    forall f | f in t.db.feeds ensures FeedSeen(w, t.db, f) {
      FeedSeenStays(w, s.db, t.db, f);
    }
  }

  lemma HeaderOfNonEmpty(s: string)
    ensures Header(NonEmpty(s)) == s
  {
  }

  /** MarkFeedFetched may store validators whose version has been seen. */
  lemma MarkSeen(w: World, s: State, t: State, a: int, feed: int, etag: string, lastModified: string, title: Option<string>, now: int)
    requires Base(s) && AllSeen(w, s) && StepFrame(s, t, a) && t.docs == s.docs
    requires t.db == MarkFetched(s.db, feed, NonEmpty(etag), NonEmpty(lastModified), title, now)
    requires feed in s.db.feeds ==> Seen(w, s.db, feed, s.db.feeds[feed].url, etag, lastModified)
    requires a in t.attempts ==> t.attempts[a].pc.Returned?
    ensures AllSeen(w, t)
  {
    AttemptsSeenAfter(w, s, t, a);
    forall f | f in t.db.feeds ensures FeedSeen(w, t.db, f) {
      if f == feed {
        SeenStays(w, s.db, t.db, f, s.db.feeds[f].url, etag, lastModified);
        HeaderOfNonEmpty(etag);
        HeaderOfNonEmpty(lastModified);
      } else {
        SeenStays(w, s.db, t.db, f, s.db.feeds[f].url, Header(s.db.feeds[f].etag), Header(s.db.feeds[f].lastModified));
      }
    }
  }

  lemma FinalMarkSeen(w: World, s: State, a: int, now: int, e: bool, l: bool)
    requires Base(s) && AllSeen(w, s) && a in s.attempts && s.attempts[a].job in s.jobs && s.attempts[a].pc.Upserting?
    requires s.attempts[a].pc.next >= |Upserts(w, s.attempts[a].pc.feed, s.attempts[a].pc.doc)|
    ensures AllSeen(w, AdvanceAttempt(w, s, a, now, e, l))
  {
    var t, pc := AdvanceAttempt(w, s, a, now, e, l), s.attempts[a].pc;
    UpsertBase(w, s, a, now, e, l);
    assert PcSeen(w, s.db, pc);
    if pc.feed in s.db.feeds {
      assert SeenAs(w, s.db, pc.feed, s.db.feeds[pc.feed].url, pc.doc.etag, pc.doc.lastModified, pc.doc);
    }
    MarkSeen(w, s, t, a, pc.feed, pc.doc.etag, pc.doc.lastModified, NonEmpty(TrimSpace(pc.doc.title)), now);
  }

  /** After the upsert the key is there, whether or not this attempt inserted it. */
  lemma KeyArrives(w: World, s: State, a: int, now: int, e: bool, l: bool)
    requires a in s.attempts && s.attempts[a].job in s.jobs && s.attempts[a].pc.Upserting? && s.attempts[a].pc.feed in s.db.feeds
    requires s.attempts[a].pc.next < |Upserts(w, s.attempts[a].pc.feed, s.attempts[a].pc.doc)|
    ensures var pc := s.attempts[a].pc;
            HasKey(AdvanceAttempt(w, s, a, now, e, l).db, pc.feed, Upserts(w, pc.feed, pc.doc)[pc.next].ext)
  {
    var t, pc := AdvanceAttempt(w, s, a, now, e, l), s.attempts[a].pc;
    var up := Upserts(w, pc.feed, pc.doc)[pc.next];
    if !Conflicts(s.db, up) { assert t.db.findings[s.db.nextFinding] == NewFinding(up); }
  }

  lemma UpsertSeen(w: World, s: State, a: int, now: int, e: bool, l: bool)
    requires Base(s) && AllSeen(w, s) && a in s.attempts && s.attempts[a].job in s.jobs && s.attempts[a].pc.Upserting?
    requires s.attempts[a].pc.next < |Upserts(w, s.attempts[a].pc.feed, s.attempts[a].pc.doc)|
    ensures AllSeen(w, AdvanceAttempt(w, s, a, now, e, l))
  {
    var t := AdvanceAttempt(w, s, a, now, e, l);
    UpsertBase(w, s, a, now, e, l);
    UpsertPcSeen(w, s, a, now, e, l);
    assert t.db.feeds == s.db.feeds && t.docs == s.docs;
    SeenAfter(w, s, t, a);
  }

  lemma UpsertMoves(w: World, s: State, a: int, now: int, e: bool, l: bool)
    requires a in s.attempts && s.attempts[a].job in s.jobs && s.attempts[a].pc.Upserting?
    requires s.attempts[a].pc.next < |Upserts(w, s.attempts[a].pc.feed, s.attempts[a].pc.doc)|
    ensures var t, pc := AdvanceAttempt(w, s, a, now, e, l), s.attempts[a].pc;
            && t.db.feeds == s.db.feeds
            && (a in t.attempts ==> || t.attempts[a].pc == Upserting(pc.feed, pc.doc, pc.next + 1)
                                    || t.attempts[a].pc == EnqueuingEmbed(pc.feed, pc.doc, pc.next, s.db.nextFinding))
  {
  }

  /** With the item's key present too, the loop may go on. */
  lemma NextPcSeen(w: World, db: Db, after: Db, pc: Pc, next: Pc)
    requires PcSeen(w, db, pc) && pc.Upserting? && pc.next < |Upserts(w, pc.feed, pc.doc)| && after.feeds == db.feeds
    requires pc.feed in db.feeds ==> KeysPresent(after, pc.feed, Upserts(w, pc.feed, pc.doc), pc.next)
    requires pc.feed in db.feeds ==> HasKey(after, pc.feed, Upserts(w, pc.feed, pc.doc)[pc.next].ext)
    requires || next == Upserting(pc.feed, pc.doc, pc.next + 1)
             || (next.EnqueuingEmbed? && next.feed == pc.feed && next.doc == pc.doc && next.next == pc.next)
    ensures PcSeen(w, after, next)
  {
  }

  lemma UpsertPcSeen(w: World, s: State, a: int, now: int, e: bool, l: bool)
    requires Base(s) && AllSeen(w, s) && a in s.attempts && s.attempts[a].job in s.jobs && s.attempts[a].pc.Upserting?
    requires s.attempts[a].pc.next < |Upserts(w, s.attempts[a].pc.feed, s.attempts[a].pc.doc)|
    requires Frame(s.db, AdvanceAttempt(w, s, a, now, e, l).db)
    ensures var t := AdvanceAttempt(w, s, a, now, e, l); a in t.attempts ==> PcSeen(w, t.db, t.attempts[a].pc)
  {
    var t, pc := AdvanceAttempt(w, s, a, now, e, l), s.attempts[a].pc;
    UpsertMoves(w, s, a, now, e, l);
    UpsertKeys(w, s, t.db, pc, a);
    if pc.feed in s.db.feeds { KeyArrives(w, s, a, now, e, l); }
    if a in t.attempts { NextPcSeen(w, s.db, t.db, pc, t.attempts[a].pc); }
  }

  lemma UpsertKeys(w: World, s: State, after: Db, pc: Pc, a: int)
    requires Base(s) && AllSeen(w, s) && a in s.attempts && s.attempts[a].pc == pc && pc.Upserting?
    requires Frame(s.db, after) && after.feeds == s.db.feeds
    ensures PcSeen(w, s.db, pc)
    ensures pc.feed in s.db.feeds ==> KeysPresent(after, pc.feed, Upserts(w, pc.feed, pc.doc), pc.next)
  {
    assert PcSeen(w, s.db, pc);
    if pc.feed in s.db.feeds { KeysStay(s.db, after, pc.feed, Upserts(w, pc.feed, pc.doc), pc.next); }
  }

  lemma FetchSeen(w: World, s: State, a: int, now: int, e: bool, l: bool)
    requires Honest(w)
    requires Base(s) && AllSeen(w, s) && a in s.attempts && s.attempts[a].job in s.jobs && s.attempts[a].pc.Fetching?
    ensures AllSeen(w, AdvanceAttempt(w, s, a, now, e, l))
  {
    var t := AdvanceAttempt(w, s, a, now, e, l);
    FetchBase(w, s, a, now, e, l);
    var pc := s.attempts[a].pc;
    assert PcSeen(w, s.db, pc);
    if pc.url in s.docs && pc.feed in s.db.feeds && w.notModified(pc.url, pc.etag, pc.lastModified, s.docs[pc.url]) {
      NotModifiedIsSeen(w, s.db, pc.feed, pc.url, pc.etag, pc.lastModified, s.docs[pc.url]);
      var doc := s.docs[pc.url];
      assert SeenAs(w, s.db, pc.feed, pc.url, t.attempts[a].pc.etag, t.attempts[a].pc.lastModified, doc);
    }
    SeenAfter(w, s, t, a);
  }

  /** The heart of it: an honest 304 answers only validators of a version with the same, already stored entries. */
  lemma NotModifiedIsSeen(w: World, db: Db, feed: int, url: string, etag: string, lastModified: string, doc: Doc)
    requires Honest(w) && w.serves(url, doc) && w.notModified(url, etag, lastModified, doc)
    requires Seen(w, db, feed, url, etag, lastModified)
    ensures KeysPresent(db, feed, Upserts(w, feed, doc), |Upserts(w, feed, doc)|)
  {
    assert !(etag == "" && lastModified == "");
    var d :| SeenAs(w, db, feed, url, etag, lastModified, d);
    assert d.items == doc.items;
  }

  lemma StepSeen(w: World, s: State, step: Step)
    requires Honest(w) && Base(s) && AllSeen(w, s)
    ensures AllSeen(w, Apply(w, s, step))
  {
    match step
    case Advance(a, now, e, l) =>
      if a in s.attempts && s.attempts[a].job in s.jobs { AdvanceSeen(w, s, a, now, e, l); }
    case User(op) => UserSeen(w, s, op);
    case FetchError(a, now, message) => FetchErrorSeen(w, s, a, now, message);
    case Crash(a) => CrashSeen(w, s, a);
    case _ => QueueSeen(w, s, step);
  }

  lemma UserSeen(w: World, s: State, op: UserOp)
    requires Base(s) && AllSeen(w, s)
    ensures AllSeen(w, Apply(w, s, User(op)))
  {
    UserBase(w, s, op);
    UserOpKeeps(s.db, op);
    if 0 in s.attempts {
      assert AttemptOk(s, s.attempts[0]);
      PcSeenStays(w, s.db, Do(s.db, op), s.jobs[s.attempts[0].job], s.attempts[0].pc);
    }
    SeenAfter(w, s, Apply(w, s, User(op)), 0);
  }

  lemma FetchErrorSeen(w: World, s: State, a: int, now: int, message: string)
    requires Base(s) && AllSeen(w, s)
    ensures AllSeen(w, Apply(w, s, FetchError(a, now, message)))
  {
    FetchErrorBase(w, s, a, now, message);
    if a in s.attempts && s.attempts[a].pc.Fetching? {
      MarkErrorKeeps(s.db, s.attempts[a].pc.feed, message, now);
      SeenAfter(w, s, Apply(w, s, FetchError(a, now, message)), a);
    }
  }

  lemma CrashSeen(w: World, s: State, a: int)
    requires Base(s) && AllSeen(w, s)
    ensures AllSeen(w, Apply(w, s, Crash(a)))
  {
    CrashBase(w, s, a);
    CrashShape(w, s, a);
    SeenAfter(w, s, Apply(w, s, Crash(a)), a);
  }

  lemma QueueSeen(w: World, s: State, step: Step)
    requires Base(s) && AllSeen(w, s) && (step.Schedule? || step.Deliver? || step.Publish?)
    ensures AllSeen(w, Apply(w, s, step))
  {
    StepBase(w, s, step);
    SeenAfter(w, s, Apply(w, s, step), Subject(step));
  }

  lemma AdvanceSeen(w: World, s: State, a: int, now: int, e: bool, l: bool)
    requires Honest(w) && Base(s) && AllSeen(w, s) && a in s.attempts && s.attempts[a].job in s.jobs
    ensures AllSeen(w, AdvanceAttempt(w, s, a, now, e, l))
  {
    var t := AdvanceAttempt(w, s, a, now, e, l);
    var pc := s.attempts[a].pc;
    AdvanceBase(w, s, a, now, e, l);
    match pc
    case Upserting(feed, doc, next) =>
      if next < |Upserts(w, feed, doc)| { UpsertSeen(w, s, a, now, e, l); } else { FinalMarkSeen(w, s, a, now, e, l); }
    case Fetching(_, _, _, _) => FetchSeen(w, s, a, now, e, l);
    case Marking304(feed, etag, lastModified) =>
      assert PcSeen(w, s.db, pc);
      MarkSeen(w, s, t, a, feed, etag, lastModified, None, now);
    case Begin => BeginSeen(w, s, a, now, e, l);
    case _ => assert PcSeen(w, s.db, pc); SeenAfter(w, s, t, a);
  }

  lemma BeginSeen(w: World, s: State, a: int, now: int, e: bool, l: bool)
    requires Base(s) && AllSeen(w, s) && a in s.attempts && s.attempts[a].job in s.jobs && s.attempts[a].pc.Begin?
    ensures AllSeen(w, AdvanceAttempt(w, s, a, now, e, l))
  {
    BeginBase(w, s, a, now, e, l);
    SeenAfter(w, s, AdvanceAttempt(w, s, a, now, e, l), a);
  }

  ghost predicate Safe(w: World, s: State) {
    Base(s) && AllSeen(w, s)
  }

  lemma {:induction false} RunSafe(w: World, s: State, steps: seq<Step>)
    requires Honest(w) && Safe(w, s)
    ensures Safe(w, Run(w, s, steps))
    decreases |steps|
  {
    if steps != [] {
      StepBase(w, s, steps[0]);
      StepSeen(w, s, steps[0]);
      RunSafe(w, Apply(w, s, steps[0]), steps[1..]);
    }
  }

  /**
   In every state of every run: if the origin would answer a feed's stored
   validators with 304, every entry of the current document is already a finding.
   */
  lemma NotModifiedHidesNothing(w: World, steps: seq<Step>, feed: int)
    requires Honest(w)
    ensures var s := Run(w, START, steps);
            feed in s.db.feeds && s.db.feeds[feed].url in s.docs ==>
              var f := s.db.feeds[feed];
              w.notModified(f.url, Header(f.etag), Header(f.lastModified), s.docs[f.url]) ==>
                forall up :: up in Upserts(w, feed, s.docs[f.url]) ==> HasKey(s.db, feed, up.ext)
  {
    RunSafe(w, START, steps);
    var s := Run(w, START, steps);
    if feed in s.db.feeds && s.db.feeds[feed].url in s.docs {
      var f := s.db.feeds[feed];
      var doc := s.docs[f.url];
      if w.notModified(f.url, Header(f.etag), Header(f.lastModified), doc) {
        assert FeedSeen(w, s.db, feed);
        NotModifiedIsSeen(w, s.db, feed, f.url, Header(f.etag), Header(f.lastModified), doc);
      }
    }
  }
}
