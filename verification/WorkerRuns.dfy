/**
 Runs of the workers alone: users, documents and the schedule stand still, and
 attempts may fail and be retried as long as none dies between a store write and
 its enqueue.
 */
module WorkerRuns {
  import opened Wrappers
  import opened Text
  import opened RadarTables
  import opened RadarReach
  import opened Crawler
  import opened RadarPipeline
  import opened PipelineBase
  import opened ConditionalFetch
  import opened EmbedJobs
  import opened NoLostWork

  // --- Runs of the workers alone --------------------------------------------------------

  /** Deliveries, worker steps, and failures that a retry repairs. */
  predicate Harmless(s: State, step: Step) {
    match step
    case Deliver(_, _) => true
    case Advance(_, _, _, _) => true
    case FetchError(_, _, _) => true
    case Crash(a) => !Enqueuing(s, a)
    case _ => false
  }

  predicate WorkersOnly(w: World, s: State, steps: seq<Step>)
    decreases |steps|
  {
    steps == [] || (Harmless(s, steps[0]) && WorkersOnly(w, Apply(w, s, steps[0]), steps[1..]))
  }

  // --- What such a run does not change ----------------------------------------------------

  ghost predicate SameFeeds(a: map<int, Feed>, b: map<int, Feed>) {
    forall f :: (f in a <==> f in b) && (f in a ==> a[f].url == b[f].url)
  }

  /** Rows stay; an embedded row stays as it is. */
  ghost predicate RowsStay(a: map<int, Finding>, b: map<int, Finding>) {
    forall x :: x in a ==> x in b && SameContent(a[x], b[x]) && (a[x].embedding.Some? ==> b[x] == a[x])
  }

  ghost predicate MatchesStay(a: map<MatchKey, Match>, b: map<MatchKey, Match>) {
    forall k :: k in a ==> k in b && b[k] == a[k]
  }

  ghost predicate JobsStay(s: State, t: State) {
    && (forall j :: j in s.jobs ==> j in t.jobs && t.jobs[j] == s.jobs[j])
    && (forall j :: j in t.jobs && j !in s.jobs ==> !t.jobs[j].CrawlJob?)
    && s.done <= t.done
  }

  ghost predicate Fixed(s: State, t: State) {
    && t.db.topics == s.db.topics && t.db.subs == s.db.subs && t.docs == s.docs
    && t.lostEmbeds == s.lostEmbeds && t.lostMatches == s.lostMatches
    && SameFeeds(s.db.feeds, t.db.feeds)
    && RowsStay(s.db.findings, t.db.findings)
    && MatchesStay(s.db.matches, t.db.matches)
    && JobsStay(s, t)
  }

  lemma FixedTransitive(s: State, t: State, u: State)
    requires Fixed(s, t) && Fixed(t, u)
    ensures Fixed(s, u)
  {
    forall x | x in s.db.findings
      ensures x in u.db.findings && SameContent(s.db.findings[x], u.db.findings[x])
      ensures s.db.findings[x].embedding.Some? ==> u.db.findings[x] == s.db.findings[x]
    {
      assert x in t.db.findings;
    }
    assert forall j :: j in u.jobs && j !in s.jobs && j in t.jobs ==> u.jobs[j] == t.jobs[j];
  }

  // --- Vectors are those the embedder gives ----------------------------------------------

  predicate ByEmbedder(w: World, row: Finding) {
    EmbedText(row) != "" && row.embedding == Some(w.embed(EmbedText(row)))
  }

  /** An attempt about to write a vector writes the embedder's, over nothing embedded before the run. */
  predicate PcVector(w: World, s0: State, db: Db, pc: Pc) {
    pc.Embedding? && pc.finding in db.findings ==>
      && !Embedded(s0.db, pc.finding)
      && EmbedText(db.findings[pc.finding]) != ""
      && pc.vec == w.embed(EmbedText(db.findings[pc.finding]))
  }

  ghost predicate Vectors(w: World, s0: State, s: State) {
    && (forall x :: Embedded(s.db, x) && !Embedded(s0.db, x) ==> ByEmbedder(w, s.db.findings[x]))
    && (forall a :: a in s.attempts ==> PcVector(w, s0, s.db, s.attempts[a].pc))
  }

  lemma EmbeddingFixed(w: World, s0: State, s: State, a: int, now: int, e: bool, l: bool)
    requires Base(s) && Fixed(s0, s) && Vectors(w, s0, s)
    requires a in s.attempts && s.attempts[a].job in s.jobs && s.attempts[a].pc.Embedding?
    ensures Fixed(s, AdvanceAttempt(w, s, a, now, e, l))
  {
    var pc := s.attempts[a].pc;
    assert PcVector(w, s0, s.db, pc);
    if Embedded(s.db, pc.finding) {
      assert ByEmbedder(w, s.db.findings[pc.finding]);
    }
  }

  lemma UpsertFixed(w: World, s: State, a: int, now: int, e: bool, l: bool)
    requires Base(s) && a in s.attempts && s.attempts[a].job in s.jobs && s.attempts[a].pc.Upserting?
    ensures Fixed(s, AdvanceAttempt(w, s, a, now, e, l))
  {
    var pc := s.attempts[a].pc;
    if pc.next < |Upserts(w, pc.feed, pc.doc)| {
      InsertFixed(w, s, a, now, e, l);
    } else {
      FinalMarkFixed(w, s, a, now, e, l);
    }
  }

  lemma InsertFixed(w: World, s: State, a: int, now: int, e: bool, l: bool)
    requires Base(s) && a in s.attempts && s.attempts[a].job in s.jobs && s.attempts[a].pc.Upserting?
    requires s.attempts[a].pc.next < |Upserts(w, s.attempts[a].pc.feed, s.attempts[a].pc.doc)|
    ensures Fixed(s, AdvanceAttempt(w, s, a, now, e, l))
  {
    var pc, t := s.attempts[a].pc, AdvanceAttempt(w, s, a, now, e, l);
    var up := Upserts(w, pc.feed, pc.doc)[pc.next];
    InsertRows(s.db, up);
    assert t.db == s.db || t.db == InsertFinding(s.db, up);
  }

  lemma InsertRows(db: Db, up: FindingUpsert)
    requires DbInv(db)
    ensures var after := InsertFinding(db, up);
            after == db.(findings := after.findings, nextFinding := after.nextFinding) && RowsStay(db.findings, after.findings)
  {
  }

  lemma FinalMarkFixed(w: World, s: State, a: int, now: int, e: bool, l: bool)
    requires a in s.attempts && s.attempts[a].job in s.jobs && s.attempts[a].pc.Upserting?
    requires s.attempts[a].pc.next >= |Upserts(w, s.attempts[a].pc.feed, s.attempts[a].pc.doc)|
    ensures Fixed(s, AdvanceAttempt(w, s, a, now, e, l))
  {
    var t := AdvanceAttempt(w, s, a, now, e, l);
    assert t.db.findings == s.db.findings && t.db.matches == s.db.matches;
  }

  lemma OtherFixed(w: World, s: State, a: int, now: int, e: bool, l: bool)
    requires Base(s) && a in s.attempts && s.attempts[a].job in s.jobs
    requires !s.attempts[a].pc.Embedding? && !s.attempts[a].pc.Upserting? && !s.attempts[a].pc.Begin? && !s.attempts[a].pc.Marking304?
    ensures Fixed(s, AdvanceAttempt(w, s, a, now, e, l))
  {
    var t := AdvanceAttempt(w, s, a, now, e, l);
    assert t.db == s.db;
  }

  lemma MarkFixed(w: World, s: State, a: int, now: int, e: bool, l: bool)
    requires Base(s) && a in s.attempts && s.attempts[a].job in s.jobs && s.attempts[a].pc.Marking304?
    ensures Fixed(s, AdvanceAttempt(w, s, a, now, e, l))
  {
    var t := AdvanceAttempt(w, s, a, now, e, l);
    assert t.db.findings == s.db.findings && t.db.matches == s.db.matches;
  }

  lemma BeginFixed(w: World, s: State, a: int, now: int, e: bool, l: bool)
    requires Base(s) && a in s.attempts && s.attempts[a].job in s.jobs && s.attempts[a].pc.Begin?
    ensures Fixed(s, AdvanceAttempt(w, s, a, now, e, l))
  {
    var t := AdvanceAttempt(w, s, a, now, e, l);
    assert t.db.findings == s.db.findings && t.db.feeds == s.db.feeds;
  }

  lemma StepFixed(w: World, s0: State, s: State, step: Step)
    requires Base(s) && Fixed(s0, s) && Vectors(w, s0, s) && Harmless(s, step)
    ensures Fixed(s, Apply(w, s, step))
  {
    if step.Advance? {
      var a := step.attempt;
      if a in s.attempts && s.attempts[a].job in s.jobs {
        match s.attempts[a].pc
        case Embedding(_, _) => EmbeddingFixed(w, s0, s, a, step.now, step.showEtag, step.showLastModified);
        case Upserting(_, _, _) => UpsertFixed(w, s, a, step.now, step.showEtag, step.showLastModified);
        case Marking304(_, _, _) => MarkFixed(w, s, a, step.now, step.showEtag, step.showLastModified);
        case Begin => BeginFixed(w, s, a, step.now, step.showEtag, step.showLastModified);
        case _ => OtherFixed(w, s, a, step.now, step.showEtag, step.showLastModified);
      }
    } else {
      FailureFixed(w, s, step);
    }
  }

  lemma FailureFixed(w: World, s: State, step: Step)
    requires Harmless(s, step) && !step.Advance?
    ensures Fixed(s, Apply(w, s, step))
  {
    if step.FetchError? {
      MarkErrorFixed(w, s, step);
    } else {
      assert Apply(w, s, step).db == s.db;
    }
  }

  lemma MarkErrorFeeds(db: Db, feed: int, message: string, now: int)
    ensures var after := MarkError(db, feed, message, now);
            SameFeeds(db.feeds, after.feeds) && after == db.(feeds := after.feeds)
  {
  }

  lemma MarkErrorFixed(w: World, s: State, step: Step)
    requires step.FetchError?
    ensures Fixed(s, Apply(w, s, step))
  {
    if step.attempt in s.attempts && s.attempts[step.attempt].pc.Fetching? {
      MarkErrorFeeds(s.db, s.attempts[step.attempt].pc.feed, step.message, step.now);
    }
  }

  lemma PcVectorStays(w: World, s0: State, s: State, t: State, a: int)
    requires Base(s) && Fixed(s, t) && Frame(s.db, t.db) && a in s.attempts && AttemptOk(s, s.attempts[a])
    requires PcVector(w, s0, s.db, s.attempts[a].pc)
    ensures PcVector(w, s0, t.db, s.attempts[a].pc)
  {
    var pc := s.attempts[a].pc;
    if pc.Embedding? && pc.finding in t.db.findings {
      assert pc.finding in s.db.findings && SameContent(s.db.findings[pc.finding], t.db.findings[pc.finding]);
    }
  }

  lemma VectorsAfter(w: World, s0: State, s: State, t: State, a: int)
    requires Base(s) && Fixed(s0, s) && Fixed(s, t) && StepFrame(s, t, a) && Vectors(w, s0, s)
    requires forall x :: Embedded(t.db, x) && !Embedded(s.db, x) && !Embedded(s0.db, x) ==> ByEmbedder(w, t.db.findings[x])
    requires a in t.attempts ==> PcVector(w, s0, t.db, t.attempts[a].pc)
    ensures Vectors(w, s0, t)
  {
    forall b | b in t.attempts ensures PcVector(w, s0, t.db, t.attempts[b].pc) {
      if b != a {
        assert AttemptOk(s, s.attempts[b]);
        PcVectorStays(w, s0, s, t, b);
      }
    }
    forall x | Embedded(t.db, x) && !Embedded(s0.db, x) ensures ByEmbedder(w, t.db.findings[x]) {
      if Embedded(s.db, x) { assert ByEmbedder(w, s.db.findings[x]); }
    }
  }

  lemma AdvanceVectors(w: World, s0: State, s: State, a: int, now: int, e: bool, l: bool)
    requires Base(s) && Fixed(s0, s) && Vectors(w, s0, s) && a in s.attempts && s.attempts[a].job in s.jobs
    requires Fixed(s, AdvanceAttempt(w, s, a, now, e, l))
    ensures Vectors(w, s0, AdvanceAttempt(w, s, a, now, e, l))
  {
    var t := AdvanceAttempt(w, s, a, now, e, l);
    AdvanceBase(w, s, a, now, e, l);
    AdvanceFindings(w, s, a, now, e, l);
    assert PcVector(w, s0, s.db, s.attempts[a].pc);
    AdvancedPcVector(w, s0, s, a, now, e, l);
    VectorsAfter(w, s0, s, t, a);
  }

  lemma AdvancedPcVector(w: World, s0: State, s: State, a: int, now: int, e: bool, l: bool)
    requires Fixed(s0, s) && a in s.attempts && s.attempts[a].job in s.jobs
    ensures var t := AdvanceAttempt(w, s, a, now, e, l); a in t.attempts ==> PcVector(w, s0, t.db, t.attempts[a].pc)
  {
    var t := AdvanceAttempt(w, s, a, now, e, l);
    if a in t.attempts && t.attempts[a].pc.Embedding? {
      var x := t.attempts[a].pc.finding;
      assert s.attempts[a].pc.Begin? && x in s.db.findings && s.db.findings[x].embedding.None?;
      assert !Embedded(s0.db, x);
    }
  }

  /** A failure or a delivery writes no row, and its attempt is gone or at the beginning. */
  lemma FailureMovesNothing(w: World, s: State, step: Step)
    requires Harmless(s, step) && !step.Advance?
    ensures var t, a := Apply(w, s, step), Subject(step);
            && t.db.findings == s.db.findings
            && (a in t.attempts ==> (a in s.attempts && t.attempts[a] == s.attempts[a]) || t.attempts[a].pc.Begin?)
  {
  }

  lemma FailureVectors(w: World, s0: State, s: State, step: Step)
    requires Base(s) && Fixed(s0, s) && Vectors(w, s0, s) && Harmless(s, step) && !step.Advance?
    ensures Vectors(w, s0, Apply(w, s, step))
  {
    StepBase(w, s, step);
    FailureFixed(w, s, step);
    FailureMovesNothing(w, s, step);
    VectorsAfter(w, s0, s, Apply(w, s, step), Subject(step));
  }

  lemma StepVectors(w: World, s0: State, s: State, step: Step)
    requires Base(s) && Fixed(s0, s) && Vectors(w, s0, s) && Harmless(s, step)
    ensures Vectors(w, s0, Apply(w, s, step))
  {
    StepFixed(w, s0, s, step);
    if step.Advance? {
      if step.attempt in s.attempts && s.attempts[step.attempt].job in s.jobs {
        AdvanceVectors(w, s0, s, step.attempt, step.now, step.showEtag, step.showLastModified);
      }
    } else {
      FailureVectors(w, s0, s, step);
    }
  }
}
