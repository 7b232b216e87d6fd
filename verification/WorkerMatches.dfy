/**
 What a run of the workers alone adds to the matches: the matcher's join for
 every finding embedded during the run or awaiting its match job, and nothing else.
 */
module WorkerMatches {
  import opened Wrappers
  import opened RadarTables
  import opened RadarReach
  import opened Crawler
  import opened RadarPipeline
  import opened PipelineBase
  import opened EmbedJobs
  import opened NoLostWork
  import opened WorkerRuns

  /** A match job is inserted only after its finding was embedded. */
  ghost predicate MatchJobsEmbedded(s: State) {
    forall j :: j in s.jobs && s.jobs[j].MatchJob? && s.jobs[j].finding in s.db.findings ==>
      s.db.findings[s.jobs[j].finding].embedding.Some?
  }

  lemma MatchJobsEmbeddedAfter(s: State, t: State, a: int)
    requires Base(s) && StepFrame(s, t, a) && MatchJobsEmbedded(s)
    requires RowsProgress(s.db.findings, s.db.nextFinding, t.db.findings)
    requires forall j :: j in t.jobs && j !in s.jobs && t.jobs[j].MatchJob? && t.jobs[j].finding in t.db.findings ==>
               t.db.findings[t.jobs[j].finding].embedding.Some?
    ensures MatchJobsEmbedded(t)
  {
    forall j | j in t.jobs && t.jobs[j].MatchJob? && t.jobs[j].finding in t.db.findings
      ensures t.db.findings[t.jobs[j].finding].embedding.Some?
    {
      if j in s.jobs {
        assert JobOk(s.db, s.jobs[j]);
        assert t.jobs[j].finding in s.db.findings;
      }
    }
  }

  lemma StepMatchJobsEmbedded(w: World, s: State, step: Step)
    requires Base(s) && AllSettled(s) && MatchJobsEmbedded(s)
    ensures MatchJobsEmbedded(Apply(w, s, step))
  {
    var t := Apply(w, s, step);
    StepBase(w, s, step);
    StepRows(w, s, step);
    NewMatchJob(w, s, step);
    MatchJobsEmbeddedAfter(s, t, Subject(step));
  }

  lemma NewMatchJob(w: World, s: State, step: Step)
    requires Base(s) && AllSettled(s)
    ensures var t := Apply(w, s, step);
            forall j :: j in t.jobs && j !in s.jobs && t.jobs[j].MatchJob? ==>
              && step.Advance? && AboutToEnqueueMatch(s, step.attempt, t.jobs[j].finding)
              && t.db == s.db
              && (t.jobs[j].finding in s.db.findings ==> s.db.findings[t.jobs[j].finding].embedding.Some?)
  {
    if step.Advance? && step.attempt in s.attempts && s.attempts[step.attempt].job in s.jobs {
      assert PcSettled(s.db, s.jobs[s.attempts[step.attempt].job], s.attempts[step.attempt].pc);
    }
  }

  lemma {:induction false} RunMatchJobsEmbedded(w: World, s: State, steps: seq<Step>)
    requires Accounted(s) && MatchJobsEmbedded(s)
    ensures Accounted(Run(w, s, steps)) && MatchJobsEmbedded(Run(w, s, steps))
    decreases |steps|
  {
    if steps != [] {
      StepBase(w, s, steps[0]);
      StepOwner(w, s, steps[0]);
      StepSettled(w, s, steps[0]);
      StepCovered(w, s, steps[0]);
      StepMatchJobsEmbedded(w, s, steps[0]);
      RunMatchJobsEmbedded(w, Apply(w, s, steps[0]), steps[1..]);
    }
  }

  // --- Matches of the run -----------------------------------------------------------------

  /** Findings that go through the matcher before the queue is empty. */
  ghost predicate WillMatch(s0: State, x: int) {
    x !in s0.db.findings || s0.db.findings[x].embedding.None? || HasPending(s0, MatchJob(x))
  }

  ghost predicate MatchedNow(w: World, db: Db, x: int) {
    forall t :: Joins(w.similarity, db, t, x) ==> MatchKey(t, x) in db.matches
  }

  ghost predicate NewMatchOk(w: World, s0: State, db: Db, k: MatchKey)
    requires k in db.matches
  {
    && WillMatch(s0, k.finding)
    && Joins(w.similarity, db, k.topic, k.finding)
    && db.matches[k] == NewMatch(w.similarity, db, k.topic, k.finding)
  }

  ghost predicate NewMatches(w: World, s0: State, db: Db) {
    forall k :: k in db.matches && k !in s0.db.matches ==> NewMatchOk(w, s0, db, k)
  }

  ghost predicate MatchWork(w: World, s0: State, s: State) {
    && (forall j :: j in s.jobs && j !in s0.done && s.jobs[j].MatchJob? ==> WillMatch(s0, s.jobs[j].finding))
    && (forall a :: a in s.attempts && s.attempts[a].pc.EnqueuingMatch? ==> WillMatch(s0, s.attempts[a].pc.finding))
    && (forall a :: a in s.attempts ==> s.attempts[a].job !in s0.done)
  }

  ghost predicate MatchPromise(w: World, s0: State, s: State) {
    forall x :: Embedded(s.db, x) && WillMatch(s0, x) ==> MatchedNow(w, s.db, x) || Awaited(s, x)
  }

  lemma JoinsStay(w: World, s: State, t: State, topic: int, x: int)
    requires Fixed(s, t) && Embedded(s.db, x)
    ensures Joins(w.similarity, t.db, topic, x) <==> Joins(w.similarity, s.db, topic, x)
    ensures Joins(w.similarity, s.db, topic, x) ==>
              NewMatch(w.similarity, t.db, topic, x) == NewMatch(w.similarity, s.db, topic, x)
  {
    assert t.db.findings[x] == s.db.findings[x];
  }

  lemma MatchedNowStays(w: World, s: State, t: State, x: int)
    requires Fixed(s, t) && Embedded(s.db, x) && MatchedNow(w, s.db, x)
    ensures MatchedNow(w, t.db, x)
  {
    forall topic | Joins(w.similarity, t.db, topic, x) ensures MatchKey(topic, x) in t.db.matches {
      JoinsStay(w, s, t, topic, x);
    }
  }

  lemma NewMatchesStay(w: World, s0: State, s: State, t: State)
    requires Fixed(s, t) && NewMatches(w, s0, s.db)
    requires forall k :: k in t.db.matches && k !in s.db.matches ==> NewMatchOk(w, s0, t.db, k)
    ensures NewMatches(w, s0, t.db)
  {
    forall k | k in t.db.matches && k !in s0.db.matches ensures NewMatchOk(w, s0, t.db, k) {
      if k in s.db.matches {
        assert NewMatchOk(w, s0, s.db, k);
        JoinsStay(w, s, t, k.topic, k.finding);
      }
    }
  }

  predicate AtMatchStep(s: State, a: int) {
    a in s.attempts && s.attempts[a].job in s.jobs && s.attempts[a].pc.Begin? && s.jobs[s.attempts[a].job].MatchJob?
  }

  lemma OtherStepsKeepMatches(w: World, s: State, a: int, now: int, e: bool, l: bool)
    requires a in s.attempts && s.attempts[a].job in s.jobs && !AtMatchStep(s, a)
    ensures AdvanceAttempt(w, s, a, now, e, l).db.matches == s.db.matches
  {
    match s.attempts[a].pc
    case Upserting(feed, doc, next) => assert Upsert(w, s, a, s.attempts[a].pc, now).db.matches == s.db.matches;
    case Fetching(_, _, _, _) => assert Fetch(w, s, a, s.attempts[a].pc, e, l).db == s.db;
    case Embedding(_, _) => assert WriteEmbedding(s, a, s.attempts[a].pc).db.matches == s.db.matches;
    case _ =>
  }

  lemma AdvanceNewMatches(w: World, s0: State, s: State, a: int, now: int, e: bool, l: bool)
    requires a in s.attempts && s.attempts[a].job in s.jobs
    requires NewMatches(w, s0, s.db) && MatchWork(w, s0, s)
    requires Fixed(s, AdvanceAttempt(w, s, a, now, e, l))
    ensures NewMatches(w, s0, AdvanceAttempt(w, s, a, now, e, l).db)
  {
    var t := AdvanceAttempt(w, s, a, now, e, l);
    if AtMatchStep(s, a) {
      var x := s.jobs[s.attempts[a].job].finding;
      assert WillMatch(s0, x);
      forall k | k in t.db.matches && k !in s.db.matches ensures NewMatchOk(w, s0, t.db, k) {
        assert k.finding == x && Joins(w.similarity, s.db, k.topic, x);
        JoinsStay(w, s, t, k.topic, x);
      }
    } else {
      OtherStepsKeepMatches(w, s, a, now, e, l);
    }
    NewMatchesStay(w, s0, s, t);
  }

  lemma AdvanceMatchWork(w: World, s0: State, s: State, a: int, now: int, e: bool, l: bool)
    requires Base(s) && AllSettled(s) && Fixed(s0, s) && Vectors(w, s0, s) && MatchWork(w, s0, s)
    requires a in s.attempts && s.attempts[a].job in s.jobs
    ensures MatchWork(w, s0, AdvanceAttempt(w, s, a, now, e, l))
  {
    var t := AdvanceAttempt(w, s, a, now, e, l);
    AdvanceBase(w, s, a, now, e, l);
    NewMatchJob(w, s, Advance(a, now, e, l));
    AdvancedWillMatch(w, s0, s, a, now, e, l);
    forall j | j in t.jobs && j !in s0.done && t.jobs[j].MatchJob? ensures WillMatch(s0, t.jobs[j].finding) {
      if j !in s.jobs { assert AboutToEnqueueMatch(s, a, t.jobs[j].finding); }
    }
  }

  lemma AdvancedWillMatch(w: World, s0: State, s: State, a: int, now: int, e: bool, l: bool)
    requires Vectors(w, s0, s) && MatchWork(w, s0, s) && a in s.attempts && s.attempts[a].job in s.jobs
    ensures var t := AdvanceAttempt(w, s, a, now, e, l);
            a in t.attempts ==>
              && t.attempts[a].job == s.attempts[a].job
              && (t.attempts[a].pc.EnqueuingMatch? ==> WillMatch(s0, t.attempts[a].pc.finding))
  {
    assert PcVector(w, s0, s.db, s.attempts[a].pc);
  }

  lemma BeginMatchPromise(w: World, s0: State, s: State, a: int, now: int, e: bool, l: bool)
    requires Base(s) && MatchPromise(w, s0, s) && a in s.attempts && s.attempts[a].job in s.jobs
    requires Fixed(s, AdvanceAttempt(w, s, a, now, e, l))
    requires s.attempts[a].pc.Begin? && s.jobs[s.attempts[a].job].MatchJob?
    ensures MatchPromise(w, s0, AdvanceAttempt(w, s, a, now, e, l))
  {
    var t := AdvanceAttempt(w, s, a, now, e, l);
    var y := s.jobs[s.attempts[a].job].finding;
    BeginBase(w, s, a, now, e, l);
    forall x | Embedded(t.db, x) && WillMatch(s0, x) ensures MatchedNow(w, t.db, x) || Awaited(t, x) {
      assert Embedded(s.db, x);
      if x == y {
        forall topic | Joins(w.similarity, t.db, topic, x) ensures MatchKey(topic, x) in t.db.matches {
          JoinsStay(w, s, t, topic, x);
        }
      } else if MatchedNow(w, s.db, x) {
        MatchedNowStays(w, s, t, x);
      } else {
        AwaitedStays(s, t, a, x);
      }
    }
  }

  /** Every other worker step keeps the promise: what it newly embeds it is about to enqueue. */
  lemma KeepPromise(w: World, s0: State, s: State, t: State, a: int, moved: int)
    requires Base(s) && Fixed(s, t) && StepFrame(s, t, a) && MatchPromise(w, s0, s)
    requires forall x :: Embedded(t.db, x) && !Embedded(s.db, x) ==> x == moved
    requires AboutToEnqueueMatch(s, a, moved) || !Embedded(s.db, moved) ==> Embedded(t.db, moved) ==> Awaited(t, moved)
    requires forall x :: x != moved && AboutToEnqueueMatch(s, a, x) ==> AboutToEnqueueMatch(t, a, x)
    requires a in t.attempts && t.attempts[a].pc.Returned? ==>
               a in s.attempts && t.attempts[a].job == s.attempts[a].job && s.attempts[a].job in s.jobs
               && (s.attempts[a].pc.Returned? || !s.jobs[s.attempts[a].job].MatchJob?)
    requires forall j :: j in t.done && j !in s.done ==> a in s.attempts && s.attempts[a] == Attempt(j, Returned)
    ensures MatchPromise(w, s0, t)
  {
    forall x | Embedded(t.db, x) && WillMatch(s0, x) ensures MatchedNow(w, t.db, x) || Awaited(t, x) {
      if x == moved && (AboutToEnqueueMatch(s, a, moved) || !Embedded(s.db, moved)) {
      } else {
        assert Embedded(s.db, x);
        if MatchedNow(w, s.db, x) { MatchedNowStays(w, s, t, x); } else { AwaitedStays(s, t, a, x); }
      }
    }
  }

  lemma WritePromise(w: World, s0: State, s: State, a: int, now: int, e: bool, l: bool)
    requires Base(s) && MatchPromise(w, s0, s) && a in s.attempts && s.attempts[a].job in s.jobs
    requires Fixed(s, AdvanceAttempt(w, s, a, now, e, l))
    requires s.attempts[a].pc.Embedding?
    ensures MatchPromise(w, s0, AdvanceAttempt(w, s, a, now, e, l))
  {
    var t := AdvanceAttempt(w, s, a, now, e, l);
    var x := s.attempts[a].pc.finding;
    EmbeddingBase(w, s, a, now, e, l);
    assert x in s.db.findings ==> AboutToEnqueueMatch(t, a, x);
    KeepPromise(w, s0, s, t, a, x);
  }

  lemma EnqueuePromise(w: World, s0: State, s: State, a: int, now: int, e: bool, l: bool)
    requires Base(s) && MatchPromise(w, s0, s) && a in s.attempts && s.attempts[a].job in s.jobs
    requires Fixed(s, AdvanceAttempt(w, s, a, now, e, l))
    requires s.attempts[a].pc.EnqueuingMatch?
    ensures MatchPromise(w, s0, AdvanceAttempt(w, s, a, now, e, l))
  {
    var t := AdvanceAttempt(w, s, a, now, e, l);
    var x := s.attempts[a].pc.finding;
    EnqueueBase(w, s, a, now, e, l);
    assert forall b :: b in s.attempts ==> AttemptOk(s, s.attempts[b]);
    assert s.nextJob !in s.jobs && s.nextJob !in s.done;
    assert LiveMatch(t, s.nextJob, x);
    KeepPromise(w, s0, s, t, a, x);
  }

  lemma RestPromise(w: World, s0: State, s: State, a: int, now: int, e: bool, l: bool)
    requires Base(s) && MatchPromise(w, s0, s) && a in s.attempts && s.attempts[a].job in s.jobs
    requires Fixed(s, AdvanceAttempt(w, s, a, now, e, l))
    requires !s.attempts[a].pc.Embedding? && !s.attempts[a].pc.EnqueuingMatch?
    requires s.attempts[a].pc.Begin? ==> !s.jobs[s.attempts[a].job].MatchJob?
    ensures MatchPromise(w, s0, AdvanceAttempt(w, s, a, now, e, l))
  {
    AdvanceBase(w, s, a, now, e, l);
    AdvanceFindings(w, s, a, now, e, l);
    AdvanceDone(w, s, a, now, e, l);
    assert AttemptOk(s, s.attempts[a]);
    RestQuiet(w, s, a, now, e, l);
    assert !Embedded(s.db, -1);
    KeepPromise(w, s0, s, AdvanceAttempt(w, s, a, now, e, l), a, -1);
  }

  lemma AdvancePromise(w: World, s0: State, s: State, a: int, now: int, e: bool, l: bool)
    requires Base(s) && MatchPromise(w, s0, s) && a in s.attempts && s.attempts[a].job in s.jobs
    requires Fixed(s, AdvanceAttempt(w, s, a, now, e, l))
    ensures MatchPromise(w, s0, AdvanceAttempt(w, s, a, now, e, l))
  {
    match s.attempts[a].pc
    case Embedding(_, _) => WritePromise(w, s0, s, a, now, e, l);
    case EnqueuingMatch(_) => EnqueuePromise(w, s0, s, a, now, e, l);
    case Begin =>
      if s.jobs[s.attempts[a].job].MatchJob? { BeginMatchPromise(w, s0, s, a, now, e, l); } else { RestPromise(w, s0, s, a, now, e, l); }
    case _ => RestPromise(w, s0, s, a, now, e, l);
  }

  lemma FailureNewMatches(w: World, s0: State, s: State, step: Step)
    requires Fixed(s, Apply(w, s, step)) && Harmless(s, step) && !step.Advance? && NewMatches(w, s0, s.db)
    ensures NewMatches(w, s0, Apply(w, s, step).db)
  {
    assert Apply(w, s, step).db.matches == s.db.matches;
    NewMatchesStay(w, s0, s, Apply(w, s, step));
  }

  lemma FailureMatchWork(w: World, s0: State, s: State, step: Step)
    requires Base(s) && Fixed(s0, s) && Harmless(s, step) && !step.Advance? && MatchWork(w, s0, s)
    ensures MatchWork(w, s0, Apply(w, s, step))
  {
    assert Apply(w, s, step).jobs == s.jobs;
  }

  /** A delivery, a fetch error or a harmless crash finishes nothing and enqueues nothing. */
  lemma FailureShape(w: World, s: State, step: Step)
    requires Base(s) && Harmless(s, step) && !step.Advance?
    ensures var t, a := Apply(w, s, step), Subject(step);
            && t.db.findings == s.db.findings && t.done == s.done
            && (forall x :: AboutToEnqueueMatch(s, a, x) ==> AboutToEnqueueMatch(t, a, x))
            && (a in t.attempts && t.attempts[a].pc.Returned? ==> a in s.attempts && t.attempts[a] == s.attempts[a])
  {
  }

  lemma FailurePromise(w: World, s0: State, s: State, step: Step)
    requires Base(s) && Fixed(s, Apply(w, s, step)) && Harmless(s, step) && !step.Advance?
    requires MatchPromise(w, s0, s)
    ensures MatchPromise(w, s0, Apply(w, s, step))
  {
    var t := Apply(w, s, step);
    var a := Subject(step);
    StepBase(w, s, step);
    FailureShape(w, s, step);
    assert !Embedded(s.db, -1);
    KeepPromise(w, s0, s, t, a, -1);
  }

  ghost predicate Matches(w: World, s0: State, s: State) {
    NewMatches(w, s0, s.db) && MatchWork(w, s0, s) && MatchPromise(w, s0, s)
  }

  lemma StepMatches(w: World, s0: State, s: State, step: Step)
    requires Base(s) && AllSettled(s) && Fixed(s0, s) && Vectors(w, s0, s) && Matches(w, s0, s)
    requires Harmless(s, step) && Fixed(s, Apply(w, s, step))
    ensures Matches(w, s0, Apply(w, s, step))
  {
    if step.Advance? {
      var a := step.attempt;
      if a in s.attempts && s.attempts[a].job in s.jobs {
        AdvanceNewMatches(w, s0, s, a, step.now, step.showEtag, step.showLastModified);
        AdvanceMatchWork(w, s0, s, a, step.now, step.showEtag, step.showLastModified);
        AdvancePromise(w, s0, s, a, step.now, step.showEtag, step.showLastModified);
      }
    } else {
      FailureNewMatches(w, s0, s, step);
      FailureMatchWork(w, s0, s, step);
      FailurePromise(w, s0, s, step);
    }
  }
}
