/**
 No finding is forgotten: what is not yet embedded or matched still has a job or
 an attempt working towards it, unless an attempt died between a store write and
 the enqueue that follows it.
 */
module NoLostWork {
  import opened Wrappers
  import opened RadarTables
  import opened RadarReach
  import opened Crawler
  import opened RadarPipeline
  import opened PipelineBase
  import opened EmbedJobs

  /** Nothing is left to do for the embedding of this row. */
  predicate Settled(f: Finding) {
    f.embedding.Some? || EmbedText(f) == ""
  }

  /** Rows are only deleted, embedded, or created without an embedding. */
  ghost predicate RowsProgress(before: map<int, Finding>, next: int, after: map<int, Finding>) {
    forall x :: x in after ==>
      if x in before then after[x] == before[x] || (SameContent(before[x], after[x]) && after[x].embedding.Some?)
      else x >= next && after[x].embedding.None?
  }

  /** A worker's step inserts one finding, embeds one, or leaves the findings as they are. */
  lemma AdvanceFindings(w: World, s: State, a: int, now: int, e: bool, l: bool)
    requires a in s.attempts && s.attempts[a].job in s.jobs
    ensures var before := s.db.findings;
            var after := AdvanceAttempt(w, s, a, now, e, l).db.findings;
            var pc := s.attempts[a].pc;
            || after == before
            || (exists up :: after == before[s.db.nextFinding := NewFinding(up)])
            || (pc.Embedding? && pc.finding in before && after == before[pc.finding := before[pc.finding].(embedding := Some(pc.vec))])
  {
    var pc := s.attempts[a].pc;
    if pc.Upserting? {
      var ups := Upserts(w, pc.feed, pc.doc);
      if pc.next < |ups| { assert InsertFinding(s.db, ups[pc.next]).findings == s.db.findings || !Conflicts(s.db, ups[pc.next]); }
    }
  }

  lemma AdvanceRows(w: World, s: State, a: int, now: int, e: bool, l: bool)
    requires Base(s) && a in s.attempts && s.attempts[a].job in s.jobs
    ensures RowsProgress(s.db.findings, s.db.nextFinding, AdvanceAttempt(w, s, a, now, e, l).db.findings)
  {
    AdvanceFindings(w, s, a, now, e, l);
  }

  lemma StepRows(w: World, s: State, step: Step)
    requires Base(s)
    ensures RowsProgress(s.db.findings, s.db.nextFinding, Apply(w, s, step).db.findings)
  {
    match step
    case User(op) => UserOpKeeps(s.db, op);
    case Advance(a, now, e, l) =>
      if a in s.attempts && s.attempts[a].job in s.jobs { AdvanceRows(w, s, a, now, e, l); }
    case _ =>
  }

  lemma SettledStays(before: map<int, Finding>, next: int, after: map<int, Finding>, x: int)
    requires RowsProgress(before, next, after) && x < next
    requires x in before ==> Settled(before[x])
    ensures x in after ==> Settled(after[x])
  {
    if x in after && x in before {
      assert SameContent(before[x], after[x]);
    }
  }

  // --- Embedding ----------------------------------------------------------------------

  predicate JobSettled(db: Db, job: Job) {
    job.EmbedJob? && job.finding in db.findings ==> Settled(db.findings[job.finding])
  }

  predicate PcSettled(db: Db, job: Job, pc: Pc) {
    match pc
    case Returned => JobSettled(db, job)
    case EnqueuingMatch(x) => x in db.findings ==> db.findings[x].embedding.Some?
    case _ => true
  }

  ghost predicate AllSettled(s: State) {
    && (forall j :: j in s.done && j in s.jobs ==> JobSettled(s.db, s.jobs[j]))
    && (forall a :: a in s.attempts && s.attempts[a].job in s.jobs ==> PcSettled(s.db, s.jobs[s.attempts[a].job], s.attempts[a].pc))
  }

  lemma PcSettledStays(s: State, t: State, a: int, b: int)
    requires Base(s) && AllSettled(s) && StepFrame(s, t, a) && b in s.attempts
    requires RowsProgress(s.db.findings, s.db.nextFinding, t.db.findings)
    ensures PcSettled(t.db, s.jobs[s.attempts[b].job], s.attempts[b].pc)
  {
    assert AttemptOk(s, s.attempts[b]);
    var job := s.jobs[s.attempts[b].job];
    if job.EmbedJob? && s.attempts[b].pc.Returned? {
      SettledStays(s.db.findings, s.db.nextFinding, t.db.findings, job.finding);
    }
  }

  lemma SettledAfter(s: State, t: State, a: int)
    requires Base(s) && AllSettled(s) && StepFrame(s, t, a)
    requires RowsProgress(s.db.findings, s.db.nextFinding, t.db.findings)
    requires forall j :: j in t.done && j !in s.done ==> j in s.jobs && a in s.attempts && s.attempts[a] == Attempt(j, Returned)
    requires a in t.attempts && t.attempts[a].job in t.jobs ==> PcSettled(t.db, t.jobs[t.attempts[a].job], t.attempts[a].pc)
    ensures AllSettled(t)
  {
    forall j | j in t.done && j in t.jobs ensures JobSettled(t.db, t.jobs[j]) {
      if j !in s.done {
        PcSettledStays(s, t, a, a);
      } else {
        assert JobOk(s.db, s.jobs[j]);
        if s.jobs[j].EmbedJob? { SettledStays(s.db.findings, s.db.nextFinding, t.db.findings, s.jobs[j].finding); }
      }
    }
    forall b | b in t.attempts && t.attempts[b].job in t.jobs ensures PcSettled(t.db, t.jobs[t.attempts[b].job], t.attempts[b].pc) {
      if b != a { PcSettledStays(s, t, a, b); assert AttemptOk(s, s.attempts[b]); }
    }
  }

  lemma AdvanceSettled(w: World, s: State, a: int, now: int, e: bool, l: bool)
    requires Base(s) && AllSettled(s) && a in s.attempts && s.attempts[a].job in s.jobs
    ensures AllSettled(AdvanceAttempt(w, s, a, now, e, l))
  {
    AdvanceBase(w, s, a, now, e, l);
    AdvanceRows(w, s, a, now, e, l);
    AdvancedPcSettled(w, s, a, now, e, l);
    AdvanceDone(w, s, a, now, e, l);
    SettledAfter(s, AdvanceAttempt(w, s, a, now, e, l), a);
  }

  /** Only a worker that returned completes its job. */
  lemma AdvanceDone(w: World, s: State, a: int, now: int, e: bool, l: bool)
    requires a in s.attempts && s.attempts[a].job in s.jobs
    ensures var t := AdvanceAttempt(w, s, a, now, e, l);
            t.done == s.done || (s.attempts[a].pc.Returned? && t.done == s.done + {s.attempts[a].job})
  {
  }

  lemma AdvancedPcSettled(w: World, s: State, a: int, now: int, e: bool, l: bool)
    requires Base(s) && AllSettled(s) && a in s.attempts && s.attempts[a].job in s.jobs
    ensures var t := AdvanceAttempt(w, s, a, now, e, l);
            a in t.attempts && t.attempts[a].job in t.jobs ==> PcSettled(t.db, t.jobs[t.attempts[a].job], t.attempts[a].pc)
  {
    assert AttemptOk(s, s.attempts[a]);
    assert s.nextJob !in s.jobs;
  }

  lemma StepSettled(w: World, s: State, step: Step)
    requires Base(s) && AllSettled(s)
    ensures AllSettled(Apply(w, s, step))
  {
    var t := Apply(w, s, step);
    match step
    case Advance(a, now, e, l) =>
      if a in s.attempts && s.attempts[a].job in s.jobs { AdvanceSettled(w, s, a, now, e, l); }
    case User(op) =>
      StepBase(w, s, step);
      StepRows(w, s, step);
      if 0 in s.attempts { PcSettledStays(s, t, 0, 0); }
      SettledAfter(s, t, 0);
    case _ => OtherSettled(w, s, step);
  }

  lemma OtherSettled(w: World, s: State, step: Step)
    requires Base(s) && AllSettled(s) && !step.Advance? && !step.User?
    ensures AllSettled(Apply(w, s, step))
  {
    var t, a := Apply(w, s, step), Subject(step);
    StepBase(w, s, step);
    StepRows(w, s, step);
    if a in s.attempts { PcSettledStays(s, t, a, a); assert AttemptOk(s, s.attempts[a]); }
    OtherFinishesNothing(w, s, step);
    SettledAfter(s, t, a);
  }

  /** No job is completed, and no attempt but a fresh one moves. */
  lemma OtherFinishesNothing(w: World, s: State, step: Step)
    requires !step.Advance?
    ensures var t, a := Apply(w, s, step), Subject(step);
            t.done == s.done && (a in t.attempts ==> (a in s.attempts && t.attempts[a] == s.attempts[a]) || t.attempts[a].pc.Begin?)
  {
  }

  // --- Matching -----------------------------------------------------------------------

  predicate Embedded(db: Db, x: int) {
    x in db.findings && db.findings[x].embedding.Some?
  }

  /** A match job that will still run its match step. */
  ghost predicate LiveMatch(s: State, j: int, x: int) {
    && Pending(s, j) && s.jobs[j] == MatchJob(x)
    && forall a :: a in s.attempts && s.attempts[a].job == j ==> !s.attempts[a].pc.Returned?
  }

  predicate AboutToEnqueueMatch(s: State, a: int, x: int) {
    a in s.attempts && s.attempts[a].pc == EnqueuingMatch(x)
  }

  /** A match step for x is still to come. */
  ghost predicate Awaited(s: State, x: int) {
    (exists a :: AboutToEnqueueMatch(s, a, x)) || (exists j :: LiveMatch(s, j, x))
  }

  ghost predicate Covered(s: State, x: int) {
    x in s.matched || x in s.lostMatches || Awaited(s, x)
  }

  ghost predicate AllCovered(s: State) {
    forall x :: Embedded(s.db, x) ==> Covered(s, x)
  }

  /** A step that takes none of a finding's witnesses away leaves its match step to come. */
  lemma AwaitedStays(s: State, t: State, a: int, x: int)
    requires Base(s) && StepFrame(s, t, a) && Awaited(s, x)
    requires AboutToEnqueueMatch(s, a, x) ==> AboutToEnqueueMatch(t, a, x)
    requires a in t.attempts && t.attempts[a].pc.Returned? ==>
               a in s.attempts && t.attempts[a].job == s.attempts[a].job
               && (s.attempts[a].pc.Returned? || s.jobs[s.attempts[a].job] != MatchJob(x))
    requires forall j :: j in t.done && j !in s.done ==> a in s.attempts && s.attempts[a] == Attempt(j, Returned)
    ensures Awaited(t, x)
  {
    if b :| AboutToEnqueueMatch(s, b, x) {
      assert AboutToEnqueueMatch(t, b, x);
    } else {
      var j :| LiveMatch(s, j, x);
      assert LiveMatch(t, j, x);
    }
  }

  lemma CoveredStays(s: State, t: State, a: int, x: int)
    requires Base(s) && StepFrame(s, t, a) && Covered(s, x)
    requires x in s.matched ==> x in t.matched
    requires s.lostMatches <= t.lostMatches
    requires AboutToEnqueueMatch(s, a, x) ==> AboutToEnqueueMatch(t, a, x)
    requires a in t.attempts && t.attempts[a].pc.Returned? ==>
               a in s.attempts && t.attempts[a].job == s.attempts[a].job
               && (s.attempts[a].pc.Returned? || s.jobs[s.attempts[a].job] != MatchJob(x))
    requires forall j :: j in t.done && j !in s.done ==> a in s.attempts && s.attempts[a] == Attempt(j, Returned)
    ensures Covered(t, x)
  {
    if Awaited(s, x) { AwaitedStays(s, t, a, x); }
  }

  lemma BeginMatchCovered(w: World, s: State, a: int, x: int)
    requires Base(s) && AllCovered(s) && a in s.attempts && s.attempts[a].job in s.jobs
    requires s.attempts[a].pc.Begin? && s.jobs[s.attempts[a].job] == MatchJob(x)
    ensures AllCovered(BeginMatch(w, s, a, x))
  {
    var t := BeginMatch(w, s, a, x);
    BeginBase(w, s, a, 0, false, false);
    forall y | Embedded(t.db, y) ensures Covered(t, y) {
      assert Embedded(s.db, y);
      if y != x { CoveredStays(s, t, a, y); }
    }
  }

  lemma EnqueueMatchCovered(w: World, s: State, a: int, now: int, e: bool, l: bool)
    requires Base(s) && AllCovered(s) && a in s.attempts && s.attempts[a].job in s.jobs && s.attempts[a].pc.EnqueuingMatch?
    ensures AllCovered(AdvanceAttempt(w, s, a, now, e, l))
  {
    var t := AdvanceAttempt(w, s, a, now, e, l);
    var x := s.attempts[a].pc.finding;
    EnqueueBase(w, s, a, now, e, l);
    assert AttemptOk(s, s.attempts[a]);
    assert forall b :: b in s.attempts ==> AttemptOk(s, s.attempts[b]);
    assert s.nextJob !in s.jobs && s.nextJob !in s.done;
    assert LiveMatch(t, s.nextJob, x);
    forall y | Embedded(t.db, y) ensures Covered(t, y) {
      assert Embedded(s.db, y);
      if y != x { CoveredStays(s, t, a, y); }
    }
  }

  lemma WriteCovered(w: World, s: State, a: int, now: int, e: bool, l: bool)
    requires Base(s) && AllCovered(s) && a in s.attempts && s.attempts[a].job in s.jobs && s.attempts[a].pc.Embedding?
    ensures AllCovered(AdvanceAttempt(w, s, a, now, e, l))
  {
    var t := AdvanceAttempt(w, s, a, now, e, l);
    var x := s.attempts[a].pc.finding;
    EmbeddingBase(w, s, a, now, e, l);
    forall y | Embedded(t.db, y) ensures Covered(t, y) {
      if y == x && x in s.db.findings {
        assert AboutToEnqueueMatch(t, a, x);
      } else {
        assert Embedded(s.db, y);
        CoveredStays(s, t, a, y);
      }
    }
  }

  /** Steps that neither match, embed nor enqueue a match. */
  lemma OtherCovered(s: State, t: State, a: int)
    requires Base(s) && AllCovered(s) && StepFrame(s, t, a)
    requires t.matched == s.matched && t.lostMatches == s.lostMatches
    requires forall x :: Embedded(t.db, x) ==> Embedded(s.db, x)
    requires a in s.attempts && s.attempts[a].pc.EnqueuingMatch? ==> a in t.attempts && t.attempts[a] == s.attempts[a]
    requires a in t.attempts && t.attempts[a].pc.Returned? ==>
               a in s.attempts && t.attempts[a].job == s.attempts[a].job && s.attempts[a].job in s.jobs
               && (s.attempts[a].pc.Returned? || !s.jobs[s.attempts[a].job].MatchJob?)
    requires forall j :: j in t.done && j !in s.done ==> a in s.attempts && s.attempts[a] == Attempt(j, Returned)
    ensures AllCovered(t)
  {
    forall x | Embedded(t.db, x) ensures Covered(t, x) {
      assert Embedded(s.db, x);
      CoveredStays(s, t, a, x);
    }
  }

  lemma RestCovered(w: World, s: State, a: int, now: int, e: bool, l: bool)
    requires Base(s) && AllCovered(s) && a in s.attempts && s.attempts[a].job in s.jobs
    requires !s.attempts[a].pc.Embedding? && !s.attempts[a].pc.EnqueuingMatch?
    requires s.attempts[a].pc.Begin? ==> !s.jobs[s.attempts[a].job].MatchJob?
    ensures AllCovered(AdvanceAttempt(w, s, a, now, e, l))
  {
    AdvanceBase(w, s, a, now, e, l);
    AdvanceRows(w, s, a, now, e, l);
    AdvanceFindings(w, s, a, now, e, l);
    AdvanceDone(w, s, a, now, e, l);
    RestQuiet(w, s, a, now, e, l);
    OtherCovered(s, AdvanceAttempt(w, s, a, now, e, l), a);
  }

  lemma RestQuiet(w: World, s: State, a: int, now: int, e: bool, l: bool)
    requires a in s.attempts && s.attempts[a].job in s.jobs && AttemptOk(s, s.attempts[a])
    requires !s.attempts[a].pc.Embedding? && !s.attempts[a].pc.EnqueuingMatch?
    requires s.attempts[a].pc.Begin? ==> !s.jobs[s.attempts[a].job].MatchJob?
    ensures var t := AdvanceAttempt(w, s, a, now, e, l);
            && t.matched == s.matched && t.lostMatches == s.lostMatches
            && (a in t.attempts && t.attempts[a].pc.Returned? ==>
                  t.attempts[a].job == s.attempts[a].job && !s.jobs[s.attempts[a].job].MatchJob?)
  {
    match s.attempts[a].pc
    case Upserting(_, _, _) => UpsertQuiet(w, s, a, now);
    case Fetching(_, _, _, _) => assert Fetch(w, s, a, s.attempts[a].pc, e, l).matched == s.matched;
    case _ =>
  }

  lemma UpsertQuiet(w: World, s: State, a: int, now: int)
    requires a in s.attempts && s.attempts[a].pc.Upserting?
    ensures var t := Upsert(w, s, a, s.attempts[a].pc, now);
            && t.matched == s.matched && t.lostMatches == s.lostMatches
            && (a in t.attempts ==> t.attempts[a].job == s.attempts[a].job)
  {
  }

  lemma AdvanceCovered(w: World, s: State, a: int, now: int, e: bool, l: bool)
    requires Base(s) && AllCovered(s) && a in s.attempts && s.attempts[a].job in s.jobs
    ensures AllCovered(AdvanceAttempt(w, s, a, now, e, l))
  {
    var job := s.jobs[s.attempts[a].job];
    match s.attempts[a].pc
    case Embedding(_, _) => WriteCovered(w, s, a, now, e, l);
    case EnqueuingMatch(_) => EnqueueMatchCovered(w, s, a, now, e, l);
    case Begin =>
      if job.MatchJob? { BeginMatchCovered(w, s, a, job.finding); } else { RestCovered(w, s, a, now, e, l); }
    case _ => RestCovered(w, s, a, now, e, l);
  }

  lemma CrashLoses(w: World, s: State, a: int, x: int)
    requires AboutToEnqueueMatch(s, a, x)
    ensures x in Apply(w, s, Crash(a)).lostMatches
  {
  }

  lemma CrashCovered(w: World, s: State, a: int)
    requires Base(s) && AllCovered(s)
    ensures AllCovered(Apply(w, s, Crash(a)))
  {
    var t := Apply(w, s, Crash(a));
    CrashBase(w, s, a);
    CrashShape(w, s, a);
    forall x | Embedded(t.db, x) ensures Covered(t, x) {
      if AboutToEnqueueMatch(s, a, x) { CrashLoses(w, s, a, x); } else { CoveredStays(s, t, a, x); }
    }
  }

  lemma UserCovered(w: World, s: State, op: UserOp)
    requires Base(s) && AllCovered(s)
    ensures AllCovered(Apply(w, s, User(op)))
  {
    UserBase(w, s, op);
    UserOpKeeps(s.db, op);
    if 0 in s.attempts { assert AttemptOk(s, s.attempts[0]); }
    OtherCovered(s, Apply(w, s, User(op)), 0);
  }

  lemma StepCovered(w: World, s: State, step: Step)
    requires Base(s) && AllCovered(s)
    ensures AllCovered(Apply(w, s, step))
  {
    match step
    case Advance(a, now, e, l) =>
      if a in s.attempts && s.attempts[a].job in s.jobs { AdvanceCovered(w, s, a, now, e, l); }
    case Crash(a) => CrashCovered(w, s, a);
    case User(op) => UserCovered(w, s, op);
    case _ =>
      StepBase(w, s, step);
      if Subject(step) in s.attempts { assert AttemptOk(s, s.attempts[Subject(step)]); }
      OtherCovered(s, Apply(w, s, step), Subject(step));
  }

  // --- Runs ---------------------------------------------------------------------------

  ghost predicate Accounted(s: State) {
    Base(s) && OneOwner(s) && AllSettled(s) && AllCovered(s)
  }

  lemma {:induction false} RunAccounted(w: World, s: State, steps: seq<Step>)
    requires Accounted(s)
    ensures Accounted(Run(w, s, steps))
    decreases |steps|
  {
    if steps != [] {
      StepBase(w, s, steps[0]);
      StepOwner(w, s, steps[0]);
      StepSettled(w, s, steps[0]);
      StepCovered(w, s, steps[0]);
      RunAccounted(w, Apply(w, s, steps[0]), steps[1..]);
    }
  }

  ghost predicate HasPending(s: State, job: Job) {
    exists j :: Pending(s, j) && s.jobs[j] == job
  }

  /**
   In every state of every run, a finding with something to embed is embedded, or has an
   unfinished embed job, or is being enqueued right now, or was lost to a crash; the
   unfinished job exists exactly when the finding was not lost.
   */
  lemma UnembeddedHasWork(w: World, steps: seq<Step>, x: int)
    ensures var s := Run(w, START, steps);
            x in s.db.findings && !Settled(s.db.findings[x]) ==>
              (HasPending(s, EmbedJob(x)) || InFlight(s, x) <==> x !in s.lostEmbeds)
  {
    RunAccounted(w, START, steps);
    var s := Run(w, START, steps);
    if x in s.db.findings && !Settled(s.db.findings[x]) {
      assert HasOwner(s, x);
      var o :| Owns(s, o, x);
      OneJobPerOwner(s, x, o);
      if o.ViaJob? {
        assert Pending(s, o.job) && s.jobs[o.job] == EmbedJob(x);
      }
      if j :| Pending(s, j) && s.jobs[j] == EmbedJob(x) {
        assert Owns(s, ViaJob(j), x);
      }
    }
  }

  /** An embedded finding went through a match step since, or one is still to come, or was lost to a crash. */
  lemma EmbeddedIsOrWillBeMatched(w: World, steps: seq<Step>, x: int)
    ensures var s := Run(w, START, steps);
            Embedded(s.db, x) ==>
              || x in s.matched || x in s.lostMatches
              || HasPending(s, MatchJob(x)) || (exists a :: AboutToEnqueueMatch(s, a, x))
  {
    RunAccounted(w, START, steps);
    var s := Run(w, START, steps);
    if Embedded(s.db, x) {
      assert Covered(s, x);
      if j :| LiveMatch(s, j, x) { assert Pending(s, j); }
    }
  }

  ghost predicate Drained(s: State) {
    s.attempts == map[] && forall j :: j in s.jobs ==> j in s.done
  }

  /**
   However attempts fail and are retried, as long as none dies between a store write and its enqueue:
   with nothing left in the queue, everything is embedded and matched.
   */
  lemma DrainedMeansDone(w: World, steps: seq<Step>, x: int)
    requires NothingStranded(w, START, steps)
    ensures var s := Run(w, START, steps);
            Drained(s) && x in s.db.findings ==>
              Settled(s.db.findings[x]) && (Embedded(s.db, x) ==> x in s.matched)
  {
    NothingStrandedNothingLost(w, START, steps);
    UnembeddedHasWork(w, steps, x);
    EmbeddedIsOrWillBeMatched(w, steps, x);
  }

  // --- Without the assumption ---------------------------------------------------------

  /** Only an embed job ever writes an embedding. */
  ghost predicate EmbeddedHasJob(s: State) {
    forall x :: Embedded(s.db, x) ==> exists j :: Owns(s, ViaJob(j), x)
  }

  lemma EmbeddedHasJobStays(s: State, t: State, a: int)
    requires EmbeddedHasJob(s) && StepFrame(s, t, a)
    requires forall x :: Embedded(t.db, x) ==> Embedded(s.db, x) || exists j :: Owns(s, ViaJob(j), x)
    ensures EmbeddedHasJob(t)
  {
    forall x | Embedded(t.db, x) ensures exists j :: Owns(t, ViaJob(j), x) {
      var j :| Owns(s, ViaJob(j), x);
      assert Owns(t, ViaJob(j), x);
    }
  }

  lemma AdvanceEmbeddedHasJob(w: World, s: State, a: int, now: int, e: bool, l: bool)
    requires Base(s) && EmbeddedHasJob(s) && a in s.attempts && s.attempts[a].job in s.jobs
    ensures EmbeddedHasJob(AdvanceAttempt(w, s, a, now, e, l))
  {
    AdvanceBase(w, s, a, now, e, l);
    AdvanceFindings(w, s, a, now, e, l);
    if s.attempts[a].pc.Embedding? {
      assert AttemptOk(s, s.attempts[a]);
      assert Owns(s, ViaJob(s.attempts[a].job), s.attempts[a].pc.finding);
    }
    EmbeddedHasJobStays(s, AdvanceAttempt(w, s, a, now, e, l), a);
  }

  /** Only workers write embeddings. */
  lemma OthersEmbedNothing(w: World, s: State, step: Step, x: int)
    requires Base(s) && !step.Advance? && Embedded(Apply(w, s, step).db, x)
    ensures Embedded(s.db, x)
  {
    match step
    case User(op) => UserOpKeeps(s.db, op);
    case _ =>
  }

  lemma OtherEmbeddedHasJob(w: World, s: State, step: Step)
    requires Base(s) && EmbeddedHasJob(s) && !step.Advance?
    ensures EmbeddedHasJob(Apply(w, s, step))
  {
    var t := Apply(w, s, step);
    StepBase(w, s, step);
    forall x | Embedded(t.db, x) ensures Embedded(s.db, x) { OthersEmbedNothing(w, s, step, x); }
    EmbeddedHasJobStays(s, t, Subject(step));
  }

  lemma StepEmbeddedHasJob(w: World, s: State, step: Step)
    requires Base(s) && EmbeddedHasJob(s)
    ensures EmbeddedHasJob(Apply(w, s, step))
  {
    match step
    case Advance(a, now, e, l) =>
      if a in s.attempts && s.attempts[a].job in s.jobs { AdvanceEmbeddedHasJob(w, s, a, now, e, l); }
    case _ => OtherEmbeddedHasJob(w, s, step);
  }

  lemma LostEmbedsGrow(w: World, s: State, step: Step)
    ensures s.lostEmbeds <= Apply(w, s, step).lostEmbeds
  {
  }

  lemma {:induction false} RunEmbeddedHasJob(w: World, s: State, steps: seq<Step>)
    requires Base(s) && OneOwner(s) && EmbeddedHasJob(s)
    ensures var t := Run(w, s, steps); Base(t) && OneOwner(t) && EmbeddedHasJob(t) && s.lostEmbeds <= t.lostEmbeds
    decreases |steps|
  {
    if steps != [] {
      StepBase(w, s, steps[0]);
      StepOwner(w, s, steps[0]);
      StepEmbeddedHasJob(w, s, steps[0]);
      LostEmbedsGrow(w, s, steps[0]);
      RunEmbeddedHasJob(w, Apply(w, s, steps[0]), steps[1..]);
    }
  }

  /** A finding lost between insert and enqueue is never embedded again, whatever is retried later. */
  lemma LostIsForever(w: World, steps: seq<Step>, more: seq<Step>, x: int)
    requires x in Run(w, START, steps).lostEmbeds
    ensures !Embedded(Run(w, START, steps + more).db, x)
    ensures !HasPending(Run(w, START, steps + more), EmbedJob(x))
  {
    var s := Run(w, START, steps);
    var t := Run(w, START, steps + more);
    RunAppend(w, START, steps, more);
    RunEmbeddedHasJob(w, START, steps);
    RunEmbeddedHasJob(w, s, more);
    assert Owns(t, Lost, x);
    forall j ensures !Owns(t, ViaJob(j), x) {
    }
    if j :| Pending(t, j) && t.jobs[j] == EmbedJob(x) {
      assert Owns(t, ViaJob(j), x);
    }
  }

  lemma RunOne(w: World, s: State, steps: seq<Step>)
    requires steps != []
    ensures Run(w, s, steps) == Run(w, Apply(w, s, steps[0]), steps[1..])
  {
  }

  lemma CrashSetup(w: World, url: string, doc: Doc)
    ensures var first := [Publish(url, doc), User(OpAddFeed(url, None, 3600)), Schedule(0), Deliver(7, 0)];
            Run(w, START, first) == Apply(w, Apply(w, Apply(w, Apply(w, START, first[0]), first[1]), first[2]), first[3])
  {
    var first := [Publish(url, doc), User(OpAddFeed(url, None, 3600)), Schedule(0), Deliver(7, 0)];
    var s1 := Apply(w, START, first[0]);
    var s2 := Apply(w, s1, first[1]);
    var s3 := Apply(w, s2, first[2]);
    RunOne(w, START, first); RunOne(w, s1, first[1..]); RunOne(w, s2, first[2..]); RunOne(w, s3, first[3..]);
    assert first[1..][1..] == first[2..] && first[2..][1..] == first[3..] && first[3..][1..] == [];
  }

  /** The fresh feed's first crawl up to the insert of its first entry. */
  lemma CrawlReachesEnqueue(w: World, s: State, url: string, doc: Doc)
    requires 0 in s.db.feeds && s.db.feeds[0].url == url && s.db.feeds[0].etag == None && s.db.feeds[0].lastModified == None
    requires s.db.findings == map[] && s.db.nextFinding == 0
    requires |Upserts(w, 0, doc)| >= 1 && !w.notModified(url, "", "", doc) && url in s.docs && s.docs[url] == doc
    requires 7 in s.attempts && s.attempts[7] == Attempt(0, Begin) && 0 in s.jobs && s.jobs[0] == CrawlJob(0)
    ensures var t := Run(w, s, [Advance(7, 0, true, true), Advance(7, 0, true, true), Advance(7, 0, true, true)]);
            && 7 in t.attempts && t.attempts[7] == Attempt(0, EnqueuingEmbed(0, doc, 0, 0))
            && t.db.findings == map[0 := NewFinding(Upserts(w, 0, doc)[0])]
            && t.jobs == s.jobs && t.nextJob == s.nextJob && t.done == s.done && t.matched == s.matched
            && t.attempts.Keys == s.attempts.Keys
  {
    var rest := [Advance(7, 0, true, true), Advance(7, 0, true, true), Advance(7, 0, true, true)];
    var s1 := Apply(w, s, Advance(7, 0, true, true));
    assert s1 == Goto(s, 7, Fetching(0, url, "", ""));
    var s2 := Apply(w, s1, Advance(7, 0, true, true));
    assert s2.attempts[7].pc == Upserting(0, doc, 0);
    var s3 := Apply(w, s2, Advance(7, 0, true, true));
    assert s3.attempts[7].pc == EnqueuingEmbed(0, doc, 0, 0);
    RunOne(w, s, rest); RunOne(w, s1, rest[1..]); RunOne(w, s2, rest[2..]);
    assert rest[1..][1..] == rest[2..] && rest[2..][1..] == [];
  }

  /** Any served document gets its first entry inserted, its embed job not yet enqueued. */
  lemma FirstInsert(w: World, url: string, doc: Doc) returns (steps: seq<Step>)
    requires |Upserts(w, 0, doc)| >= 1 && w.serves(url, doc) && !w.notModified(url, "", "", doc)
    ensures var t := Run(w, START, steps);
            && t.attempts == map[7 := Attempt(0, EnqueuingEmbed(0, doc, 0, 0))]
            && t.db.findings == map[0 := NewFinding(Upserts(w, 0, doc)[0])]
            && t.jobs == map[0 := CrawlJob(0)] && t.nextJob == 1 && t.done == {} && t.matched == {}
  {
    var s1 := Apply(w, START, Publish(url, doc));
    var s2 := Apply(w, s1, User(OpAddFeed(url, None, 3600)));
    var s3 := Apply(w, s2, Schedule(0));
    var s4 := Apply(w, s3, Deliver(7, 0));
    assert 0 in s2.db.feeds && s2.db.feeds[0].url == url && s2.db.feeds[0].etag == None;
    assert s4.attempts == map[7 := Attempt(0, Begin)] && s4.jobs == map[0 := CrawlJob(0)];
    CrashSetup(w, url, doc);
    CrawlReachesEnqueue(w, s4, url, doc);
    var toInsert := [Advance(7, 0, true, true), Advance(7, 0, true, true), Advance(7, 0, true, true)];
    var first := [Publish(url, doc), User(OpAddFeed(url, None, 3600)), Schedule(0), Deliver(7, 0)];
    RunAppend(w, START, first, toInsert);
    steps := first + toInsert;
  }

  /** The assumption is needed: one crash between insert and enqueue loses the first entry of any document for good. */
  lemma CrashLosesWork(w: World, url: string, doc: Doc)
    requires |Upserts(w, 0, doc)| >= 1 && w.serves(url, doc) && !w.notModified(url, "", "", doc)
    ensures exists steps :: 0 in Run(w, START, steps).lostEmbeds
  {
    var steps := FirstInsert(w, url, doc);
    RunAppend(w, START, steps, [Crash(7)]);
    RunOne(w, Run(w, START, steps), [Crash(7)]);
    assert 0 in Run(w, START, steps + [Crash(7)]).lostEmbeds;
  }
}
