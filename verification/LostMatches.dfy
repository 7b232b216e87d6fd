/**
 The other half of lost work: when an embedded finding can still be matched.  A
 retry after a failed enqueue returns at the embedding guard, so the match job it
 skipped is never inserted.
 */
module LostMatches {
  import opened Wrappers
  import opened RadarTables
  import opened RadarReach
  import opened Crawler
  import opened RadarPipeline
  import opened PipelineBase
  import opened EmbedJobs
  import opened NoLostWork

  /** An attempt whose next steps lead to a match step for x. */
  predicate LeadsToMatch(s: State, a: int, x: int) {
    a in s.attempts &&
    match s.attempts[a].pc
    case Begin => s.attempts[a].job in s.jobs && s.jobs[s.attempts[a].job] == MatchJob(x)
    case Embedding(y, _) => y == x
    case EnqueuingMatch(y) => y == x
    case _ => false
  }

  /** A match step was taken since the embedding was written, or its job is pending, or an attempt is on the way to it. */
  ghost predicate MatchAhead(s: State, x: int) {
    x in s.matched || HasPending(s, MatchJob(x)) || exists a :: LeadsToMatch(s, a, x)
  }

  ghost predicate CanBeMatched(w: World, s: State, x: int) {
    exists steps :: x in Run(w, s, steps).matched
  }

  // --- Without any of these it is over --------------------------------------------------

  ghost predicate Stranded(s: State, x: int) {
    x < s.db.nextFinding && (x in s.db.findings ==> Embedded(s.db, x)) && !MatchAhead(s, x)
  }

  /** No step takes up a stranded finding: a new attempt finds no job of it, and an embed attempt stops at the guard. */
  lemma StrandedStays(s: State, t: State, a: int, x: int)
    requires Stranded(s, x) && StepFrame(s, t, a)
    requires x in t.db.findings ==> Embedded(t.db, x)
    requires x !in t.matched
    requires forall j :: j in t.jobs && j !in s.jobs ==> t.jobs[j] != MatchJob(x)
    requires !LeadsToMatch(t, a, x)
    ensures Stranded(t, x)
  {
    forall j ensures !(Pending(t, j) && t.jobs[j] == MatchJob(x)) {
      if j in s.jobs { assert !(Pending(s, j) && s.jobs[j] == MatchJob(x)); }
    }
    forall b ensures !LeadsToMatch(t, b, x) {
      assert !LeadsToMatch(s, b, x);
    }
  }

  lemma BeginLeadsNowhere(w: World, s: State, a: int, now: int, e: bool, l: bool, x: int)
    requires Stranded(s, x) && a in s.attempts && s.attempts[a].job in s.jobs && s.attempts[a].pc.Begin?
    ensures var t := AdvanceAttempt(w, s, a, now, e, l);
            x !in t.matched && t.jobs == s.jobs && !LeadsToMatch(t, a, x)
  {
    assert !LeadsToMatch(s, a, x);
    match s.jobs[s.attempts[a].job]
    case CrawlJob(feed) => assert BeginCrawl(s, a, feed).matched == s.matched;
    case EmbedJob(y) => assert BeginEmbed(w, s, a, y).matched == s.matched;
    case MatchJob(y) => assert y != x;
  }

  lemma CrawlLeadsNowhere(w: World, s: State, a: int, now: int, e: bool, l: bool, x: int)
    requires Stranded(s, x) && a in s.attempts && s.attempts[a].job in s.jobs
    requires s.attempts[a].pc.Fetching? || s.attempts[a].pc.Upserting?
    ensures var t := AdvanceAttempt(w, s, a, now, e, l);
            x !in t.matched && t.jobs == s.jobs && !LeadsToMatch(t, a, x)
  {
    var pc := s.attempts[a].pc;
    if pc.Fetching? {
      assert Fetch(w, s, a, pc, e, l).matched == s.matched;
    } else {
      assert Upsert(w, s, a, pc, now).matched == s.matched;
    }
  }

  /** What the attempt that moves does not do for a stranded finding. */
  lemma AdvanceLeadsNowhere(w: World, s: State, a: int, now: int, e: bool, l: bool, x: int)
    requires Base(s) && Stranded(s, x) && a in s.attempts && s.attempts[a].job in s.jobs
    ensures var t := AdvanceAttempt(w, s, a, now, e, l);
            && x !in t.matched && !LeadsToMatch(t, a, x)
            && forall j :: j in t.jobs && j !in s.jobs ==> t.jobs[j] != MatchJob(x)
  {
    assert !LeadsToMatch(s, a, x);
    match s.attempts[a].pc
    case Begin => BeginLeadsNowhere(w, s, a, now, e, l, x);
    case Fetching(_, _, _, _) => CrawlLeadsNowhere(w, s, a, now, e, l, x);
    case Upserting(_, _, _) => CrawlLeadsNowhere(w, s, a, now, e, l, x);
    case _ =>
  }

  lemma AdvanceStranded(w: World, s: State, a: int, now: int, e: bool, l: bool, x: int)
    requires Base(s) && Stranded(s, x) && a in s.attempts && s.attempts[a].job in s.jobs
    ensures Stranded(AdvanceAttempt(w, s, a, now, e, l), x)
  {
    AdvanceBase(w, s, a, now, e, l);
    AdvanceEmbedded(w, s, a, now, e, l, x);
    AdvanceLeadsNowhere(w, s, a, now, e, l, x);
    StrandedStays(s, AdvanceAttempt(w, s, a, now, e, l), a, x);
  }

  lemma AdvanceEmbedded(w: World, s: State, a: int, now: int, e: bool, l: bool, x: int)
    requires Base(s) && Stranded(s, x) && a in s.attempts && s.attempts[a].job in s.jobs
    ensures var t := AdvanceAttempt(w, s, a, now, e, l); x in t.db.findings ==> Embedded(t.db, x)
  {
    AdvanceRows(w, s, a, now, e, l);
  }

  lemma StepStranded(w: World, s: State, step: Step, x: int)
    requires Base(s) && Stranded(s, x)
    ensures Stranded(Apply(w, s, step), x)
  {
    match step
    case Advance(a, now, e, l) =>
      if a in s.attempts && s.attempts[a].job in s.jobs { AdvanceStranded(w, s, a, now, e, l, x); }
    case _ =>
      var t, a := Apply(w, s, step), Subject(step);
      StepBase(w, s, step);
      StepRows(w, s, step);
      OtherLeadsNowhere(w, s, step, x);
      StrandedStays(s, t, a, x);
  }

  lemma OtherLeadsNowhere(w: World, s: State, step: Step, x: int)
    requires Stranded(s, x) && !step.Advance?
    ensures var t := Apply(w, s, step);
            && x !in t.matched && !LeadsToMatch(t, Subject(step), x)
            && forall j :: j in t.jobs && j !in s.jobs ==> t.jobs[j] != MatchJob(x)
  {
    assert !LeadsToMatch(s, Subject(step), x);
    if step.Deliver? && Pending(s, step.job) { assert s.jobs[step.job] != MatchJob(x); }
  }

  lemma {:induction false} RunStranded(w: World, s: State, steps: seq<Step>, x: int)
    requires Base(s) && Stranded(s, x)
    ensures Stranded(Run(w, s, steps), x)
    decreases |steps|
  {
    if steps != [] {
      StepBase(w, s, steps[0]);
      StepStranded(w, s, steps[0], x);
      RunStranded(w, Apply(w, s, steps[0]), steps[1..], x);
    }
  }

  // --- With one of them it can be done -----------------------------------------------------

  lemma AdvanceOnce(w: World, s: State, a: int)
    requires a in s.attempts && s.attempts[a].job in s.jobs
    ensures Run(w, s, [Advance(a, 0, true, true)]) == AdvanceAttempt(w, s, a, 0, true, true)
  {
    RunOne(w, s, [Advance(a, 0, true, true)]);
  }

  lemma MatchNow(w: World, s: State, a: int, x: int)
    requires Embedded(s.db, x) && a in s.attempts && s.attempts[a].pc.Begin?
    requires s.attempts[a].job in s.jobs && s.jobs[s.attempts[a].job] == MatchJob(x)
    ensures x in Run(w, s, [Advance(a, 0, true, true)]).matched
  {
    AdvanceOnce(w, s, a);
  }

  /** Some id no attempt has. */
  lemma {:induction false} FreshId(ids: set<int>) returns (bound: int)
    ensures forall a :: a in ids ==> a < bound
    decreases |ids|
  {
    if ids == {} {
      return 0;
    }
    var a: int := Pick(ids);
    var rest := FreshId(ids - {a});
    bound := if a < rest then rest else a + 1;
    assert forall b :: b in ids && b != a ==> b in ids - {a};
  }

  lemma MatchPending(w: World, s: State, j: int, x: int) returns (steps: seq<Step>)
    requires Embedded(s.db, x) && Pending(s, j) && s.jobs[j] == MatchJob(x)
    ensures x in Run(w, s, steps).matched
  {
    var a := FreshId(s.attempts.Keys);
    assert a !in s.attempts.Keys;
    var t := Apply(w, s, Deliver(a, j));
    RunOne(w, s, [Deliver(a, j)]);
    MatchNow(w, t, a, x);
    RunAppend(w, s, [Deliver(a, j)], [Advance(a, 0, true, true)]);
    steps := [Deliver(a, j)] + [Advance(a, 0, true, true)];
  }

  lemma MatchEnqueued(w: World, s: State, a: int, x: int) returns (steps: seq<Step>)
    requires Base(s) && Embedded(s.db, x) && a in s.attempts && s.attempts[a].pc == EnqueuingMatch(x)
    ensures x in Run(w, s, steps).matched
  {
    assert AttemptOk(s, s.attempts[a]);
    AdvanceOnce(w, s, a);
    var t := Run(w, s, [Advance(a, 0, true, true)]);
    assert s.nextJob !in s.jobs && s.nextJob !in s.done;
    assert Pending(t, s.nextJob) && t.jobs[s.nextJob] == MatchJob(x);
    var rest := MatchPending(w, t, s.nextJob, x);
    RunAppend(w, s, [Advance(a, 0, true, true)], rest);
    steps := [Advance(a, 0, true, true)] + rest;
  }

  lemma MatchWritten(w: World, s: State, a: int, x: int) returns (steps: seq<Step>)
    requires Base(s) && Embedded(s.db, x) && a in s.attempts && s.attempts[a].pc.Embedding? && s.attempts[a].pc.finding == x
    ensures x in Run(w, s, steps).matched
  {
    assert AttemptOk(s, s.attempts[a]);
    AdvanceOnce(w, s, a);
    EmbeddingBase(w, s, a, 0, true, true);
    var rest := MatchEnqueued(w, Run(w, s, [Advance(a, 0, true, true)]), a, x);
    RunAppend(w, s, [Advance(a, 0, true, true)], rest);
    steps := [Advance(a, 0, true, true)] + rest;
  }

  lemma MatchAheadHappens(w: World, s: State, x: int) returns (steps: seq<Step>)
    requires Base(s) && Embedded(s.db, x) && MatchAhead(s, x)
    ensures x in Run(w, s, steps).matched
  {
    if x in s.matched {
      steps := [];
    } else if HasPending(s, MatchJob(x)) {
      var j :| Pending(s, j) && s.jobs[j] == MatchJob(x);
      steps := MatchPending(w, s, j, x);
    } else {
      var a :| LeadsToMatch(s, a, x);
      match s.attempts[a].pc {
        case Begin => MatchNow(w, s, a, x); steps := [Advance(a, 0, true, true)];
        case Embedding(_, _) => steps := MatchWritten(w, s, a, x);
        case EnqueuingMatch(_) => steps := MatchEnqueued(w, s, a, x);
      }
    }
  }

  /**
   In every reachable state an embedded finding can still go through a match step if and only if it
   did since its embedding was written, or its match job is pending, or an attempt is on the way to one;
   and only an attempt that died before its enqueue can have brought it to where none of these holds.
   */
  lemma MatchedIfAhead(w: World, prefix: seq<Step>, x: int)
    ensures var s := Run(w, START, prefix);
            Embedded(s.db, x) ==>
              && (CanBeMatched(w, s, x) <==> MatchAhead(s, x))
              && (x !in s.lostMatches ==> MatchAhead(s, x))
  {
    RunAccounted(w, START, prefix);
    var s := Run(w, START, prefix);
    if Embedded(s.db, x) {
      NotLostIsAhead(s, x);
      if MatchAhead(s, x) {
        var steps := MatchAheadHappens(w, s, x);
      } else {
        forall steps ensures x !in Run(w, s, steps).matched {
          RunStranded(w, s, steps, x);
        }
      }
    }
  }

  lemma NotLostIsAhead(s: State, x: int)
    requires AllCovered(s) && Embedded(s.db, x)
    ensures x !in s.lostMatches ==> MatchAhead(s, x)
  {
    assert Covered(s, x);
    if x !in s.matched && x !in s.lostMatches {
      if j :| LiveMatch(s, j, x) {
        assert Pending(s, j);
      } else {
        var a :| AboutToEnqueueMatch(s, a, x);
        assert LeadsToMatch(s, a, x);
      }
    }
  }

  // --- It does happen -------------------------------------------------------------------------

  const EMBED_AND_DIE := [Advance(7, 0, true, true), Deliver(8, 1), Advance(8, 0, true, true), Advance(8, 0, true, true), Crash(8)]

  lemma EmbedAndDie(w: World, s: State, doc: Doc)
    requires s.attempts == map[7 := Attempt(0, EnqueuingEmbed(0, doc, 0, 0))]
    requires 0 in s.db.findings && s.db.findings[0].embedding == None && EmbedText(s.db.findings[0]) != ""
    requires s.jobs == map[0 := CrawlJob(0)] && s.nextJob == 1 && s.done == {} && s.matched == {}
    ensures var t := Run(w, s, EMBED_AND_DIE);
            && Embedded(t.db, 0) && t.jobs == map[0 := CrawlJob(0), 1 := EmbedJob(0)] && t.done == {} && t.matched == {}
            && t.attempts == map[7 := Attempt(0, Upserting(0, doc, 1))]
  {
    var steps := EMBED_AND_DIE;
    var s2 := Apply(w, Apply(w, s, steps[0]), steps[1]);
    EnqueueAndDeliver(w, s, doc);
    EmbedAndWrite(w, s2, doc);
    RunFive(w, s, steps);
  }

  lemma RunFive(w: World, s: State, steps: seq<Step>)
    requires |steps| == 5
    ensures Run(w, s, steps)
         == Apply(w, Apply(w, Apply(w, Apply(w, Apply(w, s, steps[0]), steps[1]), steps[2]), steps[3]), steps[4])
  {
    var s1 := Apply(w, s, steps[0]);
    var s2 := Apply(w, s1, steps[1]);
    var s3 := Apply(w, s2, steps[2]);
    var s4 := Apply(w, s3, steps[3]);
    RunOne(w, s, steps); RunOne(w, s1, steps[1..]); RunOne(w, s2, steps[2..]); RunOne(w, s3, steps[3..]); RunOne(w, s4, steps[4..]);
    assert steps[1..][1..] == steps[2..] && steps[2..][1..] == steps[3..] && steps[3..][1..] == steps[4..] && steps[4..][1..] == [];
  }

  lemma EnqueueAndDeliver(w: World, s: State, doc: Doc)
    requires s.attempts == map[7 := Attempt(0, EnqueuingEmbed(0, doc, 0, 0))]
    requires s.jobs == map[0 := CrawlJob(0)] && s.nextJob == 1 && s.done == {}
    ensures var t := Apply(w, Apply(w, s, Advance(7, 0, true, true)), Deliver(8, 1));
            && t.db == s.db && t.jobs == map[0 := CrawlJob(0), 1 := EmbedJob(0)] && t.done == {} && t.matched == s.matched
            && t.attempts == map[7 := Attempt(0, Upserting(0, doc, 1)), 8 := Attempt(1, Begin)]
  {
    var s1 := Apply(w, s, Advance(7, 0, true, true));
    assert s1 == Goto(Enqueue(s, EmbedJob(0)), 7, Upserting(0, doc, 1));
    assert Pending(s1, 1) && 8 !in s1.attempts;
  }

  lemma EmbedAndWrite(w: World, s: State, doc: Doc)
    requires s.attempts == map[7 := Attempt(0, Upserting(0, doc, 1)), 8 := Attempt(1, Begin)]
    requires 0 in s.db.findings && s.db.findings[0].embedding == None && EmbedText(s.db.findings[0]) != ""
    requires s.jobs == map[0 := CrawlJob(0), 1 := EmbedJob(0)] && s.done == {} && s.matched == {}
    ensures var t := Apply(w, Apply(w, Apply(w, s, Advance(8, 0, true, true)), Advance(8, 0, true, true)), Crash(8));
            && Embedded(t.db, 0) && t.jobs == s.jobs && t.done == {} && t.matched == {}
            && t.attempts == map[7 := Attempt(0, Upserting(0, doc, 1))]
  {
    var vec := w.embed(EmbedText(s.db.findings[0]));
    var s1 := Apply(w, s, Advance(8, 0, true, true));
    assert s1 == BeginEmbed(w, s, 8, 0) == Goto(s, 8, Embedding(0, vec));
    var s2 := Apply(w, s1, Advance(8, 0, true, true));
    assert s2 == WriteEmbedding(s1, 8, Embedding(0, vec));
    assert s2.attempts[8].pc == EnqueuingMatch(0);
  }

  /**
   One failed enqueue after the embedding was written, and the first entry of any document with text is
   never matched, although its embed job is still there to be retried.
   */
  lemma CrashLosesMatch(w: World, url: string, doc: Doc) returns (steps: seq<Step>)
    requires |Upserts(w, 0, doc)| >= 1 && w.serves(url, doc) && !w.notModified(url, "", "", doc)
    requires EmbedText(NewFinding(Upserts(w, 0, doc)[0])) != ""
    ensures var s := Run(w, START, steps);
            Embedded(s.db, 0) && HasPending(s, EmbedJob(0)) && !CanBeMatched(w, s, 0)
  {
    var first := FirstInsert(w, url, doc);
    EmbedAndDie(w, Run(w, START, first), doc);
    RunAppend(w, START, first, EMBED_AND_DIE);
    steps := first + EMBED_AND_DIE;
    var s := Run(w, START, steps);
    assert Pending(s, 1);
    assert forall a :: !LeadsToMatch(s, a, 0);
    MatchedIfAhead(w, steps, 0);
  }
}
