/**
 Conservation of embed jobs: every finding ever created is owned by exactly one
 embed job, or by the attempt about to insert that job, or was lost when that
 attempt died.
 */
module EmbedJobs {
  import opened Wrappers
  import opened RadarTables
  import opened RadarReach
  import opened Crawler
  import opened RadarPipeline
  import opened PipelineBase

  /** Who answers for a finding's embedding. */
  datatype Owner = ViaJob(job: int) | ViaAttempt(attempt: int) | Lost

  predicate Owns(s: State, o: Owner, x: int) {
    match o
    case ViaJob(j) => j in s.jobs && s.jobs[j] == EmbedJob(x)
    case ViaAttempt(a) => a in s.attempts && s.attempts[a].pc.EnqueuingEmbed? && s.attempts[a].pc.finding == x
    case Lost => x in s.lostEmbeds
  }

  ghost predicate HasOwner(s: State, x: int) {
    exists o :: Owns(s, o, x)
  }

  ghost predicate OneOwner(s: State) {
    && (forall x :: 0 <= x < s.db.nextFinding ==> HasOwner(s, x))
    && (forall x, o, p :: Owns(s, o, x) && Owns(s, p, x) ==> o == p)
    && (forall x :: x in s.lostEmbeds ==> 0 <= x < s.db.nextFinding)
  }

  lemma OwnedIsCreated(s: State, o: Owner, x: int)
    requires Wired(s) && OneOwner(s) && Owns(s, o, x)
    ensures 0 <= x < s.db.nextFinding
  {
    match o
    case ViaJob(j) => assert JobOk(s.db, s.jobs[j]);
    case ViaAttempt(a) => assert AttemptOk(s, s.attempts[a]);
    case Lost =>
  }

  /** Ownership of x passes from whoever held it to o; every other finding keeps its owner. */
  ghost predicate Handover(s: State, t: State, x: int, o: Owner) {
    forall y, p :: Owns(t, p, y) <==> if y == x then p == o else Owns(s, p, y)
  }

  lemma OneOwnerAfterHandover(s: State, t: State, x: int, o: Owner)
    requires OneOwner(s) && Handover(s, t, x, o)
    requires t.db.nextFinding == s.db.nextFinding || (t.db.nextFinding == s.db.nextFinding + 1 && x == s.db.nextFinding)
    requires forall y :: y in t.lostEmbeds ==> 0 <= y < t.db.nextFinding
    ensures OneOwner(t)
  {
    forall y | 0 <= y < t.db.nextFinding ensures HasOwner(t, y) {
      if y == x {
        assert Owns(t, o, x);
      } else {
        assert HasOwner(s, y);
        var p :| Owns(s, p, y);
        assert Owns(t, p, y);
      }
    }
  }

  /** A step that neither inserts a finding nor touches embed jobs leaves every owner in place. */
  lemma OwnersUntouched(s: State, t: State, a: int)
    requires OneOwner(s) && StepFrame(s, t, a)
    requires t.db.nextFinding == s.db.nextFinding && t.lostEmbeds == s.lostEmbeds
    requires forall j :: j in t.jobs && j !in s.jobs ==> !t.jobs[j].EmbedJob?
    requires a in s.attempts && s.attempts[a].pc.EnqueuingEmbed? ==> a in t.attempts && t.attempts[a] == s.attempts[a]
    requires a in t.attempts && t.attempts[a].pc.EnqueuingEmbed? ==> a in s.attempts && t.attempts[a] == s.attempts[a]
    ensures OneOwner(t)
  {
    assert forall y, p :: Owns(t, p, y) <==> Owns(s, p, y);
    forall y | 0 <= y < t.db.nextFinding ensures HasOwner(t, y) {
      assert HasOwner(s, y);
      var p :| Owns(s, p, y);
      assert Owns(t, p, y);
    }
  }

  lemma InsertOwner(w: World, s: State, a: int, now: int, e: bool, l: bool)
    requires Base(s) && OneOwner(s) && a in s.attempts && s.attempts[a].job in s.jobs && s.attempts[a].pc.Upserting?
    ensures OneOwner(AdvanceAttempt(w, s, a, now, e, l))
  {
    var t := AdvanceAttempt(w, s, a, now, e, l);
    UpsertBase(w, s, a, now, e, l);
    if t.db.nextFinding == s.db.nextFinding {
      OwnersUntouched(s, t, a);
    } else {
      InsertHandsOver(w, s, a, now, e, l);
      OneOwnerAfterHandover(s, t, s.db.nextFinding, ViaAttempt(a));
    }
  }

  /** The new finding is its attempt's to enqueue. */
  lemma InsertHandsOver(w: World, s: State, a: int, now: int, e: bool, l: bool)
    requires Base(s) && OneOwner(s) && a in s.attempts && s.attempts[a].job in s.jobs && s.attempts[a].pc.Upserting?
    requires AdvanceAttempt(w, s, a, now, e, l).db.nextFinding != s.db.nextFinding
    ensures var t := AdvanceAttempt(w, s, a, now, e, l);
            && Handover(s, t, s.db.nextFinding, ViaAttempt(a))
            && t.db.nextFinding == s.db.nextFinding + 1 && t.lostEmbeds == s.lostEmbeds
  {
    var t, x := AdvanceAttempt(w, s, a, now, e, l), s.db.nextFinding;
    forall y, p ensures Owns(t, p, y) <==> if y == x then p == ViaAttempt(a) else Owns(s, p, y) {
      if Owns(s, p, x) { OwnedIsCreated(s, p, x); }
    }
  }

  /** Whoever holds x before a handover is the only one that may stop holding it. */
  lemma HandoverFrom(s: State, t: State, x: int, from: Owner, o: Owner)
    requires OneOwner(s) && Owns(s, from, x) && !Owns(t, from, x) && Owns(t, o, x) && !Owns(s, o, x)
    requires forall y, p :: !(y == x && (p == from || p == o)) ==> (Owns(t, p, y) <==> Owns(s, p, y))
    ensures Handover(s, t, x, o)
  {
    forall y, p ensures Owns(t, p, y) <==> if y == x then p == o else Owns(s, p, y) {
      if y == x && p != from && p != o {
        assert !Owns(s, p, x);
      }
    }
  }

  lemma EnqueueOwner(w: World, s: State, a: int, now: int, e: bool, l: bool)
    requires Base(s) && OneOwner(s) && a in s.attempts && s.attempts[a].job in s.jobs && s.attempts[a].pc.EnqueuingEmbed?
    ensures OneOwner(AdvanceAttempt(w, s, a, now, e, l))
  {
    var t := AdvanceAttempt(w, s, a, now, e, l);
    var x := s.attempts[a].pc.finding;
    assert Owns(s, ViaAttempt(a), x);
    assert s.nextJob !in s.jobs;
    HandoverFrom(s, t, x, ViaAttempt(a), ViaJob(s.nextJob));
    OneOwnerAfterHandover(s, t, x, ViaJob(s.nextJob));
  }

  lemma CrashOwner(w: World, s: State, a: int)
    requires Base(s) && OneOwner(s)
    ensures OneOwner(Apply(w, s, Crash(a)))
  {
    var t := Apply(w, s, Crash(a));
    CrashBase(w, s, a);
    if a in s.attempts && s.attempts[a].pc.EnqueuingEmbed? {
      var x := s.attempts[a].pc.finding;
      assert Owns(s, ViaAttempt(a), x);
      assert !Owns(s, Lost, x);
      OwnedIsCreated(s, ViaAttempt(a), x);
      HandoverFrom(s, t, x, ViaAttempt(a), Lost);
      OneOwnerAfterHandover(s, t, x, Lost);
    } else {
      OwnersUntouched(s, t, a);
    }
  }

  /** The owners' three homes are left alone. */
  ghost predicate TouchesNoOwner(s: State, t: State, a: int) {
    && t.db.nextFinding == s.db.nextFinding && t.lostEmbeds == s.lostEmbeds
    && (forall j :: j in t.jobs && j !in s.jobs ==> !t.jobs[j].EmbedJob?)
    && (a in t.attempts ==> !t.attempts[a].pc.EnqueuingEmbed?)
  }

  lemma BeginTouchesNoOwner(w: World, s: State, a: int, now: int, e: bool, l: bool)
    requires a in s.attempts && s.attempts[a].job in s.jobs && s.attempts[a].pc.Begin?
    ensures TouchesNoOwner(s, AdvanceAttempt(w, s, a, now, e, l), a)
  {
  }

  lemma OtherTouchesNoOwner(w: World, s: State, a: int, now: int, e: bool, l: bool)
    requires a in s.attempts && s.attempts[a].job in s.jobs
    requires !s.attempts[a].pc.Upserting? && !s.attempts[a].pc.EnqueuingEmbed? && !s.attempts[a].pc.Begin?
    ensures TouchesNoOwner(s, AdvanceAttempt(w, s, a, now, e, l), a)
  {
  }

  lemma AdvanceOwner(w: World, s: State, a: int, now: int, e: bool, l: bool)
    requires Base(s) && OneOwner(s) && a in s.attempts && s.attempts[a].job in s.jobs
    ensures OneOwner(AdvanceAttempt(w, s, a, now, e, l))
  {
    match s.attempts[a].pc
    case Upserting(_, _, _) => InsertOwner(w, s, a, now, e, l);
    case EnqueuingEmbed(_, _, _, _) => EnqueueOwner(w, s, a, now, e, l);
    case Begin =>
      AdvanceBase(w, s, a, now, e, l);
      BeginTouchesNoOwner(w, s, a, now, e, l);
      OwnersUntouched(s, AdvanceAttempt(w, s, a, now, e, l), a);
    case _ =>
      AdvanceBase(w, s, a, now, e, l);
      OtherTouchesNoOwner(w, s, a, now, e, l);
      OwnersUntouched(s, AdvanceAttempt(w, s, a, now, e, l), a);
  }

  lemma StepOwner(w: World, s: State, step: Step)
    requires Base(s) && OneOwner(s)
    ensures OneOwner(Apply(w, s, step))
  {
    match step
    case Advance(a, now, e, l) =>
      if a in s.attempts && s.attempts[a].job in s.jobs { AdvanceOwner(w, s, a, now, e, l); }
    case Crash(a) => CrashOwner(w, s, a);
    case User(op) => UserBase(w, s, op); UserOpKeeps(s.db, op); OwnersUntouched(s, Apply(w, s, step), 0);
    case _ => StepBase(w, s, step); OwnersUntouched(s, Apply(w, s, step), Subject(step));
  }

  lemma {:induction false} RunOwner(w: World, s: State, steps: seq<Step>)
    requires Base(s) && OneOwner(s)
    ensures Base(Run(w, s, steps)) && OneOwner(Run(w, s, steps))
    decreases |steps|
  {
    if steps != [] {
      StepBase(w, s, steps[0]);
      StepOwner(w, s, steps[0]);
      RunOwner(w, Apply(w, s, steps[0]), steps[1..]);
    }
  }

  function EmbedJobsOf(s: State, x: int): set<int> {
    set j | j in s.jobs && s.jobs[j] == EmbedJob(x)
  }

  predicate InFlight(s: State, x: int) {
    exists a :: a in s.attempts && s.attempts[a].pc.EnqueuingEmbed? && s.attempts[a].pc.finding == x
  }

  lemma OneJobPerOwner(s: State, x: int, o: Owner)
    requires OneOwner(s) && Owns(s, o, x)
    ensures EmbedJobsOf(s, x) == if o.ViaJob? then {o.job} else {}
    ensures InFlight(s, x) <==> o.ViaAttempt?
    ensures x in s.lostEmbeds <==> o == Lost
  {
    forall j | j in EmbedJobsOf(s, x) ensures o == ViaJob(j) {
      assert Owns(s, ViaJob(j), x);
    }
    forall a | a in s.attempts && s.attempts[a].pc.EnqueuingEmbed? && s.attempts[a].pc.finding == x ensures o == ViaAttempt(a) {
      assert Owns(s, ViaAttempt(a), x);
    }
    assert x in s.lostEmbeds ==> Owns(s, Lost, x);
    var only := if o.ViaJob? then {o.job} else {};
    forall j ensures j in EmbedJobsOf(s, x) <==> j in only {
      assert j in EmbedJobsOf(s, x) <==> Owns(s, ViaJob(j), x);
    }
    assert EmbedJobsOf(s, x) == only;
  }

  /**
   Over any run, however crawls overlap, repeat or fail: a finding ever created has
   exactly one embed job, unless its crawl is between insert and enqueue or died there,
   in which case it has none.
   */
  lemma ExactlyOneEmbedJob(w: World, steps: seq<Step>, x: int)
    ensures var s := Run(w, START, steps);
            0 <= x < s.db.nextFinding ==>
              && |EmbedJobsOf(s, x)| == (if InFlight(s, x) || x in s.lostEmbeds then 0 else 1)
              && !(InFlight(s, x) && x in s.lostEmbeds)
  {
    RunOwner(w, START, steps);
    var s := Run(w, START, steps);
    if 0 <= x < s.db.nextFinding {
      assert HasOwner(s, x);
      var o :| Owns(s, o, x);
      OneJobPerOwner(s, x, o);
    }
  }

  /** Between a store write and the enqueue that follows it. */
  predicate Enqueuing(s: State, a: int) {
    a in s.attempts && (s.attempts[a].pc.EnqueuingEmbed? || s.attempts[a].pc.EnqueuingMatch?)
  }

  /** Attempts may die and calls may fail anywhere but between a store write and its enqueue. */
  predicate NothingStranded(w: World, s: State, steps: seq<Step>)
    decreases |steps|
  {
    steps == [] ||
    (!(steps[0].Crash? && Enqueuing(s, steps[0].attempt)) && NothingStranded(w, Apply(w, s, steps[0]), steps[1..]))
  }

  /** Then nothing is ever lost: created findings and embed jobs match one to one. */
  lemma {:induction false} NothingStrandedNothingLost(w: World, s: State, steps: seq<Step>)
    requires NothingStranded(w, s, steps)
    ensures Run(w, s, steps).lostEmbeds == s.lostEmbeds && Run(w, s, steps).lostMatches == s.lostMatches
    decreases |steps|
  {
    if steps != [] {
      NothingStrandedNothingLost(w, Apply(w, s, steps[0]), steps[1..]);
    }
  }
}
