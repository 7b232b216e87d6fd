/**
 Draining terminates: a weight over the pending jobs drops with every effective
 step of a run that gives each job one attempt at a time, and while weight is left
 there is a step to take.
 */
module Draining {
  import opened Wrappers
  import opened RadarTables
  import opened RadarReach
  import opened Crawler
  import opened RadarPipeline
  import opened PipelineBase
  import opened NoLostWork
  import opened WorkerRuns
  import opened WorkerCrawls

  // --- The weight -------------------------------------------------------------------------

  const MATCH_WEIGHT := 3
  const EMBED_WEIGHT := 8
  const ITEM_WEIGHT := 10

  /** Entries of the loop's document still to be upserted. */
  function ItemsLeft(w: World, feed: int, doc: Doc, next: nat): nat {
    if next < |Upserts(w, feed, doc)| then |Upserts(w, feed, doc)| - next else 0
  }

  function BeginWeight(w: World, s: State, job: Job): nat {
    match job
    case CrawlJob(feed) => 4 + ITEM_WEIGHT * |CurrentUpserts(w, s, feed)|
    case EmbedJob(_) => EMBED_WEIGHT - 1
    case MatchJob(_) => MATCH_WEIGHT - 1
  }

  function PcWeight(w: World, s: State, job: Job, pc: Pc): nat {
    match pc
    case Begin => BeginWeight(w, s, job)
    case Fetching(feed, url, _, _) => 3 + if url in s.docs then ITEM_WEIGHT * |Upserts(w, feed, s.docs[url])| else 0
    case Upserting(feed, doc, next) => 2 + ITEM_WEIGHT * ItemsLeft(w, feed, doc, next)
    case EnqueuingEmbed(feed, doc, next, _) => 1 + ITEM_WEIGHT * ItemsLeft(w, feed, doc, next)
    case Marking304(_, _, _) => 2
    case Embedding(_, _) => 6
    case EnqueuingMatch(_) => 5
    case Returned => 1
  }

  function JobWeight(w: World, s: State, j: int): nat {
    if !Pending(s, j) then 0
    else if j in s.attempts then PcWeight(w, s, s.jobs[j], s.attempts[j].pc)
    else 1 + BeginWeight(w, s, s.jobs[j])
  }

  /** The weight of the first n jobs. */
  function Weight(w: World, s: State, n: nat): nat {
    if n == 0 then 0 else Weight(w, s, n - 1) + JobWeight(w, s, n - 1)
  }

  function TotalWeight(w: World, s: State): nat
    requires 0 <= s.nextJob
  {
    Weight(w, s, s.nextJob)
  }

  lemma {:induction false} WeightChanges(w: World, s: State, t: State, n: nat, j: int)
    requires forall i :: 0 <= i < n && i != j ==> JobWeight(w, t, i) == JobWeight(w, s, i)
    ensures Weight(w, t, n) - Weight(w, s, n) == if 0 <= j < n then JobWeight(w, t, j) - JobWeight(w, s, j) else 0
  {
    if n > 0 {
      WeightChanges(w, s, t, n - 1, j);
    }
  }

  // --- Runs that can finish -----------------------------------------------------------------

  predicate JobFit(s: State, job: Job) {
    match job
    case CrawlJob(feed) => feed in s.db.feeds && s.db.feeds[feed].url in s.docs
    case EmbedJob(x) => x in s.db.findings
    case MatchJob(_) => true
  }

  predicate PcFit(w: World, s: State, pc: Pc) {
    match pc
    case Fetching(_, url, _, _) => url in s.docs
    case EnqueuingEmbed(feed, doc, next, x) => x in s.db.findings && next < |Upserts(w, feed, doc)|
    case _ => true
  }

  /** Each job has at most one attempt, and no pending job names a deleted row or an unserved document. */
  ghost predicate Fit(w: World, s: State) {
    && (forall a :: a in s.attempts ==> s.attempts[a].job == a && Pending(s, a) && PcFit(w, s, s.attempts[a].pc))
    && (forall j :: Pending(s, j) ==> JobFit(s, s.jobs[j]))
  }

  /** What the weight depends on does not move, and no row disappears. */
  ghost predicate Steady(s: State, t: State) {
    && t.docs == s.docs && SameFeeds(s.db.feeds, t.db.feeds)
    && forall x :: x in s.db.findings ==> x in t.db.findings
  }

  lemma AdvanceSteady(w: World, s: State, a: int, now: int, e: bool, l: bool)
    requires Base(s) && a in s.attempts && s.attempts[a].job in s.jobs
    ensures Steady(s, AdvanceAttempt(w, s, a, now, e, l))
  {
    match s.attempts[a].pc
    case Embedding(_, _) =>
    case Upserting(_, _, _) => UpsertFixed(w, s, a, now, e, l);
    case Marking304(_, _, _) => MarkFixed(w, s, a, now, e, l);
    case Begin => BeginFixed(w, s, a, now, e, l);
    case _ => OtherFixed(w, s, a, now, e, l);
  }

  lemma OthersWeighTheSame(w: World, s: State, t: State, a: int)
    requires Base(s) && Fit(w, s) && Steady(s, t) && StepFrame(s, t, a)
    requires t.done <= s.done + {a}
    ensures forall i :: i in s.jobs && i != a ==> JobWeight(w, t, i) == JobWeight(w, s, i)
  {
    forall i | i in s.jobs && i != a ensures JobWeight(w, t, i) == JobWeight(w, s, i) {
      if Pending(s, i) && s.jobs[i].CrawlJob? {
        assert CurrentUpserts(w, t, s.jobs[i].feed) == CurrentUpserts(w, s, s.jobs[i].feed);
      }
    }
  }

  /** The attempt's own job gets lighter, even counting the job it enqueues. */
  lemma OtherDrops(w: World, s: State, a: int, now: int, e: bool, l: bool)
    requires Base(s) && Fit(w, s) && a in s.attempts
    requires s.attempts[a].pc.Fetching? || s.attempts[a].pc.Marking304? || s.attempts[a].pc.Embedding? || s.attempts[a].pc.Returned?
    ensures var t := AdvanceAttempt(w, s, a, now, e, l);
            t.nextJob == s.nextJob && JobWeight(w, t, a) < JobWeight(w, s, a)
  {
    assert AttemptOk(s, s.attempts[a]);
  }

  lemma OwnWeightDrops(w: World, s: State, a: int, now: int, e: bool, l: bool)
    requires Base(s) && Fit(w, s) && a in s.attempts
    ensures var t := AdvanceAttempt(w, s, a, now, e, l);
            JobWeight(w, t, a) + (if s.nextJob < t.nextJob then JobWeight(w, t, s.nextJob) else 0) < JobWeight(w, s, a)
  {
    assert AttemptOk(s, s.attempts[a]);
    match s.attempts[a].pc
    case Begin => BeginDrops(w, s, a, now, e, l);
    case Upserting(_, _, _) => UpsertDrops(w, s, a, now, e, l);
    case EnqueuingEmbed(_, _, _, _) => EnqueueDrops(w, s, a, now, e, l);
    case EnqueuingMatch(_) => EnqueueDrops(w, s, a, now, e, l);
    case _ => OtherDrops(w, s, a, now, e, l);
  }

  lemma BeginDrops(w: World, s: State, a: int, now: int, e: bool, l: bool)
    requires Base(s) && Fit(w, s) && a in s.attempts && s.attempts[a].pc.Begin?
    ensures var t := AdvanceAttempt(w, s, a, now, e, l);
            t.nextJob == s.nextJob && JobWeight(w, t, a) < JobWeight(w, s, a)
  {
  }

  lemma UpsertDrops(w: World, s: State, a: int, now: int, e: bool, l: bool)
    requires Base(s) && Fit(w, s) && a in s.attempts && s.attempts[a].pc.Upserting?
    ensures var t := AdvanceAttempt(w, s, a, now, e, l);
            t.nextJob == s.nextJob && JobWeight(w, t, a) < JobWeight(w, s, a)
  {
    assert AttemptOk(s, s.attempts[a]);
  }

  lemma EnqueueDrops(w: World, s: State, a: int, now: int, e: bool, l: bool)
    requires Base(s) && Fit(w, s) && a in s.attempts && (s.attempts[a].pc.EnqueuingEmbed? || s.attempts[a].pc.EnqueuingMatch?)
    ensures var t := AdvanceAttempt(w, s, a, now, e, l);
            JobWeight(w, t, a) + JobWeight(w, t, s.nextJob) < JobWeight(w, s, a)
  {
  }

  lemma FitAfter(w: World, s: State, t: State, a: int)
    requires Base(s) && Fit(w, s) && Steady(s, t) && StepFrame(s, t, a) && t.done <= s.done + {a}
    requires a in t.attempts ==> t.attempts[a].job == a && Pending(t, a) && PcFit(w, t, t.attempts[a].pc)
    requires forall j :: j in t.jobs && j !in s.jobs ==> JobFit(t, t.jobs[j])
    ensures Fit(w, t)
  {
    forall b | b in t.attempts ensures t.attempts[b].job == b && Pending(t, b) && PcFit(w, t, t.attempts[b].pc) {
      if b != a { assert Pending(s, b) && PcFit(w, s, s.attempts[b].pc); }
    }
    forall j | Pending(t, j) ensures JobFit(t, t.jobs[j]) {
      if j in s.jobs { assert Pending(s, j) && JobFit(s, s.jobs[j]); }
    }
  }

  /** What one worker step does to the attempt and the queue, seen from outside. */
  lemma AdvanceFit(w: World, s: State, a: int, now: int, e: bool, l: bool)
    requires Base(s) && Fit(w, s) && a in s.attempts
    ensures Fit(w, AdvanceAttempt(w, s, a, now, e, l))
  {
    var t := AdvanceAttempt(w, s, a, now, e, l);
    AdvanceBase(w, s, a, now, e, l);
    AdvanceSteady(w, s, a, now, e, l);
    AdvanceOwnFit(w, s, a, now, e, l);
    FitAfter(w, s, t, a);
  }

  lemma AdvanceOwnFit(w: World, s: State, a: int, now: int, e: bool, l: bool)
    requires Base(s) && Fit(w, s) && a in s.attempts
    ensures var t := AdvanceAttempt(w, s, a, now, e, l);
            && t.done <= s.done + {a}
            && (a in t.attempts ==> t.attempts[a].job == a && Pending(t, a) && PcFit(w, t, t.attempts[a].pc))
            && (forall j :: j in t.jobs && j !in s.jobs ==> j == s.nextJob && JobFit(t, t.jobs[j]))
            && t.nextJob <= s.nextJob + 1 && (t.nextJob == s.nextJob ==> t.jobs == s.jobs)
  {
    assert AttemptOk(s, s.attempts[a]);
    assert PcFit(w, s, s.attempts[a].pc) && JobFit(s, s.jobs[a]);
  }

  lemma AdvanceLightens(w: World, s: State, a: int, now: int, e: bool, l: bool)
    requires Base(s) && Fit(w, s) && a in s.attempts
    ensures var t := AdvanceAttempt(w, s, a, now, e, l);
            Base(t) && Fit(w, t) && TotalWeight(w, t) < TotalWeight(w, s)
  {
    var t := AdvanceAttempt(w, s, a, now, e, l);
    AdvanceBase(w, s, a, now, e, l);
    AdvanceSteady(w, s, a, now, e, l);
    AdvanceOwnFit(w, s, a, now, e, l);
    AdvanceFit(w, s, a, now, e, l);
    OthersWeighTheSame(w, s, t, a);
    OwnWeightDrops(w, s, a, now, e, l);
    MissingJobsWeighNothing(w, s, t, a);
    WeightChanges(w, s, t, s.nextJob, a);
  }

  lemma MissingJobsWeighNothing(w: World, s: State, t: State, a: int)
    requires Base(s) && StepFrame(s, t, a) && a in s.jobs
    requires forall i :: i in s.jobs && i != a ==> JobWeight(w, t, i) == JobWeight(w, s, i)
    ensures forall i :: 0 <= i < s.nextJob && i != a ==> JobWeight(w, t, i) == JobWeight(w, s, i)
  {
  }

  lemma DeliverLightens(w: World, s: State, j: int)
    requires Base(s) && Fit(w, s) && Pending(s, j) && j !in s.attempts
    ensures var t := Apply(w, s, Deliver(j, j));
            Base(t) && Fit(w, t) && TotalWeight(w, t) < TotalWeight(w, s)
  {
    var t := Apply(w, s, Deliver(j, j));
    QueueBase(w, s, Deliver(j, j));
    FitAfter(w, s, t, j);
    OthersWeighTheSame(w, s, t, j);
    MissingJobsWeighNothing(w, s, t, j);
    WeightChanges(w, s, t, s.nextJob, j);
  }

  /** The steps of a run with one attempt per job. */
  predicate Orderly(s: State, step: Step) {
    match step
    case Deliver(a, j) => a == j
    case Advance(_, _, _, _) => true
    case _ => false
  }

  /** Termination: every orderly step changes nothing or strictly lowers the weight. */
  lemma OrderlyStepsLighten(w: World, s: State, step: Step)
    requires Base(s) && Fit(w, s) && Orderly(s, step)
    ensures var t := Apply(w, s, step);
            Base(t) && Fit(w, t) && (t == s || TotalWeight(w, t) < TotalWeight(w, s))
  {
    match step
    case Deliver(a, j) => if a !in s.attempts && Pending(s, j) { DeliverLightens(w, s, j); }
    case Advance(a, now, e, l) => if a in s.attempts { AdvanceLightens(w, s, a, now, e, l); }
  }

  /** Progress: from a fit state the workers alone can empty the queue, in at most as many steps as the weight. */
  lemma {:induction false} DrainExists(w: World, s: State) returns (steps: seq<Step>)
    requires Base(s) && Fit(w, s)
    ensures WorkersOnly(w, s, steps) && Drained(Run(w, s, steps)) && |steps| <= TotalWeight(w, s)
    decreases TotalWeight(w, s)
  {
    if s.attempts != map[] {
      var a := PickKey(s.attempts);
      steps := DrainAfter(w, s, Advance(a, 0, true, true));
    } else if j :| Pending(s, j) {
      steps := DrainAfter(w, s, Deliver(j, j));
    } else {
      steps := [];
    }
  }

  lemma {:induction false} DrainAfter(w: World, s: State, step: Step) returns (steps: seq<Step>)
    requires Base(s) && Fit(w, s) && Orderly(s, step)
    requires step.Advance? ==> step.attempt in s.attempts
    requires step.Deliver? ==> Pending(s, step.job) && step.job !in s.attempts
    ensures WorkersOnly(w, s, steps) && Drained(Run(w, s, steps)) && |steps| <= TotalWeight(w, s)
    decreases TotalWeight(w, s), 0
  {
    match step {
      case Deliver(_, j) => DeliverLightens(w, s, j);
      case Advance(a, now, e, l) => AdvanceLightens(w, s, a, now, e, l);
    }
    var t := Apply(w, s, step);
    var rest := DrainExists(w, t);
    steps := [step] + rest;
    assert steps[1..] == rest;
  }
}
