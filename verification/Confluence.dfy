/**
 Confluence: while users, documents and the schedule stand still, every order,
 interleaving and redelivery of the pending jobs that drains the queue ends with
 the same findings (up to ids) and the same matches.
 */
module Confluence {
  import opened Wrappers
  import opened RadarTables
  import opened RadarReach
  import opened Crawler
  import opened RadarPipeline
  import opened PipelineBase
  import opened ConditionalFetch
  import opened EmbedJobs
  import opened NoLostWork
  import opened WorkerRuns
  import opened WorkerCrawls
  import opened WorkerMatches
  import opened Draining

  // --- The invariant of a worker run -----------------------------------------------------

  ghost predicate Sound(w: World, s: State) {
    Safe(w, s) && Accounted(s)
  }

  ghost predicate RunInv(w: World, s0: State, s: State) {
    && Fixed(s0, s) && Frame(s0.db, s.db)
    && Vectors(w, s0, s) && Crawls(w, s0, s) && NewRows(w, s0, s) && Matches(w, s0, s)
  }

  lemma FrameTransitive(s0: State, s: State, t: State)
    requires Base(s0) && Base(s) && Fixed(s0, s) && Fixed(s, t) && Frame(s0.db, s.db) && Frame(s.db, t.db)
    ensures Frame(s0.db, t.db)
  {
    forall x | x in t.db.findings && x < s0.db.nextFinding
      ensures x in s0.db.findings && SameContent(s0.db.findings[x], t.db.findings[x])
    {
      assert x in s.db.findings;
    }
  }

  lemma StepSound(w: World, s: State, step: Step)
    requires Honest(w) && Sound(w, s)
    ensures Sound(w, Apply(w, s, step))
  {
    StepBase(w, s, step);
    StepSeen(w, s, step);
    StepOwner(w, s, step);
    StepSettled(w, s, step);
    StepCovered(w, s, step);
  }

  lemma StepNewRows(w: World, s0: State, s: State, step: Step)
    requires Base(s0) && Sound(w, s) && RunInv(w, s0, s) && Harmless(s, step)
    ensures NewRows(w, s0, Apply(w, s, step))
  {
    if step.Advance? {
      if step.attempt in s.attempts && s.attempts[step.attempt].job in s.jobs {
        AdvanceNewRows(w, s0, s, step.attempt, step.now, step.showEtag, step.showLastModified);
      }
    } else {
      assert Apply(w, s, step).db.findings == s.db.findings;
    }
  }

  lemma StepRunInv(w: World, s0: State, s: State, step: Step)
    requires Honest(w) && Base(s0) && Sound(w, s) && RunInv(w, s0, s) && Harmless(s, step)
    ensures RunInv(w, s0, Apply(w, s, step))
  {
    var t := Apply(w, s, step);
    StepFixed(w, s0, s, step);
    StepBase(w, s, step);
    FixedTransitive(s0, s, t);
    FrameTransitive(s0, s, t);
    StepVectors(w, s0, s, step);
    StepCrawls(w, s0, s, step);
    StepNewRows(w, s0, s, step);
    StepMatches(w, s0, s, step);
  }

  lemma {:induction false} RunKeepsInv(w: World, s0: State, s: State, steps: seq<Step>)
    requires Honest(w) && Base(s0) && Sound(w, s) && RunInv(w, s0, s) && WorkersOnly(w, s, steps)
    ensures Sound(w, Run(w, s, steps)) && RunInv(w, s0, Run(w, s, steps))
    decreases |steps|
  {
    if steps != [] {
      StepSound(w, s, steps[0]);
      StepRunInv(w, s0, s, steps[0]);
      RunKeepsInv(w, s0, Apply(w, s, steps[0]), steps[1..]);
    }
  }

  /** The run starts with every worker idle. */
  lemma IdleInv(w: World, s0: State)
    requires Base(s0) && MatchJobsEmbedded(s0) && s0.attempts == map[]
    ensures RunInv(w, s0, s0)
  {
    forall x | Embedded(s0.db, x) && WillMatch(s0, x) ensures Awaited(s0, x) {
      var j :| Pending(s0, j) && s0.jobs[j] == MatchJob(x);
      assert LiveMatch(s0, j, x);
    }
    assert NewMatches(w, s0, s0.db);
    forall j | j in s0.jobs && j !in s0.done && s0.jobs[j].MatchJob? ensures WillMatch(s0, s0.jobs[j].finding) {
      assert Pending(s0, j);
    }
  }

  // --- The final rows ---------------------------------------------------------------------

  /** What becomes of a row once the queue is empty. */
  function FinalRow(w: World, row: Finding, lost: bool): Finding {
    if row.embedding.Some? || EmbedText(row) == "" || lost then row
    else row.(embedding := Some(w.embed(EmbedText(row))))
  }

  /** A drained run: idle before, only worker steps, nothing left after. */
  ghost predicate Drains(w: World, prefix: seq<Step>, steps: seq<Step>) {
    && Run(w, START, prefix).attempts == map[]
    && WorkersOnly(w, Run(w, START, prefix), steps)
    && Drained(Run(w, START, prefix + steps))
  }

  lemma DrainedState(w: World, prefix: seq<Step>, steps: seq<Step>)
    requires Honest(w) && Drains(w, prefix, steps)
    ensures var s0, s := Run(w, START, prefix), Run(w, START, prefix + steps);
            Base(s0) && Sound(w, s) && RunInv(w, s0, s)
  {
    RunAppend(w, START, prefix, steps);
    RunSafe(w, START, prefix);
    RunMatchJobsEmbedded(w, START, prefix);
    var s0 := Run(w, START, prefix);
    IdleInv(w, s0);
    RunKeepsInv(w, s0, s0, steps);
  }

  /** In a drained state a row without an embedding has nothing to embed or was lost before the run. */
  lemma UnembeddedAtEnd(w: World, prefix: seq<Step>, steps: seq<Step>, x: int)
    requires Honest(w) && Drains(w, prefix, steps)
    ensures var s0, s := Run(w, START, prefix), Run(w, START, prefix + steps);
            && (x in s0.lostEmbeds ==> !Embedded(s.db, x))
            && (x in s.db.findings && !Settled(s.db.findings[x]) ==> x in s0.lostEmbeds)
  {
    DrainedState(w, prefix, steps);
    UnembeddedHasWork(w, prefix + steps, x);
    var s0 := Run(w, START, prefix);
    if x in s0.lostEmbeds { LostIsForever(w, prefix, steps, x); }
  }

  lemma OldRowAtEnd(w: World, prefix: seq<Step>, steps: seq<Step>, x: int)
    requires Honest(w) && Drains(w, prefix, steps) && x in Run(w, START, prefix).db.findings
    ensures var s0, s := Run(w, START, prefix), Run(w, START, prefix + steps);
            x in s.db.findings && s.db.findings[x] == FinalRow(w, s0.db.findings[x], x in s0.lostEmbeds)
  {
    DrainedState(w, prefix, steps);
    UnembeddedAtEnd(w, prefix, steps, x);
    var s0, s := Run(w, START, prefix), Run(w, START, prefix + steps);
    assert SameContent(s0.db.findings[x], s.db.findings[x]);
    if Embedded(s.db, x) && !Embedded(s0.db, x) { assert ByEmbedder(w, s.db.findings[x]); }
  }

  lemma NewRowAtEnd(w: World, prefix: seq<Step>, steps: seq<Step>, x: int)
    requires Honest(w) && Drains(w, prefix, steps)
    requires x in Run(w, START, prefix + steps).db.findings && x !in Run(w, START, prefix).db.findings
    ensures var s0, row := Run(w, START, prefix), Run(w, START, prefix + steps).db.findings[x];
            FromCrawl(w, s0, row) && row == FinalRow(w, row.(embedding := None), false)
  {
    DrainedState(w, prefix, steps);
    UnembeddedAtEnd(w, prefix, steps, x);
    RunAccounted(w, START, prefix);
    NewRowFinal(w, Run(w, START, prefix), Run(w, START, prefix + steps), x);
  }

  /** A new row came from a crawl, was not lost before it existed, and any vector it has is the embedder's. */
  lemma NewRowFacts(w: World, s0: State, s: State, x: int)
    requires Base(s0) && RunInv(w, s0, s) && OneOwner(s0) && x in s.db.findings && x !in s0.db.findings
    ensures FromCrawl(w, s0, s.db.findings[x]) && x !in s0.lostEmbeds
    ensures Embedded(s.db, x) ==> ByEmbedder(w, s.db.findings[x])
  {
    assert x >= s0.db.nextFinding;
  }

  lemma NewRowFinal(w: World, s0: State, s: State, x: int)
    requires Base(s0) && RunInv(w, s0, s) && OneOwner(s0) && x in s.db.findings && x !in s0.db.findings
    requires !Settled(s.db.findings[x]) ==> x in s0.lostEmbeds
    ensures var row := s.db.findings[x]; FromCrawl(w, s0, row) && row == FinalRow(w, row.(embedding := None), false)
  {
    NewRowFacts(w, s0, s, x);
  }

  // --- Two runs -----------------------------------------------------------------------------

  /** The row x of one final state and the row y of another are the same finding. */
  ghost predicate Twin(s0: State, s: State, t: State, x: int, y: int) {
    && x in s.db.findings && y in t.db.findings && s.db.findings[x] == t.db.findings[y]
    && (x in s0.db.findings <==> y in s0.db.findings) && (x in s0.db.findings ==> x == y)
  }

  lemma FirstOccurrenceUnique(ups: seq<FindingUpsert>, n: nat, m: nat)
    requires n < |ups| && m < |ups| && FirstOccurrence(ups, n) && FirstOccurrence(ups, m) && ups[n].ext == ups[m].ext
    ensures n == m
  {
  }

  lemma PendingCrawlGetsDone(w: World, s0: State, t: State, feed: int)
    requires RunInv(w, s0, t) && Drained(t) && HasPending(s0, CrawlJob(feed))
    ensures CrawlDone(w, s0, t.db, feed)
  {
    var j :| Pending(s0, j) && s0.jobs[j] == CrawlJob(feed);
    assert j in t.jobs && t.jobs[j] == CrawlJob(feed);
  }

  /** A key a crawl was due to add is there once the crawl is done, whoever added it. */
  lemma KeyArrives(w: World, s0: State, t: State, row: Finding) returns (y: int)
    requires RunInv(w, s0, t) && Drained(t) && FromCrawl(w, s0, row)
    ensures y in t.db.findings && y !in s0.db.findings
    ensures t.db.findings[y].feed == row.feed && t.db.findings[y].ext == row.ext
  {
    PendingCrawlGetsDone(w, s0, t, row.feed);
    y := KeyAt(w, s0, t, row);
    if y in s0.db.findings {
      assert SameContent(s0.db.findings[y], t.db.findings[y]);
      assert HasKey(s0.db, row.feed, row.ext);
    }
  }

  lemma KeyAt(w: World, s0: State, t: State, row: Finding) returns (y: int)
    requires CrawlDone(w, s0, t.db, row.feed) && FromCrawl(w, s0, row)
    ensures y in t.db.findings && t.db.findings[y].feed == row.feed && t.db.findings[y].ext == row.ext
  {
    var ups := CurrentUpserts(w, s0, row.feed);
    var n: nat :| IsUpsert(ups, n, row);
    assert row.ext == ups[n].ext;
    assert HasKey(t.db, row.feed, ups[n].ext);
    y :| y in t.db.findings && t.db.findings[y].feed == row.feed && t.db.findings[y].ext == ups[n].ext;
  }

  lemma SameUpsert(w: World, s0: State, a: Finding, b: Finding)
    requires FromCrawl(w, s0, a) && FromCrawl(w, s0, b) && a.feed == b.feed && a.ext == b.ext
    ensures a.(embedding := None) == b.(embedding := None)
  {
    var ups := CurrentUpserts(w, s0, a.feed);
    var n: nat :| IsUpsert(ups, n, a);
    var m: nat :| IsUpsert(ups, m, b);
    FirstOccurrenceUnique(ups, n, m);
  }

  /** Whatever one drained run found, the other found too. */
  lemma FindTwin(w: World, prefix: seq<Step>, first: seq<Step>, second: seq<Step>, x: int) returns (y: int)
    requires Honest(w) && Drains(w, prefix, first) && Drains(w, prefix, second)
    requires x in Run(w, START, prefix + first).db.findings
    ensures Twin(Run(w, START, prefix), Run(w, START, prefix + first), Run(w, START, prefix + second), x, y)
  {
    var s0, s, t := Run(w, START, prefix), Run(w, START, prefix + first), Run(w, START, prefix + second);
    if x in s0.db.findings {
      OldRowAtEnd(w, prefix, first, x);
      OldRowAtEnd(w, prefix, second, x);
      y := x;
    } else {
      NewRowAtEnd(w, prefix, first, x);
      DrainedState(w, prefix, second);
      var row := s.db.findings[x];
      y := KeyArrives(w, s0, t, row);
      NewRowAtEnd(w, prefix, second, y);
      SameUpsert(w, s0, row, t.db.findings[y]);
    }
  }

  /** A match as users see it: the topic, the finding's contents and the row. */
  datatype MatchView = MatchView(topic: int, finding: Finding, row: Match)

  ghost predicate HasRow(s: State, row: Finding) {
    exists x :: x in s.db.findings && s.db.findings[x] == row
  }

  ghost predicate HasView(s: State, v: MatchView) {
    exists k :: k in s.db.matches && k.finding in s.db.findings && v == MatchView(k.topic, s.db.findings[k.finding], s.db.matches[k])
  }

  lemma RowsCarryOver(w: World, prefix: seq<Step>, first: seq<Step>, second: seq<Step>, row: Finding)
    requires Honest(w) && Drains(w, prefix, first) && Drains(w, prefix, second)
    requires HasRow(Run(w, START, prefix + first), row)
    ensures HasRow(Run(w, START, prefix + second), row)
  {
    var x :| x in Run(w, START, prefix + first).db.findings && Run(w, START, prefix + first).db.findings[x] == row;
    var y := FindTwin(w, prefix, first, second, x);
    assert Run(w, START, prefix + second).db.findings[y] == row;
  }

  lemma DrainedMatched(w: World, s0: State, t: State, x: int)
    requires RunInv(w, s0, t) && Drained(t) && Embedded(t.db, x) && WillMatch(s0, x)
    ensures MatchedNow(w, t.db, x)
  {
    assert forall j :: LiveMatch(t, j, x) ==> Pending(t, j);
  }

  /** A match of one drained run has its twin in the other. */
  lemma TwinMatch(w: World, s0: State, s: State, t: State, k: MatchKey, y: int)
    requires RunInv(w, s0, s) && RunInv(w, s0, t) && Drained(t) && k in s.db.matches && Twin(s0, s, t, k.finding, y)
    requires Base(s0)
    ensures var l := MatchKey(k.topic, y); l in t.db.matches && t.db.matches[l] == s.db.matches[k]
  {
    var x := k.finding;
    var l := MatchKey(k.topic, y);
    if k in s0.db.matches {
      assert MatchVisible(s0.db.topics, s0.db.findings, s0.db.feeds, k);
    } else {
      assert NewMatchOk(w, s0, s.db, k);
      assert WillMatch(s0, y);
      assert Joins(w.similarity, t.db, k.topic, y);
      DrainedMatched(w, s0, t, y);
      assert l in s0.db.matches ==> MatchVisible(s0.db.topics, s0.db.findings, s0.db.feeds, l);
      assert NewMatchOk(w, s0, t.db, l);
    }
  }

  lemma ViewsCarryOver(w: World, prefix: seq<Step>, first: seq<Step>, second: seq<Step>, v: MatchView)
    requires Honest(w) && Drains(w, prefix, first) && Drains(w, prefix, second)
    requires HasView(Run(w, START, prefix + first), v)
    ensures HasView(Run(w, START, prefix + second), v)
  {
    var s0, s, t := Run(w, START, prefix), Run(w, START, prefix + first), Run(w, START, prefix + second);
    DrainedState(w, prefix, first);
    DrainedState(w, prefix, second);
    var k :| k in s.db.matches && k.finding in s.db.findings && v == MatchView(k.topic, s.db.findings[k.finding], s.db.matches[k]);
    var y := FindTwin(w, prefix, first, second, k.finding);
    TwinMatch(w, s0, s, t, k, y);
    assert MatchKey(k.topic, y) in t.db.matches;
  }

  /**
   From any reachable state with idle workers, two runs of the workers that both drain the
   queue, in whatever order, interleaving and redelivery, agree on every finding and every match.
   */
  lemma Confluent(w: World, prefix: seq<Step>, first: seq<Step>, second: seq<Step>)
    requires Honest(w) && Drains(w, prefix, first) && Drains(w, prefix, second)
    ensures forall row :: HasRow(Run(w, START, prefix + first), row) <==> HasRow(Run(w, START, prefix + second), row)
    ensures forall v :: HasView(Run(w, START, prefix + first), v) <==> HasView(Run(w, START, prefix + second), v)
  {
    forall row ensures HasRow(Run(w, START, prefix + first), row) <==> HasRow(Run(w, START, prefix + second), row) {
      if HasRow(Run(w, START, prefix + first), row) { RowsCarryOver(w, prefix, first, second, row); }
      if HasRow(Run(w, START, prefix + second), row) { RowsCarryOver(w, prefix, second, first, row); }
    }
    forall v ensures HasView(Run(w, START, prefix + first), v) <==> HasView(Run(w, START, prefix + second), v) {
      if HasView(Run(w, START, prefix + first), v) { ViewsCarryOver(w, prefix, first, second, v); }
      if HasView(Run(w, START, prefix + second), v) { ViewsCarryOver(w, prefix, second, first, v); }
    }
  }

  /**
   Such runs exist: from an idle state in which no pending job names a deleted row or an
   unserved document, the workers can drain the queue, so its outcome is defined and unique.
   */
  lemma DrainingRunExists(w: World, prefix: seq<Step>) returns (steps: seq<Step>)
    requires Honest(w) && Run(w, START, prefix).attempts == map[] && Fit(w, Run(w, START, prefix))
    ensures Drains(w, prefix, steps)
  {
    RunBase(w, START, prefix);
    steps := DrainExists(w, Run(w, START, prefix));
    RunAppend(w, START, prefix, steps);
  }

  /** In a drained state every document that was due has all its entries, each as its first occurrence. */
  lemma CrawledDocumentsAreComplete(w: World, prefix: seq<Step>, steps: seq<Step>, feed: int)
    requires Honest(w) && Drains(w, prefix, steps) && HasPending(Run(w, START, prefix), CrawlJob(feed))
    ensures var s0, s := Run(w, START, prefix), Run(w, START, prefix + steps);
            && (forall up :: up in CurrentUpserts(w, s0, feed) ==> HasKey(s.db, feed, up.ext))
            && (forall x :: x in s.db.findings && x !in s0.db.findings && s.db.findings[x].feed == feed ==>
                  exists n :: IsUpsert(CurrentUpserts(w, s0, feed), n, s.db.findings[x]))
  {
    DrainedState(w, prefix, steps);
    var s0, s := Run(w, START, prefix), Run(w, START, prefix + steps);
    PendingCrawlGetsDone(w, s0, s, feed);
    forall x | x in s.db.findings && x !in s0.db.findings && s.db.findings[x].feed == feed
      ensures exists n :: IsUpsert(CurrentUpserts(w, s0, feed), n, s.db.findings[x])
    {
      assert FromCrawl(w, s0, s.db.findings[x]);
    }
  }
}
