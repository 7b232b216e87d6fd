/**
 The four River workers as they are written: bodies that call the store, the
 origins and the queue one after the other while everybody else keeps running.
 Each body is proved to be a run of the protocol, so what holds of every run
 holds of the tables these workers leave behind.
 */
module RadarWorkers {
  import opened Wrappers
  import opened Text
  import opened RadarTables
  import opened Crawler
  import opened RadarPipeline
  import opened PipelineBase
  import opened RadarStore

  /**
   What happens before a worker's next call gets through: the steps others take,
   whether the call fails, the clock and the headers a 304 repeats.
   */
  datatype Turn = Turn(others: seq<Step>, fails: bool, now: int, showEtag: bool, showLastModified: bool)

  datatype WorkError = CallFailed | Missing | FetchFailed(message: string)

  /** A step no worker takes in the name of attempt a. */
  predicate Foreign(step: Step, a: int) {
    step.Deliver? || step.Advance? || step.FetchError? || step.Crash? ==> step.attempt != a
  }

  lemma ForeignStep(w: World, s: State, step: Step, a: int)
    requires Base(s) && Foreign(step, a) && a in s.attempts
    ensures var t := Apply(w, s, step);
            && a in t.attempts && t.attempts[a] == s.attempts[a]
            && s.attempts[a].job in t.jobs && t.jobs[s.attempts[a].job] == s.jobs[s.attempts[a].job]
  {
    StepBase(w, s, step);
    assert AttemptOk(s, s.attempts[a]);
  }

  lemma RunSnoc(w: World, s: State, steps: seq<Step>, step: Step)
    ensures Run(w, s, steps + [step]) == Apply(w, Run(w, s, steps), step)
  {
    RunAppend(w, s, steps, [step]);
    assert Run(w, Run(w, s, steps), [step]) == Apply(w, Run(w, s, steps), step);
  }

  /** What one turn of the crawl loop does to the tables and to its attempt. */
  lemma UpsertTurn(w: World, s: State, a: int, now: int, feed: int, doc: Doc, next: nat)
    requires a in s.attempts && s.attempts[a].job in s.jobs && s.attempts[a].pc == Upserting(feed, doc, next)
    requires next < |Upserts(w, feed, doc)|
    ensures var t, up := Apply(w, s, Advance(a, now, true, true)), Upserts(w, feed, doc)[next];
            && up.feed == feed && t.jobs == s.jobs && t.nextJob == s.nextJob && t.docs == s.docs
            && t.db == (if feed in s.db.feeds then InsertFinding(s.db, up) else s.db)
            && (a in t.attempts <==> feed in s.db.feeds)
            && (a in t.attempts ==>
                  && t.attempts[a].job == s.attempts[a].job
                  && t.attempts[a].pc == if Conflicts(s.db, up) then Upserting(feed, doc, next + 1)
                                         else EnqueuingEmbed(feed, doc, next, s.db.nextFinding))
  {
  }

  predicate Increasing(xs: seq<int>) {
    forall i, j :: 0 <= i < j < |xs| ==> xs[i] < xs[j]
  }

  /** slots[i], inserted no earlier than first, holds the crawl of ids[i]. */
  predicate CrawlJobsAt(jobs: map<int, Job>, first: int, slots: seq<int>, ids: seq<int>) {
    && |slots| <= |ids|
    && forall i :: 0 <= i < |slots| ==>
         first <= slots[i] && slots[i] in jobs && jobs[slots[i]] == CrawlJob(ids[i])
  }

  /** The deployment one worker runs in.  state is the protocol's view of it, script what the others do. */
  class System {
    const w: World
    const store: RadarStore
    const queue: JobQueue
    const origins: Origins
    var state: State
    var script: seq<Turn>
    ghost var trace: seq<Step>
    ghost var failures: nat

    constructor (w: World)
      ensures Valid() && trace == [] && failures == 0 && this.w == w && script == []
      ensures fresh(store) && fresh(queue) && fresh(origins)
    {
      this.w := w;
      store := new RadarStore();
      queue := new JobQueue();
      origins := new Origins();
      state, script, trace, failures := START, [], [], 0;
    }

    ghost predicate Mirrors(s: State)
      reads store, queue, origins
    {
      store.View() == s.db && queue.jobs == s.jobs && queue.next == s.nextJob && origins.docs == s.docs
    }

    /** The objects hold what a run from the empty deployment produced. */
    ghost predicate Valid()
      reads this, store, queue, origins
    {
      Mirrors(state) && state == Run(w, START, trace)
    }

    lemma ValidBase()
      requires Valid()
      ensures Base(state)
    {
      RunBase(w, START, trace);
    }

    /** Attempt a runs the given job and stands at pc. */
    ghost predicate At(a: int, job: Job, pc: Pc)
      reads this
    {
      a in state.attempts && state.attempts[a].pc == pc && state.attempts[a].job in state.jobs
      && state.jobs[state.attempts[a].job] == job
    }

    /** A step of somebody else. */
    method Other(step: Step, a: Option<int>, ghost job: Job, ghost pc: Pc)
      requires state == Run(w, START, trace) && (a.Some? ==> At(a.value, job, pc) && Foreign(step, a.value))
      modifies this`state, this`trace
      ensures state == Run(w, START, trace) && (a.Some? ==> At(a.value, job, pc))
      ensures Later(old(trace), old(state))
    {
      RunBase(w, START, trace);
      if a.Some? { ForeignStep(w, state, step, a.value); }
      RunSnoc(w, START, trace, step);
      StepBase(w, state, step);
      state, trace := Apply(w, state, step), trace + [step];
    }

    /** One turn of everybody else; when some attempt waits, nobody moves it. */
    method Others(a: Option<int>, ghost job: Job, ghost pc: Pc) returns (turn: Turn)
      requires Valid() && (a.Some? ==> At(a.value, job, pc))
      modifies this, store, queue, origins
      ensures Valid() && (a.Some? ==> At(a.value, job, pc))
      ensures Later(old(trace), old(state)) && failures == old(failures) + if turn.fails then 1 else 0
    {
      turn := Turn([], false, 0, true, true);
      if script != [] {
        turn, script := script[0], script[1..];
      }
      for i := 0 to |turn.others|
        invariant state == Run(w, START, trace) && (a.Some? ==> At(a.value, job, pc))
        invariant Later(old(trace), old(state))
        invariant unchanged(store, queue, origins) && failures == old(failures)
      {
        var step := turn.others[i];
        if a == None || Foreign(step, a.value) {
          Other(step, a, job, pc);
        }
      }
      Settle();
      if turn.fails {
        failures := failures + 1;
      }
    }

    /** Puts what the others did into the tables, the queue and the origins. */
    method Settle()
      modifies store, queue, origins
      ensures Mirrors(state)
    {
      store.feeds, store.subs, store.findings := state.db.feeds, state.db.subs, state.db.findings;
      store.topics, store.matches := state.db.topics, state.db.matches;
      store.nextFeed, store.nextFinding, store.nextTopic := state.db.nextFeed, state.db.nextFinding, state.db.nextTopic;
      queue.jobs, queue.next, origins.docs := state.jobs, state.nextJob, state.docs;
    }

    /** The run went on from there and no job was taken out of the queue. */
    ghost predicate Later(before: seq<Step>, s: State)
      reads this
    {
      before <= trace && s.nextJob <= state.nextJob && s.db.nextFeed <= state.db.nextFeed
      && forall j :: j in s.jobs ==> j in state.jobs && state.jobs[j] == s.jobs[j]
    }

    /** Waits until attempt a's next call is answered. */
    method Await(a: int, ghost job: Job, ghost pc: Pc) returns (turn: Turn)
      requires Valid() && At(a, job, pc)
      modifies this, store, queue, origins
      ensures Valid() && At(a, job, pc)
      ensures Later(old(trace), old(state)) && failures == old(failures) + if turn.fails then 1 else 0
    {
      turn := Others(Some(a), job, pc);
    }

    /** Waits for a call whose failure makes the worker give up. */
    method Call(a: int, ghost job: Job, ghost pc: Pc) returns (turn: Turn)
      requires Valid() && At(a, job, pc)
      modifies this, store, queue, origins
      ensures Valid() && Later(old(trace), old(state))
      ensures failures == old(failures) + if turn.fails then 1 else 0
      ensures if turn.fails then a !in state.attempts else At(a, job, pc)
    {
      turn := Await(a, job, pc);
      if turn.fails {
        Took(Crash(a));
      }
    }

    /** Records the protocol step the last call amounts to. */
    method Took(step: Step)
      requires state == Run(w, START, trace) && Mirrors(Apply(w, state, step))
      modifies this`state, this`trace
      ensures Valid() && state == Apply(w, old(state), step) && trace == old(trace) + [step]
    {
      RunSnoc(w, START, trace, step);
      state, trace := Apply(w, state, step), trace + [step];
    }
  }

  class CrawlFeedWorker {
    const sys: System

    constructor (sys: System)
      ensures this.sys == sys
    {
      this.sys := sys;
    }

    method Work(a: int, feed: int) returns (r: Result<(), WorkError>)
      requires sys.Valid() && sys.At(a, CrawlJob(feed), Begin)
      modifies sys, sys.store, sys.queue, sys.origins
      ensures sys.Valid() && old(sys.trace) <= sys.trace
      ensures r.Ok? ==> sys.At(a, CrawlJob(feed), Returned)
      ensures r.Err? ==> a !in sys.state.attempts
      ensures r == Err(CallFailed) ==> sys.failures > old(sys.failures)
      ensures r == Err(Missing) ==> feed !in sys.store.feeds
      ensures r.Err? && r.error.FetchFailed? && feed in sys.store.feeds ==>
                sys.failures > old(sys.failures) || sys.store.feeds[feed].lastError == Some(r.error.message)
    {
      var turn := sys.Call(a, CrawlJob(feed), Begin);
      if turn.fails {
        return Err(CallFailed);
      }
      var row := sys.store.GetFeedForFetch(feed);
      sys.Took(Advance(a, turn.now, turn.showEtag, turn.showLastModified));
      if row.Err? {
        return Err(Missing);
      }
      var etag, lastModified := Header(row.value.etag), Header(row.value.lastModified);
      r := Fetch(a, feed, row.value.url, etag, lastModified);
    }

    method Fetch(a: int, feed: int, url: string, etag: string, lastModified: string) returns (r: Result<(), WorkError>)
      requires sys.Valid() && sys.At(a, CrawlJob(feed), Fetching(feed, url, etag, lastModified))
      modifies sys, sys.store, sys.queue, sys.origins
      ensures sys.Valid() && old(sys.trace) <= sys.trace && old(sys.failures) <= sys.failures
      ensures r.Ok? ==> sys.At(a, CrawlJob(feed), Returned)
      ensures r.Err? ==> a !in sys.state.attempts
      ensures r == Err(CallFailed) ==> sys.failures > old(sys.failures)
      ensures r == Err(Missing) ==> feed !in sys.store.feeds
      ensures r.Err? && r.error.FetchFailed? && feed in sys.store.feeds ==>
                sys.failures > old(sys.failures) || sys.store.feeds[feed].lastError == Some(r.error.message)
    {
      ghost var job, pc := CrawlJob(feed), Fetching(feed, url, etag, lastModified);
      var turn := sys.Await(a, job, pc);
      var res := FetchResult.Failed("unreachable");
      if !turn.fails {
        res := sys.origins.Fetch(sys.w, url, etag, lastModified, turn.showEtag, turn.showLastModified);
      }
      if res.Failed? {
        MarkError(a, feed, url, etag, lastModified, res.message);
        return Err(FetchFailed(res.message));
      }
      sys.Took(Advance(a, turn.now, turn.showEtag, turn.showLastModified));
      if res.NotModified? {
        r := MarkNotModified(a, feed, res.etag, res.lastModified);
      } else {
        r := StoreDoc(a, feed, res.doc);
      }
    }

    /** The error is recorded when that call succeeds; its own failure is ignored. */
    method MarkError(a: int, feed: int, url: string, etag: string, lastModified: string, message: string)
      requires sys.Valid() && sys.At(a, CrawlJob(feed), Fetching(feed, url, etag, lastModified))
      modifies sys, sys.store, sys.queue, sys.origins
      ensures sys.Valid() && old(sys.trace) <= sys.trace && old(sys.failures) <= sys.failures
      ensures a !in sys.state.attempts
      ensures feed in sys.store.feeds ==>
                sys.failures > old(sys.failures) || sys.store.feeds[feed].lastError == Some(message)
    {
      var turn := sys.Call(a, CrawlJob(feed), Fetching(feed, url, etag, lastModified));
      if turn.fails {
        return;
      }
      sys.store.MarkFeedError(feed, message, turn.now);
      sys.Took(FetchError(a, turn.now, message));
    }

    method MarkNotModified(a: int, feed: int, etag: string, lastModified: string) returns (r: Result<(), WorkError>)
      requires sys.Valid() && sys.At(a, CrawlJob(feed), Marking304(feed, etag, lastModified))
      modifies sys, sys.store, sys.queue, sys.origins
      ensures sys.Valid() && old(sys.trace) <= sys.trace && old(sys.failures) <= sys.failures
      ensures r.Ok? ==> sys.At(a, CrawlJob(feed), Returned)
      ensures r.Err? ==> r.error == CallFailed && a !in sys.state.attempts && sys.failures > old(sys.failures)
    {
      var turn := sys.Call(a, CrawlJob(feed), Marking304(feed, etag, lastModified));
      if turn.fails {
        return Err(CallFailed);
      }
      sys.store.MarkFeedFetched(feed, NonEmpty(etag), NonEmpty(lastModified), None, turn.now);
      sys.Took(Advance(a, turn.now, true, true));
      r := Ok(());
    }

    /** The upsert loop, and the validators last of all. */
    method StoreDoc(a: int, feed: int, doc: Doc) returns (r: Result<(), WorkError>)
      requires sys.Valid() && sys.At(a, CrawlJob(feed), Upserting(feed, doc, 0))
      modifies sys, sys.store, sys.queue, sys.origins
      ensures sys.Valid() && old(sys.trace) <= sys.trace && old(sys.failures) <= sys.failures
      ensures r.Ok? ==> sys.At(a, CrawlJob(feed), Returned)
      ensures r.Err? ==> a !in sys.state.attempts && !r.error.FetchFailed?
      ensures r == Err(CallFailed) ==> sys.failures > old(sys.failures)
      ensures r == Err(Missing) ==> feed !in sys.store.feeds
    {
      var ups := BuildUpserts(feed, doc.items, sys.w.summarize);
      for next := 0 to |ups|
        invariant sys.Valid() && sys.At(a, CrawlJob(feed), Upserting(feed, doc, next))
        invariant old(sys.trace) <= sys.trace && old(sys.failures) <= sys.failures
      {
        r := StoreItem(a, feed, doc, next, ups[next]);
        if r.Err? {
          return;
        }
      }
      r := MarkFetched(a, feed, doc, |ups|);
    }

    method MarkFetched(a: int, feed: int, doc: Doc, ghost next: nat) returns (r: Result<(), WorkError>)
      requires sys.Valid() && sys.At(a, CrawlJob(feed), Upserting(feed, doc, next)) && next >= |Upserts(sys.w, feed, doc)|
      modifies sys, sys.store, sys.queue, sys.origins
      ensures sys.Valid() && old(sys.trace) <= sys.trace && old(sys.failures) <= sys.failures
      ensures r.Ok? ==> sys.At(a, CrawlJob(feed), Returned)
      ensures r.Err? ==> r.error == CallFailed && a !in sys.state.attempts && sys.failures > old(sys.failures)
    {
      var turn := sys.Call(a, CrawlJob(feed), Upserting(feed, doc, next));
      if turn.fails {
        return Err(CallFailed);
      }
      sys.store.MarkFeedFetched(feed, NonEmpty(doc.etag), NonEmpty(doc.lastModified), NonEmpty(TrimSpace(doc.title)), turn.now);
      sys.Took(Advance(a, turn.now, true, true));
      r := Ok(());
    }

    /** Only a created finding is handed to the embedder. */
    method StoreItem(a: int, feed: int, doc: Doc, next: nat, up: FindingUpsert) returns (r: Result<(), WorkError>)
      requires sys.Valid() && sys.At(a, CrawlJob(feed), Upserting(feed, doc, next))
      requires next < |Upserts(sys.w, feed, doc)| && up == Upserts(sys.w, feed, doc)[next]
      modifies sys, sys.store, sys.queue, sys.origins
      ensures sys.Valid() && old(sys.trace) <= sys.trace && old(sys.failures) <= sys.failures
      ensures r.Ok? ==> sys.At(a, CrawlJob(feed), Upserting(feed, doc, next + 1))
      ensures r.Err? ==> a !in sys.state.attempts && !r.error.FetchFailed?
      ensures r == Err(CallFailed) ==> sys.failures > old(sys.failures)
      ensures r == Err(Missing) ==> feed !in sys.store.feeds
    {
      var row := UpsertItem(a, feed, doc, next, up);
      if row.Err? {
        return Err(row.error);
      }
      if !row.value.created {
        return Ok(());
      }
      r := HandOver(a, feed, doc, next, row.value.id);
    }

    method UpsertItem(a: int, feed: int, doc: Doc, next: nat, up: FindingUpsert) returns (r: Result<Upserted, WorkError>)
      requires sys.Valid() && sys.At(a, CrawlJob(feed), Upserting(feed, doc, next))
      requires next < |Upserts(sys.w, feed, doc)| && up == Upserts(sys.w, feed, doc)[next]
      modifies sys, sys.store, sys.queue, sys.origins
      ensures sys.Valid() && old(sys.trace) <= sys.trace && old(sys.failures) <= sys.failures
      ensures r.Ok? ==> sys.At(a, CrawlJob(feed), if r.value.created then EnqueuingEmbed(feed, doc, next, r.value.id)
                                                   else Upserting(feed, doc, next + 1))
      ensures r.Err? ==> a !in sys.state.attempts && !r.error.FetchFailed?
      ensures r == Err(CallFailed) ==> sys.failures > old(sys.failures)
      ensures r == Err(Missing) ==> feed !in sys.store.feeds
    {
      var turn := sys.Call(a, CrawlJob(feed), Upserting(feed, doc, next));
      if turn.fails {
        return Err(CallFailed);
      }
      UpsertTurn(sys.w, sys.state, a, turn.now, feed, doc, next);
      var row := sys.store.UpsertFinding(up);
      sys.Took(Advance(a, turn.now, true, true));
      if row.Err? {
        return Err(Missing);
      }
      r := Ok(row.value);
    }

    method HandOver(a: int, feed: int, doc: Doc, next: nat, x: int) returns (r: Result<(), WorkError>)
      requires sys.Valid() && sys.At(a, CrawlJob(feed), EnqueuingEmbed(feed, doc, next, x))
      modifies sys, sys.store, sys.queue, sys.origins
      ensures sys.Valid() && old(sys.trace) <= sys.trace && old(sys.failures) <= sys.failures
      ensures r.Ok? ==> sys.At(a, CrawlJob(feed), Upserting(feed, doc, next + 1))
      ensures r.Err? ==> r.error == CallFailed && a !in sys.state.attempts && sys.failures > old(sys.failures)
    {
      var turn := sys.Call(a, CrawlJob(feed), EnqueuingEmbed(feed, doc, next, x));
      if turn.fails {
        return Err(CallFailed);
      }
      sys.ValidBase();
      sys.queue.Insert(EmbedJob(x));
      sys.Took(Advance(a, turn.now, true, true));
      r := Ok(());
    }
  }

  class EmbedFindingWorker {
    const sys: System

    constructor (sys: System)
      ensures this.sys == sys
    {
      this.sys := sys;
    }

    method Work(a: int, x: int) returns (r: Result<(), WorkError>)
      requires sys.Valid() && sys.At(a, EmbedJob(x), Begin)
      modifies sys, sys.store, sys.queue, sys.origins
      ensures sys.Valid() && old(sys.trace) <= sys.trace
      ensures r.Ok? ==> sys.At(a, EmbedJob(x), Returned)
      ensures r.Err? ==> a !in sys.state.attempts
      ensures r == Err(CallFailed) ==> sys.failures > old(sys.failures)
      ensures r == Err(Missing) ==> x !in sys.store.findings
    {
      var turn := sys.Call(a, EmbedJob(x), Begin);
      if turn.fails {
        return Err(CallFailed);
      }
      var f := sys.store.GetFindingForEmbed(x);
      sys.Took(Advance(a, turn.now, true, true));
      if f.Err? {
        return Err(Missing);
      }
      if f.value.embedding.Some? {
        return Ok(());
      }
      var text := EmbedText(f.value);
      if text == "" {
        return Ok(());
      }
      var vec := sys.w.embed(text);
      r := Save(a, x, vec);
    }

    method Save(a: int, x: int, vec: Vec) returns (r: Result<(), WorkError>)
      requires sys.Valid() && sys.At(a, EmbedJob(x), Embedding(x, vec))
      modifies sys, sys.store, sys.queue, sys.origins
      ensures sys.Valid() && old(sys.trace) <= sys.trace && old(sys.failures) <= sys.failures
      ensures r.Ok? ==> sys.At(a, EmbedJob(x), Returned)
      ensures r.Err? ==> a !in sys.state.attempts
      ensures r == Err(CallFailed) ==> sys.failures > old(sys.failures)
      ensures r == Err(Missing) ==> x !in sys.store.findings
      ensures r.Err? ==> !r.error.FetchFailed?
    {
      var turn := sys.Call(a, EmbedJob(x), Embedding(x, vec));
      if turn.fails {
        return Err(CallFailed);
      }
      var saved := sys.store.UpdateFindingEmbedding(x, vec);
      sys.Took(Advance(a, turn.now, true, true));
      if saved.Err? {
        return Err(Missing);
      }
      r := HandOver(a, x);
    }

    method HandOver(a: int, x: int) returns (r: Result<(), WorkError>)
      requires sys.Valid() && sys.At(a, EmbedJob(x), EnqueuingMatch(x))
      modifies sys, sys.store, sys.queue, sys.origins
      ensures sys.Valid() && old(sys.trace) <= sys.trace && old(sys.failures) <= sys.failures
      ensures r.Ok? ==> sys.At(a, EmbedJob(x), Returned)
      ensures r.Err? ==> r.error == CallFailed && a !in sys.state.attempts && sys.failures > old(sys.failures)
    {
      var turn := sys.Call(a, EmbedJob(x), EnqueuingMatch(x));
      if turn.fails {
        return Err(CallFailed);
      }
      sys.ValidBase();
      sys.queue.Insert(MatchJob(x));
      sys.Took(Advance(a, turn.now, true, true));
      r := Ok(());
    }
  }

  /** A match job's one step. */
  lemma MatchStep(w: World, s: State, a: int, x: int, now: int)
    requires a in s.attempts && s.attempts[a].pc == Begin && s.attempts[a].job in s.jobs && s.jobs[s.attempts[a].job] == MatchJob(x)
    ensures var t := Apply(w, s, Advance(a, now, true, true));
            && t.db == MatchFinding(w.similarity, s.db, x) && t.jobs == s.jobs && t.nextJob == s.nextJob && t.docs == s.docs
            && t.attempts == s.attempts[a := s.attempts[a].(pc := Returned)]
  {
  }

  class MatchFindingWorker {
    const sys: System

    constructor (sys: System)
      ensures this.sys == sys
    {
      this.sys := sys;
    }

    method Work(a: int, x: int) returns (r: Result<(), WorkError>)
      requires sys.Valid() && sys.At(a, MatchJob(x), Begin)
      modifies sys, sys.store, sys.queue, sys.origins
      ensures sys.Valid() && old(sys.trace) <= sys.trace
      ensures r.Ok? ==> sys.At(a, MatchJob(x), Returned)
      ensures r.Err? ==> r.error == CallFailed && a !in sys.state.attempts && sys.failures > old(sys.failures)
    {
      var turn := sys.Call(a, MatchJob(x), Begin);
      if turn.fails {
        return Err(CallFailed);
      }
      var n := sys.store.MatchFindingToTopics(sys.w.similarity, x);
      MatchStep(sys.w, sys.state, a, x, turn.now);
      sys.Took(Advance(a, turn.now, true, true));
      r := Ok(());
    }
  }

  const BATCH_SIZE := 100

  class ScheduleCrawlsWorker {
    const sys: System

    constructor (sys: System)
      ensures this.sys == sys
    {
      this.sys := sys;
    }

    method List() returns (r: Result<(), WorkError>, ids: seq<int>, ghost now: int)
      requires sys.Valid()
      modifies sys, sys.store, sys.queue, sys.origins
      ensures sys.Valid() && sys.Later(old(sys.trace), old(sys.state))
      ensures r.Ok? ==> ListsDue(sys.state.db.feeds, now, BATCH_SIZE, ids)
      ensures forall i :: 0 <= i < |ids| ==> ids[i] < sys.state.db.nextFeed
      ensures r.Err? ==> r.error == CallFailed
      ensures sys.failures == old(sys.failures) + if r.Err? then 1 else 0
    {
      var turn := sys.Others(None, CrawlJob(0), Begin);
      ids, now := [], turn.now;
      if turn.fails {
        return Err(CallFailed), ids, now;
      }
      ids := sys.store.ListDueFeeds(BATCH_SIZE, turn.now);
      sys.ValidBase();
      forall i | 0 <= i < |ids| ensures ids[i] < sys.state.db.nextFeed {
        assert ids[i] in ids && sys.store.View().feeds == sys.state.db.feeds;
      }
      r := Ok(());
    }

    method Enqueue(feed: int) returns (slot: Option<int>)
      requires sys.Valid() && feed < sys.state.db.nextFeed
      modifies sys, sys.store, sys.queue, sys.origins
      ensures sys.Valid() && sys.Later(old(sys.trace), old(sys.state))
      ensures sys.failures == old(sys.failures) + if slot == None then 1 else 0
      ensures slot.Some? ==> && old(sys.queue.next) <= slot.value < sys.queue.next
                             && slot.value in sys.queue.jobs && sys.queue.jobs[slot.value] == CrawlJob(feed)
    {
      var turn := sys.Others(None, CrawlJob(0), Begin);
      if turn.fails {
        return None;
      }
      sys.ValidBase();
      slot := Some(sys.queue.next);
      sys.queue.Insert(CrawlJob(feed));
      sys.Took(Schedule(feed));
    }

    /**
     One crawl job per listed feed, in the order listed.  listed is the run
     up to that query and slots the jobs inserted for the first |slots| of ids.
     */
    method Work() returns (r: Result<(), WorkError>, ids: seq<int>, ghost listed: seq<Step>, ghost now: int, ghost slots: seq<int>)
      requires sys.Valid()
      modifies sys, sys.store, sys.queue, sys.origins
      ensures sys.Valid() && old(sys.trace) <= listed <= sys.trace
      ensures r.Ok? ==> ListsDue(Run(sys.w, START, listed).db.feeds, now, BATCH_SIZE, ids) && |slots| == |ids|
      ensures Increasing(slots)
      ensures CrawlJobsAt(sys.queue.jobs, old(sys.queue.next), slots, ids)
      ensures r.Err? ==> r.error == CallFailed && sys.failures > old(sys.failures)
    {
      slots := [];
      r, ids, now := List();
      listed := sys.trace;
      if r.Err? {
        return;
      }
      for i := 0 to |ids|
        invariant sys.Valid() && old(sys.trace) <= listed <= sys.trace && sys.failures >= old(sys.failures)
        invariant forall k :: 0 <= k < |ids| ==> ids[k] < sys.state.db.nextFeed
        invariant |slots| == i && Increasing(slots) && (forall k :: 0 <= k < i ==> slots[k] < sys.queue.next)
        invariant old(sys.queue.next) <= sys.queue.next
        invariant CrawlJobsAt(sys.queue.jobs, old(sys.queue.next), slots, ids)
      {
        var slot := Enqueue(ids[i]);
        if slot == None {
          return Err(CallFailed), ids, listed, now, slots;
        }
        slots := slots + [slot.value];
      }
      r := Ok(());
    }
  }
}
