/**
 The radar pipeline as a protocol.

 Jobs sit in a queue that delivers them at least once, in any order and to any
 number of concurrent attempts.  An attempt is a worker's body cut into atomic
 steps: one store statement, one queue insert or one fetch each.  A step that is
 not enabled changes nothing, so every list of steps is a run.
 */
module RadarPipeline {
  import opened Wrappers
  import opened Text
  import opened RadarTables
  import opened RadarReach
  import opened Crawler

  /** What lies outside the system: origins, HTML stripping, the embedder and vector similarity. */
  datatype World = World(
    serves: (string, Doc) -> bool,
    notModified: (string, string, string, Doc) -> bool,
    summarize: string -> string,
    embed: string -> Vec,
    similarity: Similarity)

  datatype Job = CrawlJob(feed: int) | EmbedJob(finding: int) | MatchJob(finding: int)

  /** Where an attempt stands: the state it read and the step it takes next. */
  datatype Pc =
    | Begin
    | Fetching(feed: int, url: string, etag: string, lastModified: string)
    | Upserting(feed: int, doc: Doc, next: nat)
    | EnqueuingEmbed(feed: int, doc: Doc, next: nat, finding: int)
    | Marking304(feed: int, etag: string, lastModified: string)
    | Embedding(finding: int, vec: Vec)
    | EnqueuingMatch(finding: int)
    | Returned

  datatype Attempt = Attempt(job: int, pc: Pc)

  /**
   jobs holds every job ever inserted and done those completed.  The last three
   fields are history: findings whose embed job, or match job, was never inserted
   because the attempt died after its write, and findings that went through a
   match step since their embedding was last written.
   */
  datatype State = State(
    db: Db, jobs: map<int, Job>, nextJob: int, done: set<int>, attempts: map<int, Attempt>,
    docs: map<string, Doc>, lostEmbeds: set<int>, lostMatches: set<int>, matched: set<int>)

  const START := State(EMPTY_DB, map[], 0, {}, map[], map[], {}, {}, {})

  datatype Step =
    | Schedule(feed: int)
    | Deliver(attempt: int, job: int)
    | Advance(attempt: int, now: int, showEtag: bool, showLastModified: bool)
    | FetchError(attempt: int, now: int, message: string)
    | Crash(attempt: int)
    | Publish(url: string, doc: Doc)
    | User(op: UserOp)

  function Upserts(w: World, feed: int, doc: Doc): seq<FindingUpsert> {
    ToUpserts(feed, doc.items, w.summarize)
  }

  function Header(s: Option<string>): string {
    s.GetOr("")
  }

  predicate Pending(s: State, j: int) {
    j in s.jobs && j !in s.done
  }

  // --- The workers' steps -----------------------------------------------------------

  function Goto(s: State, a: int, pc: Pc): State
    requires a in s.attempts
  {
    s.(attempts := s.attempts[a := s.attempts[a].(pc := pc)])
  }

  /** The worker returned an error: the job stays in the queue. */
  function Abort(s: State, a: int): State {
    s.(attempts := s.attempts - {a})
  }

  function Enqueue(s: State, job: Job): State {
    s.(jobs := s.jobs[s.nextJob := job], nextJob := s.nextJob + 1)
  }

  /** GetFeedForFetch. */
  function BeginCrawl(s: State, a: int, feed: int): State
    requires a in s.attempts
  {
    if feed !in s.db.feeds then Abort(s, a)
    else
      var f := s.db.feeds[feed];
      Goto(s, a, Fetching(feed, f.url, Header(f.etag), Header(f.lastModified)))
  }

  /** GetFindingForEmbed, then the guards, then the embedder. */
  function BeginEmbed(w: World, s: State, a: int, x: int): State
    requires a in s.attempts
  {
    if x !in s.db.findings then Abort(s, a)
    else if s.db.findings[x].embedding.Some? then Goto(s, a, Returned)
    else if EmbedText(s.db.findings[x]) == "" then Goto(s, a, Returned)
    else Goto(s, a, Embedding(x, w.embed(EmbedText(s.db.findings[x]))))
  }

  /** MatchFindingToTopics. */
  function BeginMatch(w: World, s: State, a: int, x: int): State
    requires a in s.attempts
  {
    var seen := if x in s.db.findings && s.db.findings[x].embedding.Some? then {x} else {};
    Goto(s.(db := MatchFinding(w.similarity, s.db, x), matched := s.matched + seen), a, Returned)
  }

  /** A conditional request: 304 keeps only the headers the origin chose to repeat. */
  function Fetch(w: World, s: State, a: int, pc: Pc, showEtag: bool, showLastModified: bool): State
    requires a in s.attempts && pc.Fetching?
  {
    if pc.url !in s.docs then Abort(s, a)
    else
      var doc := s.docs[pc.url];
      if w.notModified(pc.url, pc.etag, pc.lastModified, doc)
      then Goto(s, a, Marking304(pc.feed, if showEtag then doc.etag else "", if showLastModified then doc.lastModified else ""))
      else Goto(s, a, Upserting(pc.feed, doc, 0))
  }

  /** One turn of the crawl loop up to the enqueue, or the final MarkFeedFetched. */
  function Upsert(w: World, s: State, a: int, pc: Pc, now: int): State
    requires a in s.attempts && pc.Upserting?
  {
    var ups := Upserts(w, pc.feed, pc.doc);
    if pc.next >= |ups| then
      Goto(s.(db := MarkFetched(s.db, pc.feed, NonEmpty(pc.doc.etag), NonEmpty(pc.doc.lastModified), NonEmpty(TrimSpace(pc.doc.title)), now)),
           a, Returned)
    else if pc.feed !in s.db.feeds then Abort(s, a)
    else if Conflicts(s.db, ups[pc.next]) then Goto(s, a, Upserting(pc.feed, pc.doc, pc.next + 1))
    else Goto(s.(db := InsertFinding(s.db, ups[pc.next])), a, EnqueuingEmbed(pc.feed, pc.doc, pc.next, s.db.nextFinding))
  }

  /** UpdateFindingEmbedding. */
  function WriteEmbedding(s: State, a: int, pc: Pc): State
    requires a in s.attempts && pc.Embedding?
  {
    if pc.finding !in s.db.findings then Abort(s, a)
    else Goto(s.(db := SetEmbedding(s.db, pc.finding, pc.vec), matched := s.matched - {pc.finding}), a, EnqueuingMatch(pc.finding))
  }

  function AdvanceAttempt(w: World, s: State, a: int, now: int, showEtag: bool, showLastModified: bool): State
    requires a in s.attempts && s.attempts[a].job in s.jobs
  {
    var pc := s.attempts[a].pc;
    match pc
    case Begin =>
      (match s.jobs[s.attempts[a].job]
       case CrawlJob(feed) => BeginCrawl(s, a, feed)
       case EmbedJob(x) => BeginEmbed(w, s, a, x)
       case MatchJob(x) => BeginMatch(w, s, a, x))
    case Fetching(_, _, _, _) => Fetch(w, s, a, pc, showEtag, showLastModified)
    case Upserting(_, _, _) => Upsert(w, s, a, pc, now)
    case EnqueuingEmbed(feed, doc, next, x) => Goto(Enqueue(s, EmbedJob(x)), a, Upserting(feed, doc, next + 1))
    case Marking304(feed, etag, lastModified) =>
      Goto(s.(db := MarkFetched(s.db, feed, NonEmpty(etag), NonEmpty(lastModified), None, now)), a, Returned)
    case Embedding(_, _) => WriteEmbedding(s, a, pc)
    case EnqueuingMatch(x) => Goto(Enqueue(s, MatchJob(x)), a, Returned)
    case Returned => Abort(s.(done := s.done + {s.attempts[a].job}), a)
  }

  /** The process dies or a call fails: an item written but not yet enqueued is lost. */
  function Die(s: State, a: int): State
    requires a in s.attempts
  {
    match s.attempts[a].pc
    case EnqueuingEmbed(_, _, _, x) => Abort(s.(lostEmbeds := s.lostEmbeds + {x}), a)
    case EnqueuingMatch(x) => Abort(s.(lostMatches := s.lostMatches + {x}), a)
    case _ => Abort(s, a)
  }

  function Apply(w: World, s: State, step: Step): State {
    match step
    case Schedule(feed) => if feed < s.db.nextFeed then Enqueue(s, CrawlJob(feed)) else s
    case Deliver(a, j) => if a !in s.attempts && Pending(s, j) then s.(attempts := s.attempts[a := Attempt(j, Begin)]) else s
    case Advance(a, now, showEtag, showLastModified) =>
      if a in s.attempts && s.attempts[a].job in s.jobs then AdvanceAttempt(w, s, a, now, showEtag, showLastModified) else s
    case FetchError(a, now, message) =>
      if a in s.attempts && s.attempts[a].pc.Fetching?
      then Abort(s.(db := MarkError(s.db, s.attempts[a].pc.feed, message, now)), a) else s
    case Crash(a) => if a in s.attempts then Die(s, a) else s
    case Publish(url, doc) => if w.serves(url, doc) then s.(docs := s.docs[url := doc]) else s
    case User(op) => s.(db := Do(s.db, op))
  }

  function Run(w: World, s: State, steps: seq<Step>): State
    decreases |steps|
  {
    if steps == [] then s else Run(w, Apply(w, s, steps[0]), steps[1..])
  }

  /** A run can be cut anywhere. */
  lemma {:induction false} RunAppend(w: World, s: State, first: seq<Step>, second: seq<Step>)
    ensures Run(w, s, first + second) == Run(w, Run(w, s, first), second)
    decreases |first|
  {
    if first == [] {
      assert first + second == second;
    } else {
      RunAppend(w, Apply(w, s, first[0]), first[1..], second);
      assert (first + second)[1..] == first[1..] + second;
    }
  }
}
