/**
 Confluence in full: the final states of two drained runs are the same up to a
 renaming of the ids that new findings were given.
 */
module Renaming {
  import opened Wrappers
  import opened RadarTables
  import opened RadarReach
  import opened RadarPipeline
  import opened PipelineBase
  import opened ConditionalFetch
  import opened NoLostWork
  import opened WorkerCrawls
  import opened WorkerMatches
  import opened Confluence

  /** Old rows have the same id in both states, and a new row's key is in its own state once. */
  lemma TwinIsUnique(w: World, s0: State, s: State, t: State, x: int, y: int, z: int)
    requires UniqueFindings(t.db.findings) && NewRows(w, s0, s)
    requires Twin(s0, s, t, x, y) && Twin(s0, s, t, x, z)
    ensures y == z
  {
    if x !in s0.db.findings {
      assert FromCrawl(w, s0, s.db.findings[x]);
      assert SameKey(t.db.findings[y], t.db.findings[z]);
    }
  }

  lemma TwinBack(s0: State, s: State, t: State, x: int, y: int)
    ensures Twin(s0, s, t, x, y) <==> Twin(s0, t, s, y, x)
  {
  }

  ghost predicate HasTwin(s0: State, s: State, t: State, x: int) {
    exists y :: Twin(s0, s, t, x, y)
  }

  ghost predicate AllTwins(s0: State, s: State, t: State) {
    forall x {:trigger HasTwin(s0, s, t, x)} :: x in s.db.findings ==> HasTwin(s0, s, t, x)
  }

  ghost function TwinOf(s0: State, s: State, t: State, x: int): (y: int)
    requires HasTwin(s0, s, t, x)
    ensures Twin(s0, s, t, x, y)
  {
    var y :| Twin(s0, s, t, x, y);
    y
  }

  ghost function Ids(s0: State, s: State, t: State): map<int, int>
    requires AllTwins(s0, s, t)
  {
    map x | x in s.db.findings :: TwinOf(s0, s, t, x)
  }

  // --- What a renaming does ------------------------------------------------------------------

  /** A bijection between the finding ids of s and those of t. */
  ghost predicate Bijects(ids: map<int, int>, s: State, t: State) {
    && ids.Keys == s.db.findings.Keys
    && (forall x :: x in ids ==> ids[x] in t.db.findings)
    && OneToOne(ids) && Onto(ids, t)
  }

  ghost predicate OneToOne(ids: map<int, int>) {
    forall x, y :: x in ids && y in ids && ids[x] == ids[y] ==> x == y
  }

  ghost predicate Onto(ids: map<int, int>, t: State) {
    forall y :: y in t.db.findings ==> Hit(ids, y)
  }

  predicate Hit(ids: map<int, int>, y: int) {
    exists x :: x in ids && ids[x] == y
  }

  /** Equal rows under it, and old rows under their old ids. */
  ghost predicate CarriesRows(ids: map<int, int>, s0: State, s: State, t: State) {
    forall x :: x in ids ==>
      x in s.db.findings && ids[x] in t.db.findings && s.db.findings[x] == t.db.findings[ids[x]] && (x in s0.db.findings ==> ids[x] == x)
  }

  /** The match of t that stands for a match of s. */
  function Renamed(ids: map<int, int>, k: MatchKey): MatchKey {
    if k.finding in ids then MatchKey(k.topic, ids[k.finding]) else k
  }

  predicate HitMatch(ids: map<int, int>, s: State, l: MatchKey) {
    exists k :: k in s.db.matches && Renamed(ids, k) == l
  }

  /** The matches of s, renamed, are the matches of t, rows and all. */
  ghost predicate CarriesMatches(ids: map<int, int>, s: State, t: State) {
    && (forall k :: k in s.db.matches ==> k.finding in ids && Renamed(ids, k) in t.db.matches && t.db.matches[Renamed(ids, k)] == s.db.matches[k])
    && (forall l :: l in t.db.matches ==> HitMatch(ids, s, l))
  }

  // --- The proof ----------------------------------------------------------------------------------

  /** What two drained runs from one state have in common. */
  ghost predicate Rivals(w: World, s0: State, s: State, t: State) {
    && Base(s0) && Base(s) && RunInv(w, s0, s) && Drained(s) && AllTwins(s0, s, t)
    && Base(t) && RunInv(w, s0, t) && Drained(t) && AllTwins(s0, t, s)
  }

  lemma EveryRowHasTwin(w: World, prefix: seq<Step>, first: seq<Step>, second: seq<Step>)
    requires Honest(w) && Drains(w, prefix, first) && Drains(w, prefix, second)
    ensures AllTwins(Run(w, START, prefix), Run(w, START, prefix + first), Run(w, START, prefix + second))
  {
    var s0, s, t := Run(w, START, prefix), Run(w, START, prefix + first), Run(w, START, prefix + second);
    forall x | x in s.db.findings ensures HasTwin(s0, s, t, x) {
      var y := FindTwin(w, prefix, first, second, x);
    }
  }

  lemma BothDrained(w: World, prefix: seq<Step>, first: seq<Step>, second: seq<Step>)
    requires Honest(w) && Drains(w, prefix, first) && Drains(w, prefix, second)
    ensures Rivals(w, Run(w, START, prefix), Run(w, START, prefix + first), Run(w, START, prefix + second))
  {
    DrainedState(w, prefix, first);
    DrainedState(w, prefix, second);
    EveryRowHasTwin(w, prefix, first, second);
    EveryRowHasTwin(w, prefix, second, first);
  }

  /** Every row of t is the image of its own twin. */
  lemma HitsTwin(w: World, s0: State, s: State, t: State, y: int)
    requires Rivals(w, s0, s, t) && y in t.db.findings
    ensures var x := TwinOf(s0, t, s, y); x in Ids(s0, s, t) && Ids(s0, s, t)[x] == y
  {
    var x := TwinOf(s0, t, s, y);
    TwinBack(s0, t, s, y, x);
    assert x in s.db.findings;
    TwinIsUnique(w, s0, s, t, x, TwinOf(s0, s, t, x), y);
  }

  lemma IdsInjective(w: World, s0: State, s: State, t: State, x: int, y: int)
    requires Rivals(w, s0, s, t) && x in Ids(s0, s, t) && y in Ids(s0, s, t) && Ids(s0, s, t)[x] == Ids(s0, s, t)[y]
    ensures x == y
  {
    var z := TwinOf(s0, s, t, x);
    TwinBack(s0, s, t, x, z);
    TwinBack(s0, s, t, y, z);
    TwinIsUnique(w, s0, t, s, z, x, y);
  }

  lemma IdsOneToOne(w: World, s0: State, s: State, t: State)
    requires Rivals(w, s0, s, t)
    ensures OneToOne(Ids(s0, s, t))
  {
    var ids := Ids(s0, s, t);
    forall x, y | x in ids && y in ids && ids[x] == ids[y] ensures x == y {
      IdsInjective(w, s0, s, t, x, y);
    }
  }

  lemma IdsOnto(w: World, s0: State, s: State, t: State)
    requires Rivals(w, s0, s, t)
    ensures Onto(Ids(s0, s, t), t)
  {
    forall y | y in t.db.findings ensures Hit(Ids(s0, s, t), y) {
      HitsTwin(w, s0, s, t, y);
    }
  }

  lemma IdsCarryMatch(w: World, s0: State, s: State, t: State, k: MatchKey)
    requires Rivals(w, s0, s, t) && k in s.db.matches
    ensures var ids := Ids(s0, s, t);
            k.finding in ids && Renamed(ids, k) in t.db.matches && t.db.matches[Renamed(ids, k)] == s.db.matches[k]
  {
    assert MatchVisible(s.db.topics, s.db.findings, s.db.feeds, k);
    TwinMatch(w, s0, s, t, k, TwinOf(s0, s, t, k.finding));
  }

  lemma IdsHitMatch(w: World, s0: State, s: State, t: State, l: MatchKey)
    requires Rivals(w, s0, s, t) && l in t.db.matches
    ensures HitMatch(Ids(s0, s, t), s, l)
  {
    assert MatchVisible(t.db.topics, t.db.findings, t.db.feeds, l);
    var x := TwinOf(s0, t, s, l.finding);
    TwinMatch(w, s0, t, s, l, x);
    HitsTwin(w, s0, s, t, l.finding);
    assert Renamed(Ids(s0, s, t), MatchKey(l.topic, x)) == l;
  }

  lemma IdsCarryMatches(w: World, s0: State, s: State, t: State)
    requires Rivals(w, s0, s, t)
    ensures CarriesMatches(Ids(s0, s, t), s, t)
  {
    var ids := Ids(s0, s, t);
    forall k | k in s.db.matches
      ensures k.finding in ids && Renamed(ids, k) in t.db.matches && t.db.matches[Renamed(ids, k)] == s.db.matches[k]
    {
      IdsCarryMatch(w, s0, s, t, k);
    }
    forall l | l in t.db.matches ensures HitMatch(ids, s, l) {
      IdsHitMatch(w, s0, s, t, l);
    }
  }

  lemma IdsCarryRows(s0: State, s: State, t: State)
    requires AllTwins(s0, s, t)
    ensures CarriesRows(Ids(s0, s, t), s0, s, t)
  {
    var ids := Ids(s0, s, t);
    forall x | x in ids
      ensures x in s.db.findings && ids[x] in t.db.findings && s.db.findings[x] == t.db.findings[ids[x]]
      ensures x in s0.db.findings ==> ids[x] == x
    {
      assert Twin(s0, s, t, x, ids[x]);
    }
  }

  lemma RivalsAgree(w: World, s0: State, s: State, t: State) returns (ids: map<int, int>)
    requires Rivals(w, s0, s, t)
    ensures Bijects(ids, s, t) && CarriesRows(ids, s0, s, t) && CarriesMatches(ids, s, t)
  {
    ids := Ids(s0, s, t);
    IdsOneToOne(w, s0, s, t);
    IdsOnto(w, s0, s, t);
    IdsCarryRows(s0, s, t);
    IdsCarryMatches(w, s0, s, t);
  }

  /**
   From any reachable state with idle workers: two runs of the workers that drain the queue end in states that
   differ only in the ids of the findings they added.  A bijection of the ids, fixed on the findings there
   before, carries the rows of one to the rows of the other and its matches, with their similarity and state,
   exactly to the other's matches.
   */
  lemma ConfluentUpToIds(w: World, prefix: seq<Step>, first: seq<Step>, second: seq<Step>) returns (ids: map<int, int>)
    requires Honest(w) && Drains(w, prefix, first) && Drains(w, prefix, second)
    ensures var s0, s, t := Run(w, START, prefix), Run(w, START, prefix + first), Run(w, START, prefix + second);
            Bijects(ids, s, t) && CarriesRows(ids, s0, s, t) && CarriesMatches(ids, s, t)
  {
    BothDrained(w, prefix, first, second);
    ids := RivalsAgree(w, Run(w, START, prefix), Run(w, START, prefix + first), Run(w, START, prefix + second));
  }
}
