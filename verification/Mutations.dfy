/**
 Optimistic mutations of a cache, whatever it holds: each start patches the cache
 and keeps a snapshot, a failure puts the snapshot back, and a success leaves the
 cache to the next fetch.  Starts and ends of different mutations interleave freely.
 */
module Mutations {

  /** onMutate, the snapshot it returns, and onError. */
  datatype Callbacks<!C, !K, !R> = Callbacks(mutate: (C, K) -> C, snapshot: (C, K) -> R, restore: (C, K, R) -> C)

  /** Failing at once undoes the patch. */
  ghost predicate Undoes<C(!new), K(!new), R>(cb: Callbacks<C, K, R>) {
    forall c: C, k: K :: cb.restore(cb.mutate(c, k), k, cb.snapshot(c, k)) == c
  }

  datatype Open<K, R> = Open(change: K, ctx: R)

  datatype State<C, K, R> = State(cache: C, open: map<nat, Open<K, R>>)

  datatype Step<K> = Mutate(mutation: nat, change: K) | Fail(mutation: nat) | Succeed(mutation: nat)

  function Apply<C, K, R>(cb: Callbacks<C, K, R>, s: State<C, K, R>, step: Step<K>): State<C, K, R> {
    match step
    case Mutate(m, change) =>
      if m in s.open then s
      else State(cb.mutate(s.cache, change), s.open[m := Open(change, cb.snapshot(s.cache, change))])
    case Fail(m) =>
      if m in s.open then State(cb.restore(s.cache, s.open[m].change, s.open[m].ctx), s.open - {m}) else s
    case Succeed(m) => s.(open := s.open - {m})
  }

  function Run<C, K, R>(cb: Callbacks<C, K, R>, s: State<C, K, R>, steps: seq<Step<K>>): State<C, K, R>
    decreases |steps|
  {
    if steps == [] then s else Run(cb, Apply(cb, s, steps[0]), steps[1..])
  }

  lemma {:induction false} RunSnoc<C, K, R>(cb: Callbacks<C, K, R>, s: State<C, K, R>, steps: seq<Step<K>>, step: Step<K>)
    ensures Run(cb, s, steps + [step]) == Apply(cb, Run(cb, s, steps), step)
    decreases |steps|
  {
    if steps == [] {
      assert steps + [step] == [step] && [step][1..] == [];
      assert Run(cb, s, [step]) == Run(cb, Apply(cb, s, step), []);
    } else {
      assert (steps + [step])[1..] == steps[1..] + [step];
      RunSnoc(cb, Apply(cb, s, steps[0]), steps[1..], step);
    }
  }

  // --- Which patches should show ------------------------------------------------------------

  datatype Entry<K> = Entry(mutation: nat, change: K)

  /** The log without the latest entry of this mutation. */
  function Without<K>(log: seq<Entry<K>>, m: nat): seq<Entry<K>> {
    if log == [] then []
    else if log[|log| - 1].mutation == m then log[..|log| - 1]
    else Without(log[..|log| - 1], m) + [log[|log| - 1]]
  }

  function NextOpen<K>(open: set<nat>, step: Step<K>): set<nat> {
    match step
    case Mutate(m, _) => open + {m}
    case Fail(m) => open - {m}
    case Succeed(m) => open - {m}
  }

  function NextLog<K>(log: seq<Entry<K>>, open: set<nat>, step: Step<K>): seq<Entry<K>> {
    match step
    case Mutate(m, change) => if m in open then log else log + [Entry(m, change)]
    case Fail(m) => if m in open then Without(log, m) else log
    case Succeed(_) => log
  }

  /** The changes that have started and not failed, in the order they started. */
  function Survivors<K>(log: seq<Entry<K>>, open: set<nat>, steps: seq<Step<K>>): seq<Entry<K>>
    decreases |steps|
  {
    if steps == [] then log else Survivors(NextLog(log, open, steps[0]), NextOpen(open, steps[0]), steps[1..])
  }

  function PatchAll<C, K, R>(cb: Callbacks<C, K, R>, cache: C, log: seq<Entry<K>>): C {
    if log == [] then cache else cb.mutate(PatchAll(cb, cache, log[..|log| - 1]), log[|log| - 1].change)
  }

  /** Whoever fails is the latest to have started of those that have not failed. */
  predicate LastFailsFirst<K>(log: seq<Entry<K>>, open: set<nat>, steps: seq<Step<K>>)
    decreases |steps|
  {
    steps != [] ==>
      && (steps[0].Fail? && steps[0].mutation in open ==> log != [] && log[|log| - 1].mutation == steps[0].mutation)
      && LastFailsFirst(NextLog(log, open, steps[0]), NextOpen(open, steps[0]), steps[1..])
  }

  // --- They do show ---------------------------------------------------------------------------

  predicate LatestAt<K>(log: seq<Entry<K>>, m: nat, i: nat) {
    i < |log| && log[i].mutation == m && forall j :: i < j < |log| ==> log[j].mutation != m
  }

  /** An open mutation's snapshot was taken of what the changes before it show. */
  ghost predicate OpenOk<C, K, R>(cb: Callbacks<C, K, R>, start: C, s: State<C, K, R>, log: seq<Entry<K>>, m: nat) {
    m in s.open && exists i: nat :: LatestAt(log, m, i) && s.open[m] == OpenAfter(cb, start, log, i)
  }

  function OpenAfter<C, K, R>(cb: Callbacks<C, K, R>, start: C, log: seq<Entry<K>>, i: nat): Open<K, R>
    requires i < |log|
  {
    Open(log[i].change, cb.snapshot(PatchAll(cb, start, log[..i]), log[i].change))
  }

  ghost predicate Tracks<C, K, R>(cb: Callbacks<C, K, R>, start: C, s: State<C, K, R>, log: seq<Entry<K>>) {
    s.cache == PatchAll(cb, start, log) && forall m :: m in s.open ==> OpenOk(cb, start, s, log, m)
  }

  lemma StartTracks<C(!new), K(!new), R>(cb: Callbacks<C, K, R>, start: C, s: State<C, K, R>, log: seq<Entry<K>>, m: nat, change: K)
    requires Tracks(cb, start, s, log) && m !in s.open
    ensures Tracks(cb, start, Apply(cb, s, Mutate(m, change)), log + [Entry(m, change)])
  {
    var t, after := Apply(cb, s, Mutate(m, change)), log + [Entry(m, change)];
    assert after[..|log|] == log;
    forall o | o in t.open ensures OpenOk(cb, start, t, after, o) {
      if o == m {
        assert LatestAt(after, m, |log|) && t.open[m] == OpenAfter(cb, start, after, |log|);
      } else {
        assert OpenOk(cb, start, s, log, o);
        var i: nat :| LatestAt(log, o, i) && s.open[o] == OpenAfter(cb, start, log, i);
        assert after[..i] == log[..i];
        assert LatestAt(after, o, i) && t.open[o] == OpenAfter(cb, start, after, i);
      }
    }
  }

  lemma FailTracks<C(!new), K(!new), R>(cb: Callbacks<C, K, R>, start: C, s: State<C, K, R>, log: seq<Entry<K>>, m: nat)
    requires Undoes(cb) && Tracks(cb, start, s, log) && m in s.open
    requires log != [] && log[|log| - 1].mutation == m
    ensures Tracks(cb, start, Apply(cb, s, Fail(m)), Without(log, m))
  {
    var n := |log| - 1;
    var t := Apply(cb, s, Fail(m));
    FailRestores(cb, start, s, log, m);
    forall o | o in t.open ensures OpenOk(cb, start, t, log[..n], o) {
      OpenStaysOk(cb, start, s, t, log, o);
    }
  }

  /** The latest survivor's snapshot was taken of what the others show. */
  lemma FailRestores<C(!new), K(!new), R>(cb: Callbacks<C, K, R>, start: C, s: State<C, K, R>, log: seq<Entry<K>>, m: nat)
    requires Undoes(cb) && Tracks(cb, start, s, log) && m in s.open
    requires log != [] && log[|log| - 1].mutation == m
    ensures Apply(cb, s, Fail(m)).cache == PatchAll(cb, start, log[..|log| - 1])
  {
    assert OpenOk(cb, start, s, log, m);
    var k: nat :| LatestAt(log, m, k) && s.open[m] == OpenAfter(cb, start, log, k);
    assert k == |log| - 1;
  }

  lemma OpenStaysOk<C, K, R>(cb: Callbacks<C, K, R>, start: C, s: State<C, K, R>, t: State<C, K, R>, log: seq<Entry<K>>, o: nat)
    requires OpenOk(cb, start, s, log, o) && o in t.open && t.open[o] == s.open[o]
    requires log != [] && log[|log| - 1].mutation != o
    ensures OpenOk(cb, start, t, log[..|log| - 1], o)
  {
    var after := log[..|log| - 1];
    var i: nat :| LatestAt(log, o, i) && s.open[o] == OpenAfter(cb, start, log, i);
    assert i < |after| && after[..i] == log[..i];
    assert LatestAt(after, o, i) && t.open[o] == OpenAfter(cb, start, after, i);
  }

  lemma StepTracks<C(!new), K(!new), R>(cb: Callbacks<C, K, R>, start: C, s: State<C, K, R>, log: seq<Entry<K>>, step: Step<K>)
    requires Undoes(cb) && Tracks(cb, start, s, log) && LastFailsFirst(log, s.open.Keys, [step])
    ensures Tracks(cb, start, Apply(cb, s, step), NextLog(log, s.open.Keys, step))
    ensures Apply(cb, s, step).open.Keys == NextOpen(s.open.Keys, step)
  {
    match step
    case Mutate(m, change) =>
      if m !in s.open { StartTracks(cb, start, s, log, m, change); }
    case Fail(m) =>
      if m in s.open { FailTracks(cb, start, s, log, m); }
    case Succeed(m) =>
      var t := Apply(cb, s, step);
      forall o | o in t.open ensures OpenOk(cb, start, t, log, o) {
        assert OpenOk(cb, start, s, log, o);
      }
  }

  lemma {:induction false} RunTracks<C(!new), K(!new), R>(
      cb: Callbacks<C, K, R>, start: C, s: State<C, K, R>, log: seq<Entry<K>>, steps: seq<Step<K>>)
    requires Undoes(cb) && Tracks(cb, start, s, log) && LastFailsFirst(log, s.open.Keys, steps)
    ensures Tracks(cb, start, Run(cb, s, steps), Survivors(log, s.open.Keys, steps))
    decreases |steps|
  {
    if steps != [] {
      assert LastFailsFirst(log, s.open.Keys, [steps[0]]);
      StepTracks(cb, start, s, log, steps[0]);
      RunTracks(cb, start, Apply(cb, s, steps[0]), NextLog(log, s.open.Keys, steps[0]), steps[1..]);
    }
  }

  /**
   In every interleaving in which the latest surviving change is always the one to fail, the cache shows
   exactly the changes that have not failed, in the order they were made.
   */
  lemma SurvivorsShow<C(!new), K(!new), R>(cb: Callbacks<C, K, R>, cache: C, steps: seq<Step<K>>)
    requires Undoes(cb) && LastFailsFirst([], {}, steps)
    ensures Run(cb, State(cache, map[]), steps).cache == PatchAll(cb, cache, Survivors([], {}, steps))
  {
    var s: State<C, K, R> := State(cache, map[]);
    assert s.open.Keys == {};
    RunTracks(cb, cache, s, [], steps);
  }

  // --- Nested failures --------------------------------------------------------------------------

  /** A failing mutation, and those that start and fail while it is under way. */
  datatype Failing<K> = Failing(change: K, inside: seq<Failing<K>>)

  function Exec<C, K, R>(cb: Callbacks<C, K, R>, cache: C, m: Failing<K>): C
    decreases m, 0
  {
    cb.restore(ExecAll(cb, cb.mutate(cache, m.change), m.inside), m.change, cb.snapshot(cache, m.change))
  }

  function ExecAll<C, K, R>(cb: Callbacks<C, K, R>, cache: C, ms: seq<Failing<K>>): C
    decreases ms, 1
  {
    if ms == [] then cache else ExecAll(cb, Exec(cb, cache, ms[0]), ms[1..])
  }

  /** Any properly nested sequence of failing mutations leaves the cache exactly as it was. */
  lemma {:induction false} NestedFailuresRestore<C(!new), K(!new), R>(cb: Callbacks<C, K, R>, cache: C, ms: seq<Failing<K>>)
    requires Undoes(cb)
    ensures ExecAll(cb, cache, ms) == cache
    decreases ms
  {
    if ms != [] {
      NestedFailuresRestore(cb, cb.mutate(cache, ms[0].change), ms[0].inside);
      assert Exec(cb, cache, ms[0]) == cache;
      NestedFailuresRestore(cb, cache, ms[1..]);
    }
  }

  // --- Two mutations that overlap ----------------------------------------------------------------

  /** x starts, y starts, then the two end as given. */
  function Crossed<C, K, R>(cb: Callbacks<C, K, R>, cache: C, x: K, y: K, one: Step<K>, two: Step<K>): C {
    Run(cb, State(cache, map[]), [Mutate(0, x), Mutate(1, y), one, two]).cache
  }

  lemma CrossedSteps<C, K, R>(cb: Callbacks<C, K, R>, cache: C, x: K, y: K, one: Step<K>, two: Step<K>)
    ensures var s := Apply(cb, Apply(cb, State(cache, map[]), Mutate(0, x)), Mutate(1, y));
            Crossed(cb, cache, x, y, one, two) == Apply(cb, Apply(cb, s, one), two).cache
  {
    var s := State(cache, map[]);
    RunSnoc(cb, s, [], Mutate(0, x));
    RunSnoc(cb, s, [Mutate(0, x)], Mutate(1, y));
    RunSnoc(cb, s, [Mutate(0, x), Mutate(1, y)], one);
    RunSnoc(cb, s, [Mutate(0, x), Mutate(1, y), one], two);
    assert [] + [Mutate(0, x)] == [Mutate(0, x)];
    assert [Mutate(0, x)] + [Mutate(1, y)] == [Mutate(0, x), Mutate(1, y)];
    assert [Mutate(0, x), Mutate(1, y)] + [one] == [Mutate(0, x), Mutate(1, y), one];
    assert [Mutate(0, x), Mutate(1, y), one] + [two] == [Mutate(0, x), Mutate(1, y), one, two];
  }

  /** The cache two overlapping mutations leave, however they end. */
  lemma CrossedEnds<C(!new), K(!new), R>(cb: Callbacks<C, K, R>, cache: C, x: K, y: K)
    requires Undoes(cb)
    ensures var one := cb.mutate(cache, x);
            var two := cb.mutate(one, y);
            && Crossed(cb, cache, x, y, Succeed(0), Succeed(1)) == Crossed(cb, cache, x, y, Succeed(1), Succeed(0)) == two
            && Crossed(cb, cache, x, y, Succeed(0), Fail(1)) == Crossed(cb, cache, x, y, Fail(1), Succeed(0)) == one
            && Crossed(cb, cache, x, y, Fail(1), Fail(0)) == cache
    ensures var one := cb.mutate(cache, x);
            var lost := cb.restore(cb.mutate(one, y), x, cb.snapshot(cache, x));
            && Crossed(cb, cache, x, y, Fail(0), Succeed(1)) == Crossed(cb, cache, x, y, Succeed(1), Fail(0)) == lost
            && Crossed(cb, cache, x, y, Fail(0), Fail(1)) == cb.restore(lost, y, cb.snapshot(one, y))
  {
    CrossedSteps(cb, cache, x, y, Succeed(0), Succeed(1));
    CrossedSteps(cb, cache, x, y, Succeed(1), Succeed(0));
    CrossedSteps(cb, cache, x, y, Succeed(0), Fail(1));
    CrossedSteps(cb, cache, x, y, Fail(1), Succeed(0));
    CrossedSteps(cb, cache, x, y, Fail(1), Fail(0));
    CrossedSteps(cb, cache, x, y, Fail(0), Succeed(1));
    CrossedSteps(cb, cache, x, y, Succeed(1), Fail(0));
    CrossedSteps(cb, cache, x, y, Fail(0), Fail(1));
  }
}
