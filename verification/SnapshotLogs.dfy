/**
 What overlapping optimistic mutations really show: each failure puts back the
 whole list as it was when that mutation started, whatever has happened since.
 */
module SnapshotLogs {
  import opened Mutations

  /** The changes a list shows: a start appends one, a failure goes back to the changes shown at that start. */
  function LogOf<K>(touches: K -> bool): Callbacks<seq<K>, K, seq<K>> {
    Callbacks((shown: seq<K>, k: K) => if touches(k) then shown + [k] else shown,
              (shown: seq<K>, k: K) => shown,
              (shown: seq<K>, k: K, before: seq<K>) => if touches(k) then before else shown)
  }

  /** A part of the cache that is snapshotted and put back as a whole. */
  datatype Part<!C, !K, !V, !S> = Part(view: C -> V, patch: (V, K) -> V, touches: K -> bool, shape: C -> S)

  ghost predicate Patches<C(!new), K(!new), R, V, S>(cb: Callbacks<C, K, R>, part: Part<C, K, V, S>) {
    forall c: C, k: K ::
      && part.view(cb.mutate(c, k)) == (if part.touches(k) then part.patch(part.view(c), k) else part.view(c))
      && part.shape(cb.mutate(c, k)) == part.shape(c)
  }

  ghost predicate PutsBack<C(!new), K(!new), R, V, S>(cb: Callbacks<C, K, R>, part: Part<C, K, V, S>) {
    forall c: C, d: C, k: K :: part.shape(c) == part.shape(d) ==> BackTo(cb, part, c, d, k)
  }

  ghost predicate BackTo<C, K, R, V, S>(cb: Callbacks<C, K, R>, part: Part<C, K, V, S>, c: C, d: C, k: K) {
    var after := cb.restore(d, k, cb.snapshot(c, k));
    && part.view(after) == (if part.touches(k) then part.view(c) else part.view(d))
    && part.shape(after) == part.shape(d)
  }

  function Replay<C, K, V, S>(part: Part<C, K, V, S>, view: V, shown: seq<K>): V {
    if shown == [] then view else part.patch(Replay(part, view, shown[..|shown| - 1]), shown[|shown| - 1])
  }

  /** A cache of the starting shape whose part shows these changes. */
  ghost predicate ShowsLog<C, K, V, S>(part: Part<C, K, V, S>, start: C, c: C, shown: seq<K>) {
    part.shape(c) == part.shape(start) && part.view(c) == Replay(part, part.view(start), shown)
  }

  ghost predicate OpenMirrors<C(!new), K, R, V, S>(
      cb: Callbacks<C, K, R>, part: Part<C, K, V, S>, start: C, a: Open<K, R>, b: Open<K, seq<K>>) {
    exists c: C :: ShowsLog(part, start, c, b.ctx) && a == Open(b.change, cb.snapshot(c, b.change))
  }

  ghost predicate Mirrors<C(!new), K, R, V, S>(
      cb: Callbacks<C, K, R>, part: Part<C, K, V, S>, start: C, s: State<C, K, R>, l: State<seq<K>, K, seq<K>>) {
    && ShowsLog(part, start, s.cache, l.cache) && s.open.Keys == l.open.Keys
    && forall m :: m in s.open ==> OpenMirrors(cb, part, start, s.open[m], l.open[m])
  }

  lemma StartMirrors<C(!new), K(!new), R, V, S>(
      cb: Callbacks<C, K, R>, part: Part<C, K, V, S>, start: C, s: State<C, K, R>, l: State<seq<K>, K, seq<K>>, m: nat, change: K)
    requires Patches(cb, part) && Mirrors(cb, part, start, s, l) && m !in s.open
    ensures Mirrors(cb, part, start, Apply(cb, s, Mutate(m, change)), Apply(LogOf(part.touches), l, Mutate(m, change)))
  {
    var t, n := Apply(cb, s, Mutate(m, change)), Apply(LogOf(part.touches), l, Mutate(m, change));
    assert part.touches(change) ==> n.cache == l.cache + [change] && n.cache[..|n.cache| - 1] == l.cache;
    assert ShowsLog(part, start, t.cache, n.cache);
    assert OpenMirrors(cb, part, start, t.open[m], n.open[m]);
  }

  lemma FailMirrors<C(!new), K(!new), R, V, S>(
      cb: Callbacks<C, K, R>, part: Part<C, K, V, S>, start: C, s: State<C, K, R>, l: State<seq<K>, K, seq<K>>, m: nat)
    requires PutsBack(cb, part) && Mirrors(cb, part, start, s, l) && m in s.open
    ensures Mirrors(cb, part, start, Apply(cb, s, Fail(m)), Apply(LogOf(part.touches), l, Fail(m)))
  {
    assert OpenMirrors(cb, part, start, s.open[m], l.open[m]);
    var c: C :| ShowsLog(part, start, c, l.open[m].ctx) && s.open[m] == Open(l.open[m].change, cb.snapshot(c, l.open[m].change));
    assert BackTo(cb, part, c, s.cache, l.open[m].change);
  }

  lemma StepMirrors<C(!new), K(!new), R, V, S>(
      cb: Callbacks<C, K, R>, part: Part<C, K, V, S>, start: C, s: State<C, K, R>, l: State<seq<K>, K, seq<K>>, step: Step<K>)
    requires Patches(cb, part) && PutsBack(cb, part) && Mirrors(cb, part, start, s, l)
    ensures Mirrors(cb, part, start, Apply(cb, s, step), Apply(LogOf(part.touches), l, step))
  {
    match step
    case Mutate(m, change) => if m !in s.open { StartMirrors(cb, part, start, s, l, m, change); }
    case Fail(m) => if m in s.open { FailMirrors(cb, part, start, s, l, m); }
    case Succeed(m) =>
  }

  lemma {:induction false} RunMirrors<C(!new), K(!new), R, V, S>(
      cb: Callbacks<C, K, R>, part: Part<C, K, V, S>, start: C, s: State<C, K, R>, l: State<seq<K>, K, seq<K>>, steps: seq<Step<K>>)
    requires Patches(cb, part) && PutsBack(cb, part) && Mirrors(cb, part, start, s, l)
    ensures Mirrors(cb, part, start, Run(cb, s, steps), Run(LogOf(part.touches), l, steps))
    decreases |steps|
  {
    if steps != [] {
      StepMirrors(cb, part, start, s, l, steps[0]);
      RunMirrors(cb, part, start, Apply(cb, s, steps[0]), Apply(LogOf(part.touches), l, steps[0]), steps[1..]);
    }
  }

  /** The changes shown after a run. */
  function Shown<K>(touches: K -> bool, steps: seq<Step<K>>): seq<K> {
    Run(LogOf(touches), State([], map[]), steps).cache
  }

  /** In every interleaving, with no condition, the part shows exactly the changes of the log. */
  lemma PartShowsLog<C(!new), K(!new), R, V, S>(cb: Callbacks<C, K, R>, part: Part<C, K, V, S>, cache: C, steps: seq<Step<K>>)
    requires Patches(cb, part) && PutsBack(cb, part)
    ensures part.view(Run(cb, State(cache, map[]), steps).cache) == Replay(part, part.view(cache), Shown(part.touches, steps))
  {
    RunMirrors(cb, part, cache, State(cache, map[]), State([], map[]), steps);
  }

  // --- When the log is right ---------------------------------------------------------------------

  function Changes<K>(log: seq<Entry<K>>): seq<K> {
    seq(|log|, i requires 0 <= i < |log| => log[i].change)
  }

  function Always<K>(): K -> bool {
    k => true
  }

  /** What shows is what has started and not failed. */
  ghost predicate ShowsSurvivors<K>(steps: seq<Step<K>>) {
    Shown(Always(), steps) == Changes(Survivors([], {}, steps))
  }

  lemma LogUndoes<K(!new)>()
    ensures Undoes(LogOf<K>(Always()))
  {
  }

  lemma {:induction false} LogPatches<K(!new)>(log: seq<Entry<K>>)
    ensures PatchAll(LogOf(Always()), [], log) == Changes(log)
    decreases |log|
  {
    if log != [] {
      LogPatches(log[..|log| - 1]);
      assert Changes(log) == Changes(log[..|log| - 1]) + [log[|log| - 1].change];
    }
  }

  lemma {:induction false} PrefixInOrder<K>(log: seq<Entry<K>>, open: set<nat>, steps: seq<Step<K>>, n: nat)
    requires n <= |steps| && LastFailsFirst(log, open, steps)
    ensures LastFailsFirst(log, open, steps[..n])
    decreases |steps|
  {
    if n > 0 {
      assert steps[..n][1..] == steps[1..][..n - 1];
      PrefixInOrder(NextLog(log, open, steps[0]), NextOpen(open, steps[0]), steps[1..], n - 1);
    }
  }

  lemma {:induction false} WithoutLength<K>(log: seq<Entry<K>>, m: nat, i: nat)
    requires LatestAt(log, m, i)
    ensures |Without(log, m)| == |log| - 1
    decreases |log|
  {
    if i < |log| - 1 {
      WithoutLength(log[..|log| - 1], m, i);
    }
  }

  /** A failure out of order drops the survivors that started after it. */
  lemma OutOfOrderDrops<K(!new)>(s: State<seq<K>, K, seq<K>>, log: seq<Entry<K>>, m: nat)
    requires Tracks(LogOf(Always()), [], s, log) && m in s.open
    requires log == [] || log[|log| - 1].mutation != m
    ensures Apply(LogOf(Always()), s, Fail(m)).cache != Changes(Without(log, m))
  {
    assert OpenOk(LogOf(Always()), [], s, log, m);
    var i: nat :| LatestAt(log, m, i) && s.open[m] == OpenAfter(LogOf(Always()), [], log, i);
    LogPatches(log[..i]);
    WithoutLength(log, m, i);
  }

  lemma {:induction false} DisorderShows<K(!new)>(s: State<seq<K>, K, seq<K>>, log: seq<Entry<K>>, steps: seq<Step<K>>) returns (n: nat)
    requires Tracks(LogOf(Always()), [], s, log) && !LastFailsFirst(log, s.open.Keys, steps)
    ensures n <= |steps|
    ensures Run(LogOf(Always()), s, steps[..n]).cache != Changes(Survivors(log, s.open.Keys, steps[..n]))
    decreases |steps|
  {
    var t := Apply(LogOf(Always()), s, steps[0]);
    if steps[0].Fail? && steps[0].mutation in s.open && (log == [] || log[|log| - 1].mutation != steps[0].mutation) {
      n := 1;
      OutOfOrderDrops(s, log, steps[0].mutation);
      assert steps[..1][1..] == [] && steps[..1][0] == steps[0];
      assert Run(LogOf(Always()), s, steps[..1]) == Run(LogOf(Always()), t, []);
      assert Survivors(log, s.open.Keys, steps[..1]) == Survivors(Without(log, steps[0].mutation), NextOpen(s.open.Keys, steps[0]), []);
    } else {
      LogUndoes<K>();
      assert LastFailsFirst(log, s.open.Keys, [steps[0]]);
      StepTracks(LogOf(Always()), [], s, log, steps[0]);
      n := DisorderShows(t, NextLog(log, s.open.Keys, steps[0]), steps[1..]);
      n := n + 1;
      assert steps[..n][1..] == steps[1..][..n - 1] && steps[..n][0] == steps[0];
    }
  }

  /**
   The list shows at all times exactly the changes that have started and not failed if and only if
   whoever fails is always the latest of them.
   */
  lemma ShowsSurvivorsIff<K(!new)>(steps: seq<Step<K>>)
    ensures (forall n :: 0 <= n <= |steps| ==> ShowsSurvivors(steps[..n])) <==> LastFailsFirst([], {}, steps)
  {
    var s: State<seq<K>, K, seq<K>> := State([], map[]);
    assert s.open.Keys == {};
    if LastFailsFirst([], {}, steps) {
      LogUndoes<K>();
      forall n | 0 <= n <= |steps| ensures ShowsSurvivors(steps[..n]) {
        PrefixInOrder([], {}, steps, n);
        SurvivorsShow(LogOf<K>(Always()), [], steps[..n]);
        LogPatches(Survivors([], {}, steps[..n]));
      }
    } else {
      var n := DisorderShows(s, [], steps);
      assert !ShowsSurvivors(steps[..n]);
    }
  }
}
