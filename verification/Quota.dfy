/**
 The personal feed quota: AddUserFeed counts, then inserts, in separate round
 trips, so calls that overlap can exceed it by one less than their number.
 */
module Quota {
  import opened Wrappers
  import opened RadarTables
  import opened RadarReach
  import opened RadarStore

  /** The round trip a call of AddUserFeed makes next. */
  datatype Call =
    | Looking(url: string, interval: int)
    | Counting(url: string, interval: int)
    | Inserting(url: string, interval: int)
    | Subscribing(feed: int)

  datatype State = State(db: Db, calls: map<nat, Call>)

  datatype Step =
    | Start(call: nat, url: string, interval: int)
    | Next(call: nat, now: int)
    | Fail(call: nat)
    | Other(op: UserOp)

  /** The catalog feed of a url. */
  ghost function CatalogFeed(db: Db, url: string): (f: int)
    requires UrlTaken(db, url, None)
    ensures f in db.feeds && db.feeds[f].url == url && db.feeds[f].owner == None
  {
    var f :| f in db.feeds && db.feeds[f].url == url && db.feeds[f].owner == None;
    f
  }

  function Goto(s: State, c: nat, call: Call): State {
    s.(calls := s.calls[c := call])
  }

  function Return(s: State, c: nat): State {
    s.(calls := s.calls - {c})
  }

  /** One round trip of a call by the given user. */
  ghost function Advance(max: int, user: int, s: State, c: nat, now: int): State
    requires c in s.calls
  {
    match s.calls[c]
    case Looking(url, interval) =>
      if UrlTaken(s.db, url, None) then Goto(s, c, Subscribing(CatalogFeed(s.db, url)))
      else Goto(s, c, Counting(url, interval))
    case Counting(url, interval) =>
      if |Owned(s.db, user)| >= max then Return(s, c) else Goto(s, c, Inserting(url, interval))
    case Inserting(url, interval) =>
      if UrlTaken(s.db, url, Some(user)) then Return(s, c)
      else Goto(s.(db := AddFeed(s.db, url, Some(user), interval)), c, Subscribing(s.db.nextFeed))
    case Subscribing(feed) => Return(s.(db := Subscribe(s.db, user, feed, now)), c)
  }

  /** Everybody may do anything except insert a personal feed of this user by another way. */
  predicate Elsewhere(user: int, op: UserOp) {
    !(op.OpAddFeed? && op.owner == Some(user))
  }

  ghost function Apply(max: int, user: int, s: State, step: Step): State {
    match step
    case Start(c, url, interval) => if c in s.calls then s else Goto(s, c, Looking(url, interval))
    case Next(c, now) => if c in s.calls then Advance(max, user, s, c, now) else s
    case Fail(c) => Return(s, c)
    case Other(op) => if Elsewhere(user, op) then s.(db := Do(s.db, op)) else s
  }

  ghost function Run(max: int, user: int, s: State, steps: seq<Step>): State
    decreases |steps|
  {
    if steps == [] then s else Run(max, user, Apply(max, user, s, steps[0]), steps[1..])
  }

  /** No more than k calls of the user are ever open at once. */
  ghost predicate Overlap(max: int, user: int, s: State, steps: seq<Step>, k: nat)
    decreases |steps|
  {
    |s.calls| <= k && (steps != [] ==> Overlap(max, user, Apply(max, user, s, steps[0]), steps[1..], k))
  }

  // --- The bound -----------------------------------------------------------------------

  /** Calls that passed the check and have not inserted yet. */
  function Passed(s: State): set<nat> {
    set c | c in s.calls && s.calls[c].Inserting?
  }

  ghost predicate Bounded(max: int, user: int, s: State, k: nat) {
    |Owned(s.db, user)| + |Passed(s)| <= max + k - 1
  }

  lemma FewerFeeds(s: State, t: State, user: int)
    requires Owned(t.db, user) <= Owned(s.db, user) && Passed(t) <= Passed(s)
    ensures |Owned(t.db, user)| + |Passed(t)| <= |Owned(s.db, user)| + |Passed(s)|
  {
    SubsetSize(Owned(t.db, user), Owned(s.db, user));
    SubsetSize(Passed(t), Passed(s));
  }

  lemma ElsewhereOwned(db: Db, op: UserOp, user: int)
    requires Elsewhere(user, op)
    ensures Owned(Do(db, op), user) <= Owned(db, user)
  {
  }

  lemma CheckKeepsBound(max: int, user: int, s: State, c: nat, now: int, k: nat)
    requires c in s.calls && s.calls[c].Counting? && Bounded(max, user, s, k) && |s.calls| <= k
    ensures Bounded(max, user, Advance(max, user, s, c, now), k)
  {
    var t := Advance(max, user, s, c, now);
    if |Owned(s.db, user)| < max {
      SubsetSize(Passed(t), t.calls.Keys);
      assert t.calls.Keys == s.calls.Keys;
    } else {
      FewerFeeds(s, t, user);
    }
  }

  lemma InsertKeepsBound(max: int, user: int, s: State, c: nat, now: int, k: nat)
    requires c in s.calls && s.calls[c].Inserting? && Bounded(max, user, s, k)
    ensures Bounded(max, user, Advance(max, user, s, c, now), k)
  {
    var t := Advance(max, user, s, c, now);
    var before, after := Owned(s.db, user), Owned(t.db, user);
    assert c in Passed(s);
    assert forall d :: d in Passed(t) <==> d in Passed(s) && d != c;
    assert Passed(t) == Passed(s) - {c};
    assert after <= before + {s.db.nextFeed};
    SubsetSize(after, before + {s.db.nextFeed});
  }

  /** Every other step creates no feed and lets no further call pass its check. */
  lemma OtherStepFewer(max: int, user: int, s: State, step: Step)
    requires !(step.Next? && step.call in s.calls && (s.calls[step.call].Counting? || s.calls[step.call].Inserting?))
    ensures var t := Apply(max, user, s, step); Owned(t.db, user) <= Owned(s.db, user) && Passed(t) <= Passed(s)
  {
    if step.Other? && Elsewhere(user, step.op) { ElsewhereOwned(s.db, step.op, user); }
  }

  lemma StepKeepsBound(max: int, user: int, s: State, step: Step, k: nat)
    requires Bounded(max, user, s, k) && |s.calls| <= k
    ensures Bounded(max, user, Apply(max, user, s, step), k)
  {
    var t := Apply(max, user, s, step);
    if step.Next? && step.call in s.calls && s.calls[step.call].Counting? {
      CheckKeepsBound(max, user, s, step.call, step.now, k);
    } else if step.Next? && step.call in s.calls && s.calls[step.call].Inserting? {
      InsertKeepsBound(max, user, s, step.call, step.now, k);
    } else {
      OtherStepFewer(max, user, s, step);
      FewerFeeds(s, t, user);
    }
  }

  lemma {:induction false} RunKeepsBound(max: int, user: int, s: State, steps: seq<Step>, k: nat)
    requires Bounded(max, user, s, k) && Overlap(max, user, s, steps, k)
    ensures Bounded(max, user, Run(max, user, s, steps), k)
    decreases |steps|
  {
    if steps != [] {
      StepKeepsBound(max, user, s, steps[0], k);
      RunKeepsBound(max, user, Apply(max, user, s, steps[0]), steps[1..], k);
    }
  }

  /** With at most k overlapping calls the user never owns more than max + k - 1 feeds, whatever else happens. */
  lemma QuotaBound(max: int, user: int, db: Db, steps: seq<Step>, k: nat)
    requires k >= 1 && |Owned(db, user)| <= max
    requires Overlap(max, user, State(db, map[]), steps, k)
    ensures |Owned(Run(max, user, State(db, map[]), steps).db, user)| <= max + k - 1
  {
    assert Passed(State(db, map[])) == {};
    RunKeepsBound(max, user, State(db, map[]), steps, k);
  }

  // --- The bound is reached --------------------------------------------------------------

  /** Different addresses, none of them in the catalog or among the user's feeds. */
  ghost predicate FreshUrls(db: Db, user: int, urls: seq<string>, from: nat) {
    && (forall i, j :: 0 <= i < j < |urls| ==> urls[i] != urls[j])
    && (forall i :: from <= i < |urls| ==> !UrlTaken(db, urls[i], None) && !UrlTaken(db, urls[i], Some(user)))
  }

  function Below(n: nat): (r: set<nat>)
    ensures |r| == n && forall c: nat :: c in r <==> c < n
  {
    if n == 0 then {} else Below(n - 1) + {n - 1}
  }

  /** Calls 0 to n-1 are open and those from first on have passed the check. */
  predicate Queued(s: State, urls: seq<string>, first: nat, n: nat) {
    && n <= |urls| && s.calls.Keys == Below(n)
    && forall c :: first <= c < n ==> s.calls[c] == Inserting(urls[c], 3600)
  }

  /** Call i looks, counts and passes. */
  function Arrival(urls: seq<string>, i: nat): seq<Step>
    requires i < |urls|
  {
    [Start(i, urls[i], 3600), Next(i, 0), Next(i, 0)]
  }

  lemma {:induction false} Append(max: int, user: int, s: State, first: seq<Step>, second: seq<Step>, k: nat)
    requires Overlap(max, user, s, first, k) && Overlap(max, user, Run(max, user, s, first), second, k)
    ensures Run(max, user, s, first + second) == Run(max, user, Run(max, user, s, first), second)
    ensures Overlap(max, user, s, first + second, k)
    decreases |first|
  {
    if first == [] {
      assert first + second == second;
    } else {
      Append(max, user, Apply(max, user, s, first[0]), first[1..], second, k);
      assert (first + second)[1..] == first[1..] + second;
    }
  }

  lemma OneStep(max: int, user: int, s: State, step: Step, k: nat)
    requires |s.calls| <= k && |Apply(max, user, s, step).calls| <= k
    ensures Run(max, user, s, [step]) == Apply(max, user, s, step) && Overlap(max, user, s, [step], k)
  {
    var t := Apply(max, user, s, step);
    assert [step][1..] == [];
    assert Run(max, user, t, []) == t && Overlap(max, user, t, [], k);
  }

  lemma ThreeSteps(max: int, user: int, s: State, a: Step, b: Step, c: Step, k: nat)
    requires var s1 := Apply(max, user, s, a); var s2 := Apply(max, user, s1, b); var s3 := Apply(max, user, s2, c);
             |s.calls| <= k && |s1.calls| <= k && |s2.calls| <= k && |s3.calls| <= k
    ensures Run(max, user, s, [a, b, c]) == Apply(max, user, Apply(max, user, Apply(max, user, s, a), b), c)
    ensures Overlap(max, user, s, [a, b, c], k)
  {
    var s1 := Apply(max, user, s, a);
    OneStep(max, user, s, a, k);
    OneStep(max, user, s1, b, k);
    OneStep(max, user, Apply(max, user, s1, b), c, k);
    Append(max, user, s1, [b], [c], k);
    Append(max, user, s, [a], [b] + [c], k);
    assert [a] + ([b] + [c]) == [a, b, c];
  }

  /** The three states an arriving call leads through. */
  lemma ArrivalStates(max: int, user: int, s: State, c: nat, url: string)
    requires c !in s.calls && !UrlTaken(s.db, url, None) && |Owned(s.db, user)| < max
    ensures Apply(max, user, s, Start(c, url, 3600)) == Goto(s, c, Looking(url, 3600))
    ensures Apply(max, user, Goto(s, c, Looking(url, 3600)), Next(c, 0)) == Goto(s, c, Counting(url, 3600))
    ensures Apply(max, user, Goto(s, c, Counting(url, 3600)), Next(c, 0)) == Goto(s, c, Inserting(url, 3600))
  {
    assert s.calls[c := Looking(url, 3600)][c := Counting(url, 3600)] == s.calls[c := Counting(url, 3600)];
    assert s.calls[c := Counting(url, 3600)][c := Inserting(url, 3600)] == s.calls[c := Inserting(url, 3600)];
  }

  lemma OpenCalls(s: State, i: nat, call: Call)
    requires s.calls.Keys == Below(i)
    ensures i !in s.calls && Goto(s, i, call).calls.Keys == Below(i + 1)
    ensures |s.calls| == i && |Goto(s, i, call).calls| == i + 1
  {
    assert i !in s.calls.Keys;
    assert |s.calls| == |s.calls.Keys| && |Goto(s, i, call).calls| == |Goto(s, i, call).calls.Keys|;
  }

  lemma Arrives(max: int, user: int, s: State, urls: seq<string>, i: nat)
    requires FreshUrls(s.db, user, urls, 0) && |Owned(s.db, user)| < max && Queued(s, urls, 0, i) && i < |urls|
    ensures var t := Run(max, user, s, Arrival(urls, i)); t.db == s.db && Queued(t, urls, 0, i + 1)
    ensures Overlap(max, user, s, Arrival(urls, i), |urls|)
  {
    var url := urls[i];
    OpenCalls(s, i, Looking(url, 3600));
    OpenCalls(s, i, Counting(url, 3600));
    OpenCalls(s, i, Inserting(url, 3600));
    ArrivalStates(max, user, s, i, url);
    ThreeSteps(max, user, s, Start(i, url, 3600), Next(i, 0), Next(i, 0), |urls|);
  }

  lemma AllStarted(max: int, user: int, s: State, urls: seq<string>)
    requires Queued(s, urls, 0, |urls|)
    ensures Overlap(max, user, s, [], |urls|)
  {
    assert |s.calls| == |s.calls.Keys|;
  }

  lemma {:induction false} AllArrive(max: int, user: int, s: State, urls: seq<string>, i: nat) returns (steps: seq<Step>)
    requires FreshUrls(s.db, user, urls, 0) && |Owned(s.db, user)| < max && Queued(s, urls, 0, i)
    ensures var t := Run(max, user, s, steps); t.db == s.db && Queued(t, urls, 0, |urls|)
    ensures Overlap(max, user, s, steps, |urls|)
    decreases |urls| - i
  {
    if i == |urls| {
      AllStarted(max, user, s, urls);
      return [];
    }
    Arrives(max, user, s, urls, i);
    var rest := AllArrive(max, user, Run(max, user, s, Arrival(urls, i)), urls, i + 1);
    Append(max, user, s, Arrival(urls, i), rest, |urls|);
    steps := Arrival(urls, i) + rest;
  }

  lemma UrlsStayFresh(db: Db, user: int, urls: seq<string>, i: nat)
    requires FreshUrls(db, user, urls, i) && FeedIds(db.feeds, db.nextFeed) && i < |urls|
    ensures var after := AddFeed(db, urls[i], Some(user), 3600);
            && FreshUrls(after, user, urls, i + 1) && FeedIds(after.feeds, after.nextFeed)
            && |Owned(after, user)| == |Owned(db, user)| + 1
  {
    var after := AddFeed(db, urls[i], Some(user), 3600);
    assert Owned(after, user) == Owned(db, user) + {db.nextFeed};
    assert forall f :: f in after.feeds ==>
      if f == db.nextFeed then after.feeds[f].url == urls[i] else f in db.feeds && after.feeds[f] == db.feeds[f];
  }

  lemma Inserts(max: int, user: int, s: State, urls: seq<string>, i: nat)
    requires FreshUrls(s.db, user, urls, i) && FeedIds(s.db.feeds, s.db.nextFeed) && Queued(s, urls, i, |urls|) && i < |urls|
    ensures var t := Apply(max, user, s, Next(i, 0));
            && FreshUrls(t.db, user, urls, i + 1) && FeedIds(t.db.feeds, t.db.nextFeed) && Queued(t, urls, i + 1, |urls|)
            && |Owned(t.db, user)| == |Owned(s.db, user)| + 1
  {
    var t := Apply(max, user, s, Next(i, 0));
    assert i in s.calls.Keys && s.calls[i] == Inserting(urls[i], 3600);
    UrlsStayFresh(s.db, user, urls, i);
    assert t.calls == s.calls[i := Subscribing(s.db.nextFeed)];
    assert t.calls.Keys == s.calls.Keys;
  }

  lemma {:induction false} AllInsert(max: int, user: int, s: State, urls: seq<string>, i: nat) returns (steps: seq<Step>)
    requires FreshUrls(s.db, user, urls, i) && FeedIds(s.db.feeds, s.db.nextFeed) && Queued(s, urls, i, |urls|) && i <= |urls|
    ensures |Owned(Run(max, user, s, steps).db, user)| == |Owned(s.db, user)| + |urls| - i
    ensures Overlap(max, user, s, steps, |urls|)
    decreases |urls| - i
  {
    assert |s.calls| == |s.calls.Keys|;
    if i == |urls| {
      return [];
    }
    Inserts(max, user, s, urls, i);
    var rest := AllInsert(max, user, Apply(max, user, s, Next(i, 0)), urls, i + 1);
    steps := [Next(i, 0)] + rest;
    assert steps[1..] == rest;
  }

  /** The bound is exact: one feed below the limit, any number k of overlapping calls can all get through. */
  lemma BoundIsReached(max: int, user: int, db: Db, urls: seq<string>) returns (steps: seq<Step>)
    requires FreshUrls(db, user, urls, 0) && FeedIds(db.feeds, db.nextFeed) && |Owned(db, user)| == max - 1
    ensures Overlap(max, user, State(db, map[]), steps, |urls|)
    ensures |Owned(Run(max, user, State(db, map[]), steps).db, user)| == max + |urls| - 1
  {
    var s := State(db, map[]);
    assert s.calls.Keys == Below(0);
    var first := AllArrive(max, user, s, urls, 0);
    var second := AllInsert(max, user, Run(max, user, s, first), urls, 0);
    Append(max, user, s, first, second, |urls|);
    steps := first + second;
  }

  // --- The service method ------------------------------------------------------------------

  datatype AddFeedResult = AddFeedResult(feed: int, created: bool)

  /** A new feed is one more of its owner's. */
  lemma NewFeedOwned(db: Db, url: string, user: int, interval: int)
    requires DbInv(db) && !UrlTaken(db, url, Some(user))
    ensures Owned(AddFeed(db, url, Some(user), interval), user) == Owned(db, user) + {db.nextFeed} && db.nextFeed !in Owned(db, user)
    ensures |Owned(AddFeed(db, url, Some(user), interval), user)| == |Owned(db, user)| + 1
  {
    assert Owned(AddFeed(db, url, Some(user), interval), user) == Owned(db, user) + {db.nextFeed};
  }

  class RadarService {
    const store: RadarStore
    const maxUserFeeds: int

    constructor (store: RadarStore, maxUserFeeds: int)
      ensures this.store == store && this.maxUserFeeds == maxUserFeeds
    {
      this.store, this.maxUserFeeds := store, maxUserFeeds;
    }

    /**
     One call with nobody in between.  A catalog address is only subscribed to, so a popular feed
     is not copied per account, and the quota then holds exactly.
     */
    method AddUserFeed(user: int, url: string, interval: int, now: int) returns (r: Result<AddFeedResult, StoreError>)
      requires DbInv(store.View())
      modifies store
      ensures r.Err? ==> store.View() == old(store.View())
      ensures r == Err(QuotaExceeded) <==> !UrlTaken(old(store.View()), url, None) && |Owned(old(store.View()), user)| >= maxUserFeeds
      ensures r == Err(Duplicate) <==>
                && !UrlTaken(old(store.View()), url, None) && |Owned(old(store.View()), user)| < maxUserFeeds
                && UrlTaken(old(store.View()), url, Some(user))
      ensures r.Err? ==> r.error == QuotaExceeded || r.error == Duplicate
      ensures r.Ok? ==> && MaySubscribe(store.View(), user, r.value.feed) && SubKey(user, r.value.feed) in store.subs
                        && store.feeds[r.value.feed].url == url
                        && (r.value.created <==> !UrlTaken(old(store.View()), url, None))
                        && (r.value.created <==> r.value.feed !in old(store.feeds))
      ensures Owned(store.View(), user)
           == Owned(old(store.View()), user) + if r.Ok? && r.value.created then {r.value.feed} else {}
      ensures |Owned(old(store.View()), user)| <= maxUserFeeds ==> |Owned(store.View(), user)| <= maxUserFeeds
    {
      var existing := store.GetGlobalFeedByURL(url);
      if existing.Ok? {
        var sub := store.Subscribe(user, existing.value, now);
        return Ok(AddFeedResult(existing.value, false));
      }
      var n := store.CountUserFeeds(user);
      if n >= maxUserFeeds {
        return Err(QuotaExceeded);
      }
      var feed := store.AddFeed(url, Some(user), interval);
      if feed.Err? {
        return Err(Duplicate);
      }
      NewFeedOwned(old(store.View()), url, user, interval);
      var sub := store.Subscribe(user, feed.value, now);
      r := Ok(AddFeedResult(feed.value, true));
    }
  }
}
