/**
 The radar store and the job queue as objects: each method is one round trip
 that updates the tables in place, specified by the statement it sends.
 */
module RadarStore {
  import opened Wrappers
  import opened Text
  import opened RadarTables
  import opened Crawler
  import opened RadarPipeline
  import opened Matcher

  datatype FeedFetchState = FeedFetchState(url: string, etag: Option<string>, lastModified: Option<string>)

  datatype Upserted = Upserted(id: int, created: bool)

  function CatalogSeeds(db: Db, user: int): set<SubKey> {
    set f | f in db.feeds && db.feeds[f].active && db.feeds[f].owner == None :: SubKey(user, f)
  }

  /** Active, and never fetched or last fetched more than its interval ago. */
  predicate Due(f: Feed, now: int) {
    f.active && (f.lastFetchedAt == None || f.lastFetchedAt.value + f.interval < now)
  }

  predicate Distinct(ids: seq<int>) {
    forall i, j :: 0 <= i < j < |ids| ==> ids[i] != ids[j]
  }

  /** ids holds due feeds only, none twice, and all of them unless the limit is reached. */
  predicate ListsDue(feeds: map<int, Feed>, now: int, limit: nat, ids: seq<int>) {
    && |ids| <= limit && Distinct(ids)
    && (forall f :: f in ids ==> f in feeds && Due(feeds[f], now))
    && (|ids| < limit ==> forall f :: f in feeds && Due(feeds[f], now) ==> f in ids)
  }

  /** The match is about a finding of the feed. */
  predicate OfFeed(findings: map<int, Finding>, k: MatchKey, feed: int) {
    k.finding in findings && findings[k.finding].feed == feed
  }

  class RadarStore {
    var feeds: map<int, Feed>
    var subs: map<SubKey, int>
    var findings: map<int, Finding>
    var topics: map<int, Topic>
    var matches: map<MatchKey, Match>
    var nextFeed: int
    var nextFinding: int
    var nextTopic: int

    function View(): Db
      reads this
    {
      Db(feeds, subs, findings, topics, matches, nextFeed, nextFinding, nextTopic)
    }

    /** An empty database. */
    constructor ()
      ensures View() == EMPTY_DB
    {
      feeds, subs, findings, topics, matches := map[], map[], map[], map[], map[];
      nextFeed, nextFinding, nextTopic := 0, 0, 0;
    }

    method AddFeed(url: string, owner: Option<int>, interval: int) returns (r: Result<int, StoreError>)
      modifies this
      ensures View() == RadarTables.AddFeed(old(View()), url, owner, interval)
      ensures if UrlTaken(old(View()), url, owner) then r == Err(Duplicate) else r == Ok(old(nextFeed))
      ensures r.Ok? ==> && r.value in feeds && feeds[r.value].url == url && feeds[r.value].owner == owner
                        && feeds[r.value].etag == None && feeds[r.value].lastModified == None
    {
      if exists f :: f in feeds && feeds[f].url == url && feeds[f].owner == owner {
        return Err(Duplicate);
      }
      feeds := feeds[nextFeed := Feed(url, owner, None, interval, true, None, None, None, None)];
      r := Ok(nextFeed);
      nextFeed := nextFeed + 1;
    }

    method GetGlobalFeedByURL(url: string) returns (r: Result<int, StoreError>)
      ensures if UrlTaken(View(), url, None)
              then r.Ok? && r.value in feeds && feeds[r.value].url == url && feeds[r.value].owner == None
              else r == Err(NotFound)
    {
      if exists f :: f in feeds && feeds[f].url == url && feeds[f].owner == None {
        var f :| f in feeds && feeds[f].url == url && feeds[f].owner == None;
        return Ok(f);
      }
      r := Err(NotFound);
    }

    method CountUserFeeds(user: int) returns (n: nat)
      ensures n == |Owned(View(), user)|
    {
      n := |set f | f in feeds && feeds[f].owner == Some(user)|;
    }

    method Subscribe(user: int, feed: int, now: int) returns (r: Result<int, StoreError>)
      modifies this`subs
      ensures View() == RadarTables.Subscribe(old(View()), user, feed, now)
      ensures MaySubscribe(old(View()), user, feed) ==> SubKey(user, feed) in subs && r == Ok(subs[SubKey(user, feed)])
      ensures !MaySubscribe(old(View()), user, feed) ==> r == Err(FeedNotFound)
    {
      if feed !in feeds || !(feeds[feed].owner == None || feeds[feed].owner == Some(user)) {
        return Err(FeedNotFound);
      }
      if SubKey(user, feed) !in subs {
        subs := subs[SubKey(user, feed) := now];
      }
      r := Ok(subs[SubKey(user, feed)]);
    }

    method Unsubscribe(user: int, feed: int)
      modifies this`subs
      ensures View() == RadarTables.Unsubscribe(old(View()), user, feed)
      ensures forall k :: k in subs <==> k in old(subs) && k != SubKey(user, feed)
    {
      subs := subs - {SubKey(user, feed)};
    }

    /** Returns how many catalog subscriptions were missing. */
    method SeedSubscriptions(user: int, now: int) returns (n: nat)
      modifies this`subs
      ensures View() == Seed(old(View()), user, now)
      ensures n == |CatalogSeeds(old(View()), user) - old(subs).Keys|
      ensures forall k :: k in subs <==> k in old(subs) || k in CatalogSeeds(old(View()), user)
      ensures forall k :: k in old(subs) ==> subs[k] == old(subs)[k]
    {
      n := |(set f | f in feeds && feeds[f].active && feeds[f].owner == None :: SubKey(user, f)) - subs.Keys|;
      subs := (map f | f in feeds && feeds[f].active && feeds[f].owner == None :: SubKey(user, f) := now) + subs;
    }

    /** LIMIT without ORDER BY: which due feeds come first is not promised. */
    method ListDueFeeds(limit: nat, now: int) returns (ids: seq<int>)
      ensures ListsDue(feeds, now, limit, ids)
    {
      ids := [];
      while |ids| < limit && exists f :: f in feeds && Due(feeds[f], now) && f !in ids
        invariant |ids| <= limit && Distinct(ids)
        invariant forall f :: f in ids ==> f in feeds && Due(feeds[f], now)
        decreases limit - |ids|
      {
        var f :| f in feeds && Due(feeds[f], now) && f !in ids;
        ids := ids + [f];
      }
    }

    method GetFeedForFetch(feed: int) returns (r: Result<FeedFetchState, StoreError>)
      ensures if feed in feeds then r == Ok(FeedFetchState(feeds[feed].url, feeds[feed].etag, feeds[feed].lastModified))
              else r == Err(NotFound)
    {
      if feed !in feeds {
        return Err(NotFound);
      }
      r := Ok(FeedFetchState(feeds[feed].url, feeds[feed].etag, feeds[feed].lastModified));
    }

    /** The channel title is written only when the column is still empty. */
    method MarkFeedFetched(feed: int, etag: Option<string>, lastModified: Option<string>, title: Option<string>, now: int)
      modifies this`feeds
      ensures View() == MarkFetched(old(View()), feed, etag, lastModified, title, now)
      ensures feeds.Keys == old(feeds).Keys && forall f :: f in feeds && f != feed ==> feeds[f] == old(feeds)[f]
      ensures feed in feeds ==> && feeds[feed].etag == etag && feeds[feed].lastModified == lastModified
                                && feeds[feed].lastError == None && feeds[feed].lastFetchedAt == Some(now)
      ensures feed in feeds && old(feeds)[feed].title.Some? ==> feeds[feed].title == old(feeds)[feed].title
    {
      if feed in feeds {
        var row := feeds[feed];
        feeds := feeds[feed := row.(lastFetchedAt := Some(now), etag := etag, lastModified := lastModified,
                                    lastError := None, title := Coalesce(row.title, NullIfBlank(title)))];
      }
    }

    method MarkFeedError(feed: int, message: string, now: int)
      modifies this`feeds
      ensures View() == MarkError(old(View()), feed, message, now)
      ensures feeds.Keys == old(feeds).Keys && forall f :: f in feeds && f != feed ==> feeds[f] == old(feeds)[f]
      ensures feed in feeds ==>
                feeds[feed] == old(feeds)[feed].(lastError := Some(message), lastFetchedAt := Some(now))
    {
      if feed in feeds {
        feeds := feeds[feed := feeds[feed].(lastFetchedAt := Some(now), lastError := Some(message))];
      }
    }

    /** created tells whether a row was inserted; otherwise the id is that of the row holding the key. */
    method UpsertFinding(up: FindingUpsert) returns (r: Result<Upserted, StoreError>)
      modifies this`findings, this`nextFinding
      ensures up.feed !in feeds ==> r == Err(FeedNotFound) && View() == old(View())
      ensures up.feed in feeds ==> View() == InsertFinding(old(View()), up)
      ensures up.feed in feeds ==>
                && r.Ok? && r.value.id in findings
                && findings[r.value.id].feed == up.feed && findings[r.value.id].ext == up.ext
                && (r.value.created <==> !Conflicts(old(View()), up))
                && (r.value.created ==> r.value.id == old(nextFinding) && findings[r.value.id] == NewFinding(up))
    {
      if up.feed !in feeds {
        return Err(FeedNotFound);
      }
      if up.ext.Some? && exists x :: x in findings && findings[x].feed == up.feed && findings[x].ext == up.ext {
        var x :| x in findings && findings[x].feed == up.feed && findings[x].ext == up.ext;
        return Ok(Upserted(x, false));
      }
      findings := findings[nextFinding := NewFinding(up)];
      r := Ok(Upserted(nextFinding, true));
      nextFinding := nextFinding + 1;
    }

    method GetFindingForEmbed(x: int) returns (r: Result<Finding, StoreError>)
      ensures if x in findings then r == Ok(findings[x]) else r == Err(NotFound)
    {
      if x !in findings {
        return Err(NotFound);
      }
      r := Ok(findings[x]);
    }

    method UpdateFindingEmbedding(x: int, vec: Vec) returns (r: Result<(), StoreError>)
      modifies this`findings
      ensures View() == SetEmbedding(old(View()), x, vec)
      ensures r == if x in old(findings) then Ok(()) else Err(NotFound)
    {
      if x !in findings {
        return Err(NotFound);
      }
      findings := findings[x := findings[x].(embedding := Some(vec))];
      r := Ok(());
    }

    /** Returns the number of matches inserted. */
    method MatchFindingToTopics(sim: Similarity, x: int) returns (n: nat)
      modifies this`matches
      ensures View() == MatchFinding(sim, old(View()), x)
      ensures n == Inserted(sim, old(View()), x) && |matches| == |old(matches)| + n
    {
      RowsAffected(sim, View(), x);
      MatcherCount(sim, View(), x);
      var rows := JoinRows(sim, View(), x);
      n := |rows.Keys - matches.Keys|;
      matches := rows + matches;
    }

    method DeleteFeed(feed: int, owner: Option<int>) returns (r: Result<(), StoreError>)
      modifies this
      ensures View() == RadarTables.DeleteFeed(old(View()), feed, owner)
      ensures r == if feed in old(feeds) && old(feeds)[feed].owner == owner then Ok(()) else Err(NotFound)
      ensures r.Err? ==> View() == old(View())
      ensures r.Ok? ==> && feeds == old(feeds) - {feed}
                        && (forall k :: k in subs <==> k in old(subs) && k.feed != feed)
                        && (forall x :: x in findings <==> x in old(findings) && old(findings)[x].feed != feed)
                        && (forall k :: k in matches <==> k in old(matches) && !OfFeed(old(findings), k, feed))
    {
      if feed !in feeds || feeds[feed].owner != owner {
        return Err(NotFound);
      }
      // ON DELETE CASCADE: matches of its findings, the findings, its subscriptions, then the row.
      matches := MatchesWithout(matches, findings, {feed});
      findings := FindingsWithout(findings, {feed});
      subs := SubsWithout(subs, {feed});
      feeds := feeds - {feed};
      r := Ok(());
    }
  }

  /** The inserter half of the queue client. */
  class JobQueue {
    var jobs: map<int, Job>
    var next: int

    constructor ()
      ensures jobs == map[] && next == 0
    {
      jobs, next := map[], 0;
    }

    method Insert(job: Job)
      modifies this
      ensures jobs == old(jobs)[old(next) := job] && next == old(next) + 1
    {
      jobs := jobs[next := job];
      next := next + 1;
    }
  }

  datatype FetchResult = NotModified(etag: string, lastModified: string) | Fetched(doc: Doc) | Failed(message: string)

  /** The origins as the HTTP fetcher sees them. */
  class Origins {
    var docs: map<string, Doc>

    constructor ()
      ensures docs == map[]
    {
      docs := map[];
    }

    method Fetch(w: World, url: string, etag: string, lastModified: string, showEtag: bool, showLastModified: bool)
      returns (res: FetchResult)
      ensures url !in docs ==> res.Failed?
      ensures url in docs && w.notModified(url, etag, lastModified, docs[url]) ==>
                res == NotModified(if showEtag then docs[url].etag else "", if showLastModified then docs[url].lastModified else "")
      ensures url in docs && !w.notModified(url, etag, lastModified, docs[url]) ==> res == Fetched(docs[url])
    {
      if url !in docs {
        return Failed("status 404");
      }
      var doc := docs[url];
      if w.notModified(url, etag, lastModified, doc) {
        return NotModified(if showEtag then doc.etag else "", if showLastModified then doc.lastModified else "");
      }
      res := Fetched(doc);
    }
  }
}
