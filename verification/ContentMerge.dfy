/** Article contents: one row per URL, seven columns of which later saves may fill or replace, never erase. */
module ContentMerge {
  import opened Wrappers

  /** The columns ON CONFLICT DO UPDATE coalesces. */
  datatype Media = Media(imageUrl: Option<string>, faviconUrl: Option<string>, siteName: Option<string>,
                         publishedTime: Option<int>, modifiedTime: Option<int>, image: Option<string>, favicon: Option<string>)

  /** The columns only the first insert writes. */
  datatype Text = Text(canonicalUrl: Option<string>, title: Option<string>, byline: Option<string>, excerpt: Option<string>,
                       text: Option<string>, html: Option<string>, lang: Option<string>, readingTimeSeconds: Option<int>,
                       fetchError: Option<string>)

  datatype Params = Params(url: string, text: Text, media: Media)

  datatype Row = Row(id: nat, text: Text, media: Media)

  /** Rows by their unique url. */
  datatype Db = Db(rows: map<string, Row>, next: nat)

  const NO_MEDIA := Media(None, None, None, None, None, None, None)
  const NO_TEXT := Text(None, None, None, None, None, None, None, None, None)

  function Merge(excluded: Media, stored: Media): Media {
    Media(Coalesce(excluded.imageUrl, stored.imageUrl), Coalesce(excluded.faviconUrl, stored.faviconUrl),
          Coalesce(excluded.siteName, stored.siteName), Coalesce(excluded.publishedTime, stored.publishedTime),
          Coalesce(excluded.modifiedTime, stored.modifiedTime), Coalesce(excluded.image, stored.image),
          Coalesce(excluded.favicon, stored.favicon))
  }

  function Upsert(db: Db, p: Params): Db {
    if p.url in db.rows
    then db.(rows := db.rows[p.url := db.rows[p.url].(media := Merge(p.media, db.rows[p.url].media))])
    else Db(db.rows[p.url := Row(db.next, p.text, p.media)], db.next + 1)
  }

  function Run(db: Db, ps: seq<Params>): Db {
    if ps == [] then db else Upsert(Run(db, ps[..|ps| - 1]), ps[|ps| - 1])
  }

  /** The saves of one url, in order. */
  function Of(ps: seq<Params>, url: string): (r: seq<Params>)
    ensures forall i :: 0 <= i < |r| ==> r[i].url == url
  {
    if ps == [] then []
    else Of(ps[..|ps| - 1], url) + if ps[|ps| - 1].url == url then [ps[|ps| - 1]] else []
  }

  /** v is the last value supplied that is not null, or null when none was. */
  ghost predicate LastGiven<T(!new)>(given: seq<Option<T>>, v: Option<T>) {
    (v == None && forall i :: 0 <= i < |given| ==> given[i] == None)
    || (v.Some? && exists i :: 0 <= i < |given| && given[i] == v && forall j :: i < j < |given| ==> given[j] == None)
  }

  lemma LastGivenMore<T(!new)>(given: seq<Option<T>>, v: Option<T>, next: Option<T>)
    requires LastGiven(given, v)
    ensures LastGiven(given + [next], Coalesce(next, v))
  {
    var more := given + [next];
    if next.Some? {
      assert more[|given|] == next;
    } else if v.Some? {
      var i :| 0 <= i < |given| && given[i] == v && forall j :: i < j < |given| ==> given[j] == None;
      assert more[i] == v && forall j :: i < j < |more| ==> more[j] == None;
    }
  }

  function ImageUrl(p: Params): Option<string> { p.media.imageUrl }
  function FaviconUrl(p: Params): Option<string> { p.media.faviconUrl }
  function SiteName(p: Params): Option<string> { p.media.siteName }
  function PublishedTime(p: Params): Option<int> { p.media.publishedTime }
  function ModifiedTime(p: Params): Option<int> { p.media.modifiedTime }
  function Image(p: Params): Option<string> { p.media.image }
  function Favicon(p: Params): Option<string> { p.media.favicon }

  /** The values a column was given. */
  function Given<T>(ps: seq<Params>, column: Params -> Option<T>): seq<Option<T>> {
    seq(|ps|, i requires 0 <= i < |ps| => column(ps[i]))
  }

  ghost predicate AllLastGiven(ps: seq<Params>, m: Media) {
    && LastGiven(Given(ps, ImageUrl), m.imageUrl)
    && LastGiven(Given(ps, FaviconUrl), m.faviconUrl)
    && LastGiven(Given(ps, SiteName), m.siteName)
    && LastGiven(Given(ps, PublishedTime), m.publishedTime)
    && LastGiven(Given(ps, ModifiedTime), m.modifiedTime)
    && LastGiven(Given(ps, Image), m.image)
    && LastGiven(Given(ps, Favicon), m.favicon)
  }

  lemma ColumnMore<T(!new)>(ps: seq<Params>, p: Params, column: Params -> Option<T>, v: Option<T>)
    requires LastGiven(Given(ps, column), v)
    ensures LastGiven(Given(ps + [p], column), Coalesce(column(p), v))
  {
    LastGivenMore(Given(ps, column), v, column(p));
    assert Given(ps + [p], column) == Given(ps, column) + [column(p)];
  }

  lemma AllMore(ps: seq<Params>, p: Params, m: Media)
    requires AllLastGiven(ps, m)
    ensures AllLastGiven(ps + [p], Merge(p.media, m))
  {
    ColumnMore(ps, p, ImageUrl, m.imageUrl);
    ColumnMore(ps, p, FaviconUrl, m.faviconUrl);
    ColumnMore(ps, p, SiteName, m.siteName);
    ColumnMore(ps, p, PublishedTime, m.publishedTime);
    ColumnMore(ps, p, ModifiedTime, m.modifiedTime);
    ColumnMore(ps, p, Image, m.image);
    ColumnMore(ps, p, Favicon, m.favicon);
  }

  const EMPTY_DB := Db(map[], 0)

  predicate IdsOk(db: Db) {
    && (forall u :: u in db.rows ==> db.rows[u].id < db.next)
    && (forall u, v :: u in db.rows && v in db.rows && db.rows[u].id == db.rows[v].id ==> u == v)
  }

  lemma {:induction false} RunIdsOk(ps: seq<Params>)
    ensures IdsOk(Run(EMPTY_DB, ps))
  {
    if ps != [] {
      RunIdsOk(ps[..|ps| - 1]);
    }
  }

  lemma FirstGiven(p: Params)
    ensures AllLastGiven([p], p.media)
  {
    assert AllLastGiven([], NO_MEDIA);
    AllMore([], p, NO_MEDIA);
    assert [] + [p] == [p] && Merge(p.media, NO_MEDIA) == p.media;
  }

  /** The row holds the first save's text and the last values given of the rest. */
  ghost predicate Merged(saves: seq<Params>, row: Row) {
    saves != [] && row.text == saves[0].text && AllLastGiven(saves, row.media)
  }

  lemma MergedMore(saves: seq<Params>, row: Row, p: Params)
    requires Merged(saves, row)
    ensures Merged(saves + [p], row.(media := Merge(p.media, row.media)))
  {
    AllMore(saves, p, row.media);
  }

  lemma MergedFirst(p: Params, id: nat)
    ensures Merged([p], Row(id, p.text, p.media))
  {
    FirstGiven(p);
  }

  /**
   After any sequence of upserts, a URL that was ever saved has one row: its text columns are those of the
   first save, and each media column holds the last non-null value it was ever given.
   */
  lemma {:induction false} RowAfterUpserts(ps: seq<Params>, url: string)
    ensures var rows := Run(EMPTY_DB, ps).rows;
            && (url in rows <==> Of(ps, url) != [])
            && (url in rows ==> Merged(Of(ps, url), rows[url]))
  {
    if ps != [] {
      var before, p := ps[..|ps| - 1], ps[|ps| - 1];
      var db := Run(EMPTY_DB, before);
      RowAfterUpserts(before, url);
      if p.url == url && url in db.rows {
        MergedMore(Of(before, url), db.rows[url], p);
      } else if p.url == url {
        MergedFirst(p, db.next);
        assert Of(ps, url) == [p];
      } else {
        assert Of(ps, url) == Of(before, url);
      }
    }
  }

  /** A row keeps its id for life, and no two URLs share one. */
  lemma {:induction false} IdsNeverChange(ps: seq<Params>, more: seq<Params>, url: string)
    requires url in Run(EMPTY_DB, ps).rows
    ensures var was, rows := Run(EMPTY_DB, ps).rows, Run(EMPTY_DB, ps + more).rows;
            && url in rows && rows[url].id == was[url].id
            && forall other :: other in rows && rows[other].id == was[url].id ==> other == url
    decreases |more|
  {
    RunIdsOk(ps + more);
    if more == [] {
      assert ps + more == ps;
    } else {
      var all := ps + more;
      assert all[..|all| - 1] == ps + more[..|more| - 1];
      IdsNeverChange(ps, more[..|more| - 1], url);
    }
  }

  /** What SaveURL upserts when the extraction failed: the URL and the error. */
  function FailedExtraction(url: string, message: string): Params {
    Params(url, NO_TEXT.(fetchError := Some(message)), NO_MEDIA)
  }

  /** A failed extraction of a URL already saved changes nothing at all. */
  lemma FailedExtractionErasesNothing(ps: seq<Params>, url: string, message: string)
    requires url in Run(EMPTY_DB, ps).rows
    ensures Run(EMPTY_DB, ps + [FailedExtraction(url, message)]) == Run(EMPTY_DB, ps)
  {
    var p := FailedExtraction(url, message);
    var all, db := ps + [p], Run(EMPTY_DB, ps);
    assert all[..|all| - 1] == ps;
    assert Merge(p.media, db.rows[url].media) == db.rows[url].media;
  }

  /** The table behind the statement. */
  class ContentStore {
    var rows: map<string, Row>
    var next: nat

    constructor ()
      ensures View() == EMPTY_DB
    {
      rows, next := map[], 0;
    }

    function View(): Db
      reads this
    {
      Db(rows, next)
    }

    method UpsertContent(p: Params) returns (row: Row)
      modifies this
      ensures View() == Upsert(old(View()), p) && p.url in rows && row == rows[p.url]
    {
      if p.url in rows {
        var m := rows[p.url].media;
        row := rows[p.url].(media := Media(
          Coalesce(p.media.imageUrl, m.imageUrl), Coalesce(p.media.faviconUrl, m.faviconUrl),
          Coalesce(p.media.siteName, m.siteName), Coalesce(p.media.publishedTime, m.publishedTime),
          Coalesce(p.media.modifiedTime, m.modifiedTime), Coalesce(p.media.image, m.image),
          Coalesce(p.media.favicon, m.favicon)));
      } else {
        row := Row(next, p.text, p.media);
        next := next + 1;
      }
      rows := rows[p.url := row];
    }
  }
}
