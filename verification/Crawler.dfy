/**
 From a fetched document to the findings it proposes.
 HTML stripping is a parameter: the tokenizer is outside the model.
 */
module Crawler {
  import opened Wrappers
  import opened Text
  import opened RadarTables

  datatype Item = Item(link: string, guid: string, title: string, description: string, publishedAt: Option<int>)

  /** One version of a feed: its validators as the origin sends them ("" when absent) and its entries. */
  datatype Doc = Doc(etag: string, lastModified: string, title: string, items: seq<Option<Item>>)

  function NonEmpty(s: string): Option<string> {
    if s == "" then None else Some(s)
  }

  /** Entries without a link, and nil entries, propose nothing. */
  predicate Usable(it: Option<Item>) {
    it.Some? && TrimSpace(it.value.link) != ""
  }

  /** The key of an entry: its guid, or its link when the guid is blank. */
  function KeyOf(it: Item): string {
    var guid := TrimSpace(it.guid);
    if guid == "" then TrimSpace(it.link) else guid
  }

  function ToUpsert(feed: int, it: Item, summarize: string -> string): FindingUpsert {
    FindingUpsert(feed, Some(KeyOf(it)), TrimSpace(it.link), NonEmpty(TrimSpace(it.title)),
                  NonEmpty(summarize(it.description)), it.publishedAt)
  }

  function ToUpserts(feed: int, items: seq<Option<Item>>, summarize: string -> string): (ups: seq<FindingUpsert>)
    ensures |ups| <= |items|
    ensures forall i :: 0 <= i < |ups| ==> ups[i].feed == feed && ups[i].ext.Some? && ups[i].ext.value != "" && ups[i].url != ""
  {
    if items == [] then []
    else
      var rest := ToUpserts(feed, items[1..], summarize);
      if Usable(items[0]) then [ToUpsert(feed, items[0].value, summarize)] + rest else rest
  }

  lemma {:induction false} ToUpsertsAppend(feed: int, items: seq<Option<Item>>, it: Option<Item>, summarize: string -> string)
    ensures ToUpserts(feed, items + [it], summarize)
         == ToUpserts(feed, items, summarize) + if Usable(it) then [ToUpsert(feed, it.value, summarize)] else []
  {
    if items == [] {
      assert items + [it] == [it];
    } else {
      ToUpsertsAppend(feed, items[1..], it, summarize);
      assert (items + [it])[1..] == items[1..] + [it];
    }
  }

  /** The crawler's loop. */
  method BuildUpserts(feed: int, items: seq<Option<Item>>, summarize: string -> string) returns (out: seq<FindingUpsert>)
    ensures out == ToUpserts(feed, items, summarize)
  {
    out := [];
    for n := 0 to |items|
      invariant out == ToUpserts(feed, items[..n], summarize)
    {
      ToUpsertsAppend(feed, items[..n], items[n], summarize);
      assert items[..n + 1] == items[..n] + [items[n]];
      if items[n] == None || TrimSpace(items[n].value.link) == "" {
        continue;
      }
      var it := items[n].value;
      var url := TrimSpace(it.link);
      var ext := TrimSpace(it.guid);
      if ext == "" {
        ext := url;
      }
      out := out + [FindingUpsert(feed, Some(ext), url, NonEmpty(TrimSpace(it.title)),
                                  NonEmpty(summarize(it.description)), it.publishedAt)];
    }
    assert items[..|items|] == items;
  }

  /** Exactly the usable entries are proposed, each under its own key. */
  lemma {:induction false} ProposalsAreUsableItems(feed: int, items: seq<Option<Item>>, summarize: string -> string, up: FindingUpsert)
    ensures up in ToUpserts(feed, items, summarize)
       <==> exists it :: it in items && Usable(it) && ToUpsert(feed, it.value, summarize) == up
  {
    if items != [] {
      ProposalsAreUsableItems(feed, items[1..], summarize, up);
      assert items == [items[0]] + items[1..];
      var rest := ToUpserts(feed, items[1..], summarize);
      assert up in ToUpserts(feed, items, summarize) <==>
             up in rest || (Usable(items[0]) && ToUpsert(feed, items[0].value, summarize) == up);
    }
  }

  // --- What is embedded -----------------------------------------------------------

  function Parts(title: Option<string>, summary: Option<string>): seq<string> {
    (if title.Some? then [TrimSpace(title.value)] else []) + (if summary.Some? then [TrimSpace(summary.value)] else [])
  }

  function Join(parts: seq<string>): string {
    if |parts| == 0 then "" else if |parts| == 1 then parts[0] else parts[0] + "\n" + Join(parts[1..])
  }

  function EmbedText(f: Finding): string {
    TrimSpace(Join(Parts(f.title, f.summary)))
  }

  predicate BlankField(s: Option<string>) {
    s == None || Blank(s.value)
  }

  /** A finding has nothing to embed exactly when neither its title nor its summary holds a visible character. */
  lemma NothingToEmbed(f: Finding)
    ensures EmbedText(f) == "" <==> BlankField(f.title) && BlankField(f.summary)
  {
    var parts := Parts(f.title, f.summary);
    TrimBlank(Join(parts));
    if f.title.Some? { TrimBlank(f.title.value); TrimBlank(TrimSpace(f.title.value)); TrimKeepsVisible(f.title.value); }
    if f.summary.Some? { TrimBlank(f.summary.value); TrimBlank(TrimSpace(f.summary.value)); TrimKeepsVisible(f.summary.value); }
    if |parts| == 2 {
      assert Join(parts) == parts[0] + "\n" + parts[1] by { assert parts[1..] == [parts[1]]; }
      assert forall i :: 0 <= i < |parts[0]| ==> Join(parts)[i] == parts[0][i];
      assert forall i :: 0 <= i < |parts[1]| ==> Join(parts)[|parts[0]| + 1 + i] == parts[1][i];
    }
  }

  /** What trimming leaves is blank only when it is empty. */
  lemma TrimKeepsVisible(s: string)
    ensures Blank(TrimSpace(s)) <==> TrimSpace(s) == ""
  {
    assert TrimSpace(s) != "" ==> !IsSpace(TrimSpace(s)[0]);
  }
}
