/**
 * The trending-topics widget, `fetchGoogleTrends` (js/comp_trend.js;
 * script.js holds an identical copy). It uses the same five-minute cache
 * rule as the fact widget, but differs from it in three ways: the stored
 * timestamp is the clock read when the call started, the failure branch
 * shows the cached list read when the call started, and nothing is stored
 * when the list element is missing. Its `setItem` calls are not guarded, so
 * a storage error on the success path is handled by the failure branch.
 */
module Trends {
  import opened JsValues
  import opened Cache

  const TrendsKey := "googleTrends"
  const StampKey := "googleTrendsTimestamp"
  const MaxTrends := 9
  const UnknownTrend := "Unknown Trend"
  const NoTrends := "<li class=\"trending-item\">Could not fetch trends</li>"

  /** One `<item>` of the RSS feed, as the builder queries it: the text of
      its first `<title>` (None when there is none), the text of its first
      `ht:news_item_url` or `news_item_url`, and the texts of its `<link>`
      elements in document order. */
  datatype FeedItem = FeedItem(title: Option<string>, newsItemUrl: Option<string>, links: seq<string>)

  /** One numbered list entry. */
  datatype Entry = Entry(number: nat, link: string, title: string)

  function Min(a: nat, b: nat): nat {
    if a < b then a else b
  }

  /** `item.querySelector('title')?.textContent || 'Unknown Trend'`. */
  function TitleOf(item: FeedItem): (title: string)
    ensures title != ""
    ensures Truthy(item.title) ==> title == item.title.value
    ensures !Truthy(item.title) ==> title == UnknownTrend
  {
    if Truthy(item.title) then item.title.value else UnknownTrend
  }

  /** The news URL unless it is missing or "#"; then the second `<link>`
      when there are at least two; otherwise "#". */
  function LinkOf(item: FeedItem): (link: string)
    ensures item.newsItemUrl.Some? && item.newsItemUrl.value != "#" ==>
      link == item.newsItemUrl.value
    ensures (item.newsItemUrl.None? || item.newsItemUrl.value == "#") && |item.links| >= 2 ==>
      link == item.links[1]
    ensures (item.newsItemUrl.None? || item.newsItemUrl.value == "#") && |item.links| < 2 ==>
      link == "#"
  {
    var articleLink := if item.newsItemUrl.Some? then item.newsItemUrl.value else "#";
    if articleLink == "#" && |item.links| > 1 then item.links[1] else articleLink
  }

  function EntryAt(items: seq<FeedItem>, i: nat): Entry
    requires i < |items|
  {
    Entry(i + 1, LinkOf(items[i]), TitleOf(items[i]))
  }

  /** The entries the builder emits: the first nine items, numbered from 1. */
  function Entries(items: seq<FeedItem>): seq<Entry> {
    seq(Min(|items|, MaxTrends), i requires 0 <= i < Min(|items|, MaxTrends) => EntryAt(items, i))
  }

  /** The pieces of the entry template literal, with its whitespace. */
  const EntryOpen := "\n                    <li class=\"trending-item\">\n                        <span class=\"trend-number\">"
  const EntryLink := ".</span>\n                        <a href=\""
  const EntryTitle := "\" target=\"_blank\">"
  const EntryClose := "</a>\n                    </li>\n                "

  /** The markup of one entry. */
  function EntryHtml(e: Entry): string {
    EntryOpen + NatToString(e.number) + EntryLink + e.link + EntryTitle + e.title + EntryClose
  }

  function ListHtml(es: seq<Entry>): string {
    if es == [] then "" else ListHtml(es[..|es| - 1]) + EntryHtml(es[|es| - 1])
  }

  /** At most nine entries, numbered 1..n in feed order, each carrying its
      item's title and link. */
  lemma EntriesShape(items: seq<FeedItem>)
    ensures |Entries(items)| == Min(|items|, MaxTrends) <= MaxTrends
    ensures forall i :: 0 <= i < |Entries(items)| ==>
      Entries(items)[i].number == i + 1 &&
      Entries(items)[i].title == TitleOf(items[i]) &&
      Entries(items)[i].link == LinkOf(items[i])
  {
  }

  /** The list markup is empty exactly when there are no entries. */
  lemma {:induction false} ListHtmlEmpty(es: seq<Entry>)
    ensures ListHtml(es) == "" <==> es == []
  {
    if es != [] {
      var e := es[|es| - 1];
      assert |EntryHtml(e)| > 0;
      assert |ListHtml(es)| >= |EntryHtml(e)|;
    }
  }

  /** Extending the entries by one appends that entry's markup. */
  lemma ListHtmlStep(es: seq<Entry>, i: nat)
    requires i < |es|
    ensures ListHtml(es[..i + 1]) == ListHtml(es[..i]) + EntryHtml(es[i])
  {
    assert es[..i + 1][..i] == es[..i];
  }

  /** The `for` loop that accumulates `trendsHtml`. */
  method BuildTrendsHtml(items: seq<FeedItem>) returns (html: string)
    ensures html == ListHtml(Entries(items))
    ensures html == "" <==> items == []
  {
    html := "";
    var maxTrends := Min(|items|, MaxTrends);
    ghost var entries := Entries(items);
    for i := 0 to maxTrends
      invariant html == ListHtml(entries[..i])
    {
      var item := items[i];
      var title := TitleOf(item);
      var articleLink := LinkOf(item);
      ListHtmlStep(entries, i);
      html := html + EntryHtml(Entry(i + 1, articleLink, title));
    }
    assert entries[..maxTrends] == entries;
    ListHtmlEmpty(entries);
  }

  /** What the synchronous part captured for the callbacks: the cached list
      as read at the start, and the start time. */
  datatype Pending = Pending(snapshot: Option<string>, startedAt: int)

  predicate CacheHit(storage: map<string, string>, now: int) {
    IsFresh(GetItem(storage, TrendsKey), GetItem(storage, StampKey), now)
  }

  /** The failure branch shows the snapshot, or the error entry. */
  function Fallback(p: Pending): string {
    if Truthy(p.snapshot) then p.snapshot.value else NoTrends
  }

  /** Storage afterwards and the markup written to the list (None: nothing
      written). */
  datatype Completion = Completion(storage: map<string, string>, rendered: Option<string>)

  function Complete(storage: map<string, string>, hasList: bool, p: Pending,
                    response: Fetched<seq<FeedItem>>, writes: Writes): Completion
  {
    if !hasList then Completion(storage, None)
    else match response
      case Failed => Completion(storage, Some(Fallback(p)))
      case Loaded(items) =>
        var html := ListHtml(Entries(items));
        var stored := Persist(storage, TrendsKey, StampKey, html, IntToString(p.startedAt), writes);
        Completion(stored, Some(if writes.BothStored? then html else Fallback(p)))
  }

  datatype Call = Call(fetched: bool, storage: map<string, string>, rendered: Option<string>)

  /** One whole call with nothing else touching storage in between. */
  function Invoke(storage: map<string, string>, hasList: bool, now: int,
                  response: Fetched<seq<FeedItem>>, writes: Writes): Call
  {
    if CacheHit(storage, now) then
      Call(false, storage, if hasList then Some(storage[TrendsKey]) else None)
    else
      var c := Complete(storage, hasList, Pending(GetItem(storage, TrendsKey), now), response, writes);
      Call(true, c.storage, c.rendered)
  }

  /** A fresh cache is served as it is: no request, no write. */
  lemma HitServesCache(storage: map<string, string>, now: int,
                       response: Fetched<seq<FeedItem>>, writes: Writes)
    requires CacheHit(storage, now)
    ensures var c := Invoke(storage, true, now, response, writes);
      !c.fetched && c.storage == storage && TrendsKey in storage &&
      c.rendered == Some(storage[TrendsKey])
  {
  }

  /** A success with the list present shows the new list and stores it with
      the time the call STARTED, not the time the response arrived. */
  lemma SuccessStoresStartTime(storage: map<string, string>, now: int, items: seq<FeedItem>)
    requires !CacheHit(storage, now)
    ensures var c := Invoke(storage, true, now, Loaded(items), BothStored);
      var html := ListHtml(Entries(items));
      c.fetched && c.rendered == Some(html) &&
      GetItem(c.storage, TrendsKey) == Some(html) &&
      GetItem(c.storage, StampKey) == Some(IntToString(now)) &&
      forall k :: k != TrendsKey && k != StampKey ==> GetItem(c.storage, k) == GetItem(storage, k)
  {
  }

  /** Without the list element nothing is shown and nothing is stored,
      whatever the response. */
  lemma NoListNoEffect(storage: map<string, string>, now: int,
                       response: Fetched<seq<FeedItem>>, writes: Writes)
    requires !CacheHit(storage, now)
    ensures var c := Invoke(storage, false, now, response, writes);
      c.fetched && c.storage == storage && c.rendered == None
  {
  }

  /** The failure branch shows the list read when the call started, whatever
      storage holds when the response fails, and writes nothing. */
  lemma FailureUsesStartSnapshot(storage: map<string, string>, snapshot: Option<string>,
                                 startedAt: int, writes: Writes)
    ensures var c := Complete(storage, true, Pending(snapshot, startedAt), Failed, writes);
      c.storage == storage &&
      c.rendered == Some(if Truthy(snapshot) then snapshot.value else NoTrends)
  {
  }

  /** A storage error on the success path is caught by the failure branch:
      the cached list of the start (or the error entry) replaces the new
      list, and the new list may be stored without a fresh timestamp. */
  lemma QuotaErrorShowsFallback(storage: map<string, string>, now: int, items: seq<FeedItem>,
                                writes: Writes)
    requires !CacheHit(storage, now)
    requires !writes.BothStored?
    ensures var c := Invoke(storage, true, now, Loaded(items), writes);
      c.rendered == Some(Fallback(Pending(GetItem(storage, TrendsKey), now))) &&
      GetItem(c.storage, StampKey) == GetItem(storage, StampKey)
  {
  }

  /** After a fully stored success with at least one item, any call less
      than 300000 ms after the first call STARTED is served from the cache
      with the same markup. */
  lemma {:induction false} SecondCallServedFromCache(
    storage: map<string, string>, now1: int, items: seq<FeedItem>,
    now2: int, response2: Fetched<seq<FeedItem>>, writes2: Writes)
    requires !CacheHit(storage, now1)
    requires items != []
    requires now2 - now1 < StalenessWindow
    ensures var first := Invoke(storage, true, now1, Loaded(items), BothStored);
      var second := Invoke(first.storage, true, now2, response2, writes2);
      first.fetched && !second.fetched &&
      second.storage == first.storage && second.rendered == first.rendered
  {
    var first := Invoke(storage, true, now1, Loaded(items), BothStored);
    var html := ListHtml(Entries(items));
    assert Entries(items) != [] by { assert |Entries(items)| == Min(|items|, MaxTrends) > 0; }
    ListHtmlEmpty(Entries(items));
    assert GetItem(first.storage, TrendsKey) == Some(html);
    assert GetItem(first.storage, StampKey) == Some(IntToString(now1));
    StoredStampFreshness(html, now1, now2);
  }

  /** The widget: localStorage, the markup of `#trending-list`, and the
      number of requests made to the feed. */
  class TrendsWidget {
    var storage: map<string, string>
    var listHtml: string
    var requests: nat
    const hasList: bool

    constructor (storage: map<string, string>, listHtml: string, hasList: bool)
      ensures this.storage == storage && this.listHtml == listHtml
      ensures this.hasList == hasList && requests == 0
    {
      this.storage := storage;
      this.listHtml := listHtml;
      this.hasList := hasList;
      requests := 0;
    }

    /** The synchronous part: the cache test, and either the cached list
        shown or a request sent; a request carries the snapshot. */
    method Begin(now: int) returns (pending: Option<Pending>)
      modifies this
      ensures pending.Some? == !CacheHit(old(storage), now)
      ensures pending.Some? ==> pending.value == Pending(GetItem(old(storage), TrendsKey), now)
      ensures storage == old(storage)
      ensures requests == old(requests) + (if pending.Some? then 1 else 0)
      ensures listHtml == if pending.None? && hasList then storage[TrendsKey] else old(listHtml)
    {
      var cachedTrends := GetItem(storage, TrendsKey);
      var cachedStamp := GetItem(storage, StampKey);
      if IsFresh(cachedTrends, cachedStamp, now) {
        if hasList {
          listHtml := cachedTrends.value;
        }
        return None;
      }
      requests := requests + 1;
      return Some(Pending(cachedTrends, now));
    }

    /** The completion callbacks, run on whatever storage holds when the
        response settles. */
    method Finish(p: Pending, response: Fetched<seq<FeedItem>>, writes: Writes)
      modifies this
      ensures var c := Complete(old(storage), hasList, p, response, writes);
        storage == c.storage && listHtml == (if c.rendered.Some? then c.rendered.value else old(listHtml))
      ensures requests == old(requests)
    {
      match response {
        case Loaded(items) =>
          var trendsHtml := BuildTrendsHtml(items);
          if hasList {
            listHtml := trendsHtml;
            storage := Persist(storage, TrendsKey, StampKey, trendsHtml, IntToString(p.startedAt), writes);
            if !writes.BothStored? {
              listHtml := Fallback(p);
            }
          }
        case Failed =>
          if hasList {
            listHtml := Fallback(p);
          }
      }
    }

    /** `fetchGoogleTrends()` when nothing else runs between the request and
        its response. */
    method FetchGoogleTrends(now: int, response: Fetched<seq<FeedItem>>, writes: Writes)
      modifies this
      ensures var c := Invoke(old(storage), hasList, now, response, writes);
        storage == c.storage &&
        requests == old(requests) + (if c.fetched then 1 else 0) &&
        listHtml == (if c.rendered.Some? then c.rendered.value else old(listHtml))
    {
      var pending := Begin(now);
      if pending.Some? {
        Finish(pending.value, response, writes);
      }
    }
  }
}
