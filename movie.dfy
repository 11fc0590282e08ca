/**
 * The random-movie badge, `fetchRandomMovie` and its inner
 * `tryFetchWithProxy` (js/comp_movie.js). The film page is requested
 * through three CORS proxies in a fixed order; the first one whose request
 * and page processing succeed names the movie, and when all three fail the
 * badge says so. There is no cache.
 */
module Movie {
  import opened JsValues

  const Proxies := [
    "https://api.allorigins.win/raw?url=",
    "https://cors-anywhere.herokuapp.com/",
    "https://cors-proxy.htmldriven.com/?url="
  ]
  const NotFound := "Movie Not Found"
  const UnknownMovie := "Unknown Movie"

  /** What trying one proxy gives: the request or the processing of its page
      failed, or the page was read; `entryTitle` is the text of its
      `.entry-title` element (None when there is none). */
  datatype Attempt = Error | Page(entryTitle: Option<string>)

  /** The name shown for a page that was read: the trimmed title text, or
      "Unknown Movie" when the page has no title element. An element with
      only white space gives the empty name. */
  function MovieTitle(entryTitle: Option<string>): (name: string)
    ensures entryTitle.None? ==> name == UnknownMovie
    ensures entryTitle.Some? ==> name == Trim(entryTitle.value)
    ensures entryTitle.Some? && AllSpace(entryTitle.value) ==> name == ""
  {
    match entryTitle
    case None => UnknownMovie
    case Some(text) => TrimBlank(text); Trim(text)
  }

  /** Index of the first attempt that read a page (|outcomes| when none did). */
  function FirstSuccess(outcomes: seq<Attempt>): (k: nat)
    ensures k <= |outcomes|
    ensures forall j :: 0 <= j < k ==> outcomes[j].Error?
    ensures k < |outcomes| ==> outcomes[k].Page?
  {
    if outcomes == [] || outcomes[0].Page? then 0 else 1 + FirstSuccess(outcomes[1..])
  }

  /** The chain: proxy i is tried only after proxies 0..i-1 failed, and the
      first page read ends it. `outcomes[i]` is what proxy i would give.
      Returns the text written to the badge and the proxies requested. */
  method TryFetchWithProxy(outcomes: seq<Attempt>) returns (name: string, tried: seq<string>)
    requires |outcomes| == |Proxies|
    ensures var k := FirstSuccess(outcomes);
      if k < |Proxies| then
        tried == Proxies[..k + 1] && name == MovieTitle(outcomes[k].entryTitle)
      else
        tried == Proxies && name == NotFound
    ensures 1 <= |tried| <= |Proxies|
  {
    var proxyIndex := 0;
    tried := [];
    while true
      invariant 0 <= proxyIndex <= |Proxies|
      invariant tried == Proxies[..proxyIndex]
      invariant forall j :: 0 <= j < proxyIndex ==> outcomes[j].Error?
      decreases |Proxies| - proxyIndex
    {
      if proxyIndex >= |Proxies| {
        name := NotFound;
        return;
      }
      var corsProxy := Proxies[proxyIndex];
      tried := tried + [corsProxy];
      match outcomes[proxyIndex] {
        case Page(entryTitle) =>
          name := MovieTitle(entryTitle);
          return;
        case Error =>
          proxyIndex := proxyIndex + 1;
      }
    }
  }

  /** Two typical runs: the first two proxies fail and the third returns a
      page titled " Heat " (shown as "Heat" after the third request), or all
      three fail (shown as "Movie Not Found" after three requests). */
  lemma {:induction false} ChainScenarios()
    ensures var third := [Error, Error, Page(Some(" Heat "))];
      FirstSuccess(third) == 2 && MovieTitle(third[2].entryTitle) == "Heat"
    ensures FirstSuccess([Error, Error, Error]) == |Proxies|
  {
    var third := [Error, Error, Page(Some(" Heat "))];
    assert third[1..] == [Error, Page(Some(" Heat "))];
    assert third[1..][1..] == [Page(Some(" Heat "))];
    var none := [Error, Error, Error];
    assert none[1..] == [Error, Error];
    assert none[1..][1..] == [Error];
    assert none[1..][1..][1..] == [];
    var t := " Heat ";
    assert TrimStart(t[1..]) == "Heat ";
    assert TrimEnd("Heat "[..4]) == "Heat";
  }

  /** The badge: the text of its name span and the number of requests made
      through the proxies. */
  class MovieBadge {
    var name: string
    var requests: nat
    const hasSpan: bool
    const hasBadge: bool

    constructor (name: string, hasSpan: bool, hasBadge: bool)
      ensures this.name == name && this.hasSpan == hasSpan && this.hasBadge == hasBadge
      ensures requests == 0
    {
      this.name := name;
      this.hasSpan := hasSpan;
      this.hasBadge := hasBadge;
      requests := 0;
    }

    /** `fetchRandomMovie()`: nothing at all happens when the badge or its
        name span is missing; otherwise the chain runs and its last text is
        what the badge shows. */
    method FetchRandomMovie(outcomes: seq<Attempt>)
      requires |outcomes| == |Proxies|
      modifies this
      ensures !hasSpan || !hasBadge ==> name == old(name) && requests == old(requests)
      ensures hasSpan && hasBadge ==>
        var k := FirstSuccess(outcomes);
        (k < |Proxies| ==> name == MovieTitle(outcomes[k].entryTitle) && requests == old(requests) + k + 1) &&
        (k == |Proxies| ==> name == NotFound && requests == old(requests) + |Proxies|)
    {
      if !hasSpan || !hasBadge {
        return;
      }
      var movieName, tried := TryFetchWithProxy(outcomes);
      name := movieName;
      requests := requests + |tried|;
    }
  }
}
