// cf_box/client.py: the retrying request, page-by-page fetching of a
// listing endpoint, and the endpoints of the listing calls.

module Client {
  import opened Base
  import opened Text
  import opened Http

  const DefaultPerPage := 50

  // ---------------------------------------------------------------------------
  // request

  /**
   * An attempt ends the loop when it is a response that is neither 429 nor
   * an error status: `raise_for_status` raises a client error for every
   * status from 400 on, which the loop catches and retries like a
   * transport failure.
   */
  predicate Completes<B>(reply: Reply<B>) {
    reply.Response? && reply.status != 429 && reply.status < 400
  }

  /**
   * `request`: at most `max_retries` attempts; the body of the first
   * completing one, or None once they are used up.
   */
  method Request<B>(replies: nat -> Reply<B>, maxRetries: int) returns (r: Option<B>, attempts: nat)
    ensures var first := FirstFinal(replies, Completes, Attempts(maxRetries));
      && r == (if first.Some? then Some(replies(first.value).body) else None)
      && attempts == (if first.Some? then first.value + 1 else Attempts(maxRetries))
  {
    var n := Attempts(maxRetries);
    attempts := 0;
    while attempts < n
      invariant attempts <= n
      invariant forall k :: 0 <= k < attempts ==> !Completes(replies(k))
    {
      var reply := replies(attempts);
      attempts := attempts + 1;
      if reply.Response? && reply.status == 429 {
        continue;
      }
      if reply.Thrown? || reply.status >= 400 {
        continue;
      }
      FirstFinalAt(replies, Completes, n, attempts - 1);
      return Some(reply.body), attempts;
    }
    return None, attempts;
  }

  /** Every attempt rate-limited: None after exactly `max_retries` attempts. */
  lemma AllRateLimitedGivesNone<B>(replies: nat -> Reply<B>, maxRetries: int)
    requires forall k: nat :: replies(k).Response? && replies(k).status == 429
    ensures FirstFinal(replies, Completes, Attempts(maxRetries)) == None
  {
  }

  // ---------------------------------------------------------------------------
  // fetch_all_pages

  /** The `result` of a reply: a list, or one object. */
  datatype Payload<T> = Items(items: seq<T>) | Single(item: T)

  /**
   * The reply envelope. `success` is false when missing or falsy; `result`
   * is None when missing, null or any other falsy non-list value.
   */
  datatype Envelope<T> = Envelope(success: bool, result: Option<Payload<T>>)

  /** `self.base_url + "/" + endpoint.lstrip("/")`. */
  function EndpointUrl(baseUrl: string, endpoint: string): (url: string)
  {
    baseUrl + "/" + LStripChar(endpoint, '/')
  }

  /**
   * The endpoint URL is the base URL, one "/", and the endpoint with all of
   * its leading "/" dropped and nothing else.
   */
  lemma EndpointUrlStripsSlashes(baseUrl: string, endpoint: string)
    ensures var k := |endpoint| - |LStripChar(endpoint, '/')|;
      && EndpointUrl(baseUrl, endpoint) == baseUrl + "/" + endpoint[k..]
      && (forall j :: 0 <= j < k ==> endpoint[j] == '/')
      && (k == |endpoint| || endpoint[k] != '/')
  {
  }

  /** The separator before the paging parameters: "&" once the URL has a query. */
  function Separator(url: string): string {
    if '?' in url then "&" else "?"
  }

  /** The paging parameters: `f"per_page={per_page}&page={page}"`. */
  function PageQuery(perPage: int, page: int): string {
    "per_page=" + IntToString(perPage) + "&page=" + IntToString(page)
  }

  /** `f"{url}{separator}per_page={per_page}&page={page}"`. */
  function PageUrl(url: string, perPage: int, page: int): string {
    url + Separator(url) + PageQuery(perPage, page)
  }

  /** A page URL extends the URL, and has a query string: the URL's own, or one it opens. */
  lemma {:induction false} PageUrlQuery(url: string, perPage: int, page: int)
    ensures var p := PageUrl(url, perPage, page);
      && |p| > |url| && p[..|url|] == url
      && p[|url|] == (if '?' in url then '&' else '?')
      && Count(p, '?') == (if '?' in url then Count(url, '?') else 1)
  {
    var sep, tail := Separator(url), PageQuery(perPage, page);
    PageQueryPlain(perPage, page);
    CountAppend(url + sep, tail, '?');
    CountAppend(url, sep, '?');
    assert Count(sep, '?') == if '?' in url then 0 else 1 by {
      assert sep == [sep[0]] && sep[1..] == [];
    }
  }

  /** The paging parameters hold no "?". */
  lemma PageQueryPlain(perPage: int, page: int)
    ensures '?' !in PageQuery(perPage, page)
  {
    var a, b := IntToString(perPage), IntToString(page);
    assert '?' !in a && '?' !in b;
    NotInAppend('?', "per_page=", a);
    NotInAppend('?', "per_page=" + a, "&page=");
    NotInAppend('?', "per_page=" + a + "&page=", b);
  }

  /** The URLs of pages 1 to `n`, in order. */
  function PageUrls(url: string, perPage: int, n: nat): (urls: seq<string>)
    ensures |urls| == n
  {
    if n == 0 then [] else PageUrls(url, perPage, n - 1) + [PageUrl(url, perPage, n)]
  }

  /** The k-th URL requested is the one for page k + 1. */
  lemma {:induction false} PageUrlsAt(url: string, perPage: int, n: nat, k: nat)
    requires k < n
    ensures PageUrls(url, perPage, n)[k] == PageUrl(url, perPage, k + 1)
  {
    if k < n - 1 {
      PageUrlsAt(url, perPage, n - 1, k);
    }
  }

  /** The page a request for page number `k + 1` yields; past the oracle, no reply. */
  function PageAt<T>(pages: seq<Option<Envelope<T>>>, k: nat): Option<Envelope<T>> {
    if k < |pages| then pages[k] else None
  }

  /** The loop breaks before taking anything: no reply, no success, or an empty result. */
  predicate Ends<T>(p: Option<Envelope<T>>) {
    p.None? || !p.value.success || p.value.result.None? || p.value.result.value == Items([])
  }

  /** What a page adds to the results. */
  function Contribution<T>(p: Option<Envelope<T>>): seq<T> {
    if Ends(p) then []
    else match p.value.result.value
      case Items(xs) => xs
      case Single(x) => [x]
  }

  /** After this page the loop asks for the next one: a full list page. */
  predicate Continues<T>(p: Option<Envelope<T>>, perPage: int) {
    !Ends(p) && p.value.result.value.Items? && |p.value.result.value.items| >= perPage
  }

  /** The results of the first `n` pages, in page order. */
  function Gathered<T>(pages: seq<Option<Envelope<T>>>, n: nat): seq<T> {
    if n == 0 then [] else Gathered(pages, n - 1) + Contribution(PageAt(pages, n - 1))
  }

  /**
   * What `fetch_all_pages` promises: it asked for pages 1, 2, ... at their
   * page URLs, each page but the last was full, and the results are the
   * pages' results concatenated in order.
   */
  ghost predicate FetchedAll<T>(url: string, perPage: int, pages: seq<Option<Envelope<T>>>,
                                results: seq<T>, urls: seq<string>)
  {
    && 1 <= |urls| <= |pages| + 1
    && urls == PageUrls(url, perPage, |urls|)
    && (forall k :: 0 <= k < |urls| - 1 ==> Continues(PageAt(pages, k), perPage))
    && !Continues(PageAt(pages, |urls| - 1), perPage)
    && results == Gathered(pages, |urls|)
  }

  /**
   * `fetch_all_pages`: `pages[k]` is what `request` returned for page
   * `k + 1`. Returns the results and the URLs requested, in order.
   */
  method FetchAllPages<T>(baseUrl: string, endpoint: string, perPage: int, pages: seq<Option<Envelope<T>>>)
    returns (results: seq<T>, urls: seq<string>)
    ensures FetchedAll(EndpointUrl(baseUrl, endpoint), perPage, pages, results, urls)
  {
    var url := EndpointUrl(baseUrl, endpoint);
    results, urls := FetchPages(url, perPage, pages);
  }

  /** The first `n` pages were all full list pages. */
  predicate FullPages<T>(pages: seq<Option<Envelope<T>>>, perPage: int, n: nat) {
    n == 0 || (FullPages(pages, perPage, n - 1) && Continues(PageAt(pages, n - 1), perPage))
  }

  lemma {:induction false} FullPagesAll<T>(pages: seq<Option<Envelope<T>>>, perPage: int, n: nat)
    requires FullPages(pages, perPage, n)
    ensures forall k :: 0 <= k < n ==> Continues(PageAt(pages, k), perPage)
  {
    if n > 0 {
      FullPagesAll(pages, perPage, n - 1);
    }
  }

  /** A loop that stops at page `n`, after `n - 1` full pages, has fetched all it will. */
  lemma StopsAt<T>(url: string, perPage: int, pages: seq<Option<Envelope<T>>>, n: nat)
    requires 1 <= n <= |pages| + 1
    requires FullPages(pages, perPage, n - 1)
    requires !Continues(PageAt(pages, n - 1), perPage)
    ensures FetchedAll(url, perPage, pages, Gathered(pages, n), PageUrls(url, perPage, n))
  {
    FullPagesAll(pages, perPage, n - 1);
  }

  /** The loop of `fetch_all_pages`, from the endpoint URL on. */
  method FetchPages<T>(url: string, perPage: int, pages: seq<Option<Envelope<T>>>)
    returns (results: seq<T>, urls: seq<string>)
    ensures FetchedAll(url, perPage, pages, results, urls)
  {
    var page := 1;
    results := [];
    urls := [];
    while true
      invariant 1 <= page <= |pages| + 1 && |urls| == page - 1
      invariant urls == PageUrls(url, perPage, |urls|)
      invariant FullPages(pages, perPage, |urls|)
      invariant results == Gathered(pages, |urls|)
      decreases |pages| + 1 - page
    {
      var pageUrl := PageUrl(url, perPage, page);
      assert PageUrls(url, perPage, page) == urls + [pageUrl];
      urls := urls + [pageUrl];
      var data := PageAt(pages, page - 1);
      assert Gathered(pages, page) == results + Contribution(data);
      if Ends(data) {
        StopsAt(url, perPage, pages, page);
        return;
      }
      match data.value.result.value {
        case Items(xs) =>
          results := results + xs;
          if |xs| < perPage {
            StopsAt(url, perPage, pages, page);
            return;
          }
        case Single(x) =>
          results := results + [x];
          StopsAt(url, perPage, pages, page);
          return;
      }
      page := page + 1;
    }
  }

  /** The tests' scenario: two items on a first page of 50 end the listing there. */
  lemma FetchAllPagesExample<T>(a: T, b: T, results: seq<T>, urls: seq<string>)
    requires FetchedAll("https://api.cloudflare.com/client/v4/accounts", DefaultPerPage,
                        [Some(Envelope(true, Some(Items([a, b])))), Some(Envelope(true, Some(Items([]))))],
                        results, urls)
    ensures results == [a, b] && |urls| == 1
  {
    var pages := [Some(Envelope(true, Some(Items([a, b])))), Some(Envelope(true, Some(Items([]))))];
    assert !Continues(PageAt(pages, 0), DefaultPerPage);
    assert Gathered(pages, 1) == [a, b];
  }

  /** A page holding one object ends the listing with that object appended. */
  lemma {:induction false} SingleResultEnds<T>(url: string, perPage: int, pages: seq<Option<Envelope<T>>>,
                                               results: seq<T>, urls: seq<string>, k: nat)
    requires FetchedAll(url, perPage, pages, results, urls)
    requires k < |pages| && pages[k].Some? && pages[k].value.success && pages[k].value.result.Some?
    requires pages[k].value.result.value.Single?
    requires forall j :: 0 <= j < k ==> Continues(PageAt(pages, j), perPage)
    ensures |urls| == k + 1
    ensures results == Gathered(pages, k) + [pages[k].value.result.value.item]
  {
    assert !Continues(PageAt(pages, k), perPage);
    assert |urls| == k + 1;
  }

  // ---------------------------------------------------------------------------
  // Endpoints

  /** `get_zones`: filtered by account when an id is given and not empty. */
  function ZonesEndpoint(accountId: Option<string>): string {
    if accountId.Some? && accountId.value != "" then "zones?account.id=" + accountId.value else "zones"
  }

  /**
   * The zones listing of one account is requested with the account filter
   * in the query, so its paging parameters follow an "&".
   */
  lemma ZonesOfAccountPageUrl(baseUrl: string, accountId: string, perPage: int, page: int)
    requires accountId != ""
    ensures var e := ZonesEndpoint(Some(accountId));
      PageUrl(EndpointUrl(baseUrl, e), perPage, page) == baseUrl + "/" + e + "&" + PageQuery(perPage, page)
  {
    var e := ZonesEndpoint(Some(accountId));
    assert e[0] == 'z' && e[5] == '?';
    EndpointPageUrl(baseUrl, e, perPage, page);
    assert (baseUrl + "/" + e)[|baseUrl| + 6] == '?';
  }

  /**
   * Without an account the paging parameters open the query, for a base
   * URL with no query of its own.
   */
  lemma ZonesPageUrl(baseUrl: string, perPage: int, page: int)
    requires '?' !in baseUrl
    ensures PageUrl(EndpointUrl(baseUrl, ZonesEndpoint(None)), perPage, page)
      == baseUrl + "/zones?" + PageQuery(perPage, page)
  {
    var e := "zones";
    var q := PageQuery(perPage, page);
    assert ZonesEndpoint(None) == e;
    EndpointPageUrl(baseUrl, e, perPage, page);
    assert "/" + e + "?" == "/zones?";
    assert Separator(baseUrl + "/" + e) == "?" by {
      assert '?' !in "/" && '?' !in e;
    }
    calc {
      baseUrl + "/" + e + "?" + q;
      { Regroup(baseUrl, "/", e, "?"); }
      baseUrl + ("/" + e + "?") + q;
    }
  }

  /** An endpoint with no leading "/" is taken as it is. */
  lemma EndpointPageUrl(baseUrl: string, endpoint: string, perPage: int, page: int)
    requires endpoint != [] && endpoint[0] != '/'
    ensures PageUrl(EndpointUrl(baseUrl, endpoint), perPage, page)
      == baseUrl + "/" + endpoint + Separator(baseUrl + "/" + endpoint) + PageQuery(perPage, page)
  {
  }

  lemma Regroup(a: string, b: string, c: string, d: string)
    ensures a + b + c + d == a + (b + c + d)
  {
  }

}
