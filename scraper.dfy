/** The `/scrape` handler (app.py:184-253) with the upstream site as a
    parameter: it validates the filter, reads page 1 once to find the
    sub-location links, settles the final parameters, reads page 1 again
    and then pages 2 to min(4, page_count), and returns the page-1 `meta`
    with the normalised listings of all pages in page order.

    `upstream` is the JSON page the search endpoint serves for a parameter
    set; the build id, the HTTP request and the pause between pages are
    outside the model. */
module Scraper {
  import opened PyJson
  import opened Filters
  import opened Normaliser
  import opened SubLocation

  /** The upstream search endpoint: the page it serves for a parameter set. */
  type Upstream = Params -> Json

  /** The JSON body of a successful `/scrape` answer. */
  datatype SearchResponse = SearchResponse(meta: Json, totalListings: int, results: seq<Listing>)

  /** The most pages one request reads. */
  const MaxPages: int := 4

  /** `body.get(key)` for a body that is a dict. */
  function BodyField(body: Json, key: string): Json {
    if body.JObj? then Field(body.fields, key, JNull) else JNull
  }

  /** The body's filter checked against the lookup tables and turned into
      the base parameters (lines 184-209); a body that is not a dict has no
      `get`. */
  function BaseParams(body: Json): Result<Params> {
    if !body.JObj? then Err(AttributeError)
    else
      Validate(BodyField(body, "main_location"), BodyField(body, "option"),
               BodyField(body, "property_type"), BodyField(body, "number_of_bedrooms"))
  }

  /** What the page-1 probe decides about the zone id (lines 214-229): its
      `pageProps.searchResult` must be a dict, and its
      `pageMeta.aggregationLinks` (default `[]`) are matched against the
      sub-location name. */
  function ProbeZone(sub: Json, probe: Json, lParam: string -> Option<string>): Result<Option<string>> {
    var pageProps :- Index(probe, "pageProps");
    var search :- Index(pageProps, "searchResult");
    if !search.JObj? then Err(AttributeError)
    else
      var links :- Get(Field(pageProps.fields, "pageMeta", Empty), "aggregationLinks", JArr([]));
      SubLocationOverride(sub, links, lParam)
  }

  /** The parameters of the final fetches (lines 184-229). The page-1 probe
      is read with the base parameters; `fetch_property_data` sets `page`
      in the dict it is given, so the copy made afterwards carries
      `page = 1`, and a sub-location match then replaces `l`. */
  function Prepare(body: Json, upstream: Upstream, lParam: string -> Option<string>): Result<Params> {
    var base :- BaseParams(body);
    var probe := base["page" := JNum(1)];
    var zone :- ProbeZone(BodyField(body, "sub_location"), upstream(probe), lParam);
    Ok(if zone.Some? then probe["l" := JStr(zone.value)] else probe)
  }

  /** `data["pageProps"]["searchResult"].get("meta", {})` (line 234). */
  function PageMeta(data: Json): Result<Json> {
    var pageProps :- Index(data, "pageProps");
    var search :- Index(pageProps, "searchResult");
    Get(search, "meta", Empty)
  }

  /** `min(4, meta.get("page_count", 1))` (lines 235-236). A bool compares
      as 0 or 1; None, a str, a list or a dict cannot be compared with an
      int. */
  function PagesToFetch(meta: Json): (r: Result<int>)
    ensures r.Ok? ==> r.value <= MaxPages
    ensures r.Ok? <==> meta.JObj? && (!("page_count" in meta.fields) ||
                                      meta.fields["page_count"].JNum? || meta.fields["page_count"].JBool?)
    ensures meta.JObj? && "page_count" !in meta.fields ==> r == Ok(1)
    ensures meta.JObj? && "page_count" in meta.fields && meta.fields["page_count"].JNum? ==>
              r == Ok(if meta.fields["page_count"].n < MaxPages then meta.fields["page_count"].n else MaxPages)
  {
    var count :- Get(meta, "page_count", JNum(1));
    match count
    case JNum(n) => Ok(if n < MaxPages then n else MaxPages)
    case JBool(b) => Ok(if b then 1 else 0)
    case _ => Err(TypeError)
  }

  /** The final fetches: page 1, then pages 2 to `last` (lines 233, 242), all
      with the same parameters except `page`. */
  function Plan(params: Params, last: int): (plan: seq<Params>)
    ensures |plan| == if last < 1 then 1 else last
    ensures forall k :: 0 <= k < |plan| ==> plan[k] == params["page" := JNum(k + 1)]
  {
    seq(if last < 1 then 1 else last, k => params["page" := JNum(k + 1)])
  }

  /** The normalised listings of the pages served for `requests`,
      concatenated in request order (lines 239-246). */
  function Gather(upstream: Upstream, requests: seq<Params>): Result<seq<Listing>>
    decreases |requests|
  {
    if requests == [] then Ok([])
    else
      var earlier :- Gather(upstream, requests[..|requests| - 1]);
      var page :- CleanData(upstream(requests[|requests| - 1]));
      Ok(earlier + page.results)
  }

  /** Lines 232-253 for the final parameters: page 1 gives the `meta` and
      the page count, then pages 1 to min(4, page_count) are normalised and
      concatenated. */
  function Collect(upstream: Upstream, params: Params): Result<SearchResponse> {
    var meta :- PageMeta(upstream(params["page" := JNum(1)]));
    var last :- PagesToFetch(meta);
    var results :- Gather(upstream, Plan(params, last));
    Ok(SearchResponse(meta, |results|, results))
  }

  /** `scrape` for a request body. */
  function ScrapeSpec(body: Json, upstream: Upstream, lParam: string -> Option<string>): Result<SearchResponse> {
    var params :- Prepare(body, upstream, lParam);
    Collect(upstream, params)
  }

  /** A `page_count` of 10 reads exactly pages 1 to 4. */
  lemma TenPagesReadFour(meta: Json, params: Params)
    requires meta.JObj? && "page_count" in meta.fields && meta.fields["page_count"] == JNum(10)
    ensures PagesToFetch(meta) == Ok(4)
    ensures Plan(params, 4) == [params["page" := JNum(1)], params["page" := JNum(2)],
                                params["page" := JNum(3)], params["page" := JNum(4)]]
  {
  }

  /** A page that fails in a prefix of the requests is the error of all. */
  lemma {:induction false} GatherPrefixError(upstream: Upstream, requests: seq<Params>, k: nat)
    requires k <= |requests|
    ensures Gather(upstream, requests[..k]).Err? ==> Gather(upstream, requests) == Gather(upstream, requests[..k])
    decreases |requests| - k
  {
    if k < |requests| {
      var n := |requests|;
      assert requests[..n][..n - 1] == requests[..n - 1];
      GatherPrefixError(upstream, requests[..n - 1], k);
      assert requests[..n - 1][..k] == requests[..k];
      assert requests[..n] == requests;
    } else {
      assert requests[..k] == requests;
    }
  }

  /** Both results, concatenated, or the first of their errors. */
  function Join(x: Result<seq<Listing>>, y: Result<seq<Listing>>): Result<seq<Listing>> {
    var u :- x;
    var v :- y;
    Ok(u + v)
  }

  /** Page order is kept: the listings of earlier requests come first,
      those of later requests after them, each in its page's own order; the
      first page that fails decides the error. */
  lemma {:induction false} GatherAppend(upstream: Upstream, a: seq<Params>, b: seq<Params>)
    ensures Gather(upstream, a + b) == Join(Gather(upstream, a), Gather(upstream, b))
    decreases |b|
  {
    if b == [] {
      assert a + b == a;
      if Gather(upstream, a).Ok? {
        assert Gather(upstream, a).value + [] == Gather(upstream, a).value;
      }
    } else {
      var n := |b|;
      var init := b[..n - 1];
      assert (a + b)[..|a + b| - 1] == a + init;
      assert (a + b)[|a + b| - 1] == b[n - 1];
      GatherAppend(upstream, a, init);
      var x, y, z := Gather(upstream, a), Gather(upstream, init), CleanData(upstream(b[n - 1]));
      if x.Ok? && y.Ok? && z.Ok? {
        assert x.value + y.value + z.value.results == x.value + (y.value + z.value.results);
      }
    }
  }

  /** Only the zone id and the page number can differ from the validated
      base parameters, and the zone id only by a non-empty sub-location
      override. */
  lemma PrepareKeepsBase(body: Json, upstream: Upstream, lParam: string -> Option<string>)
    ensures Prepare(body, upstream, lParam).Ok? ==> BaseParams(body).Ok?
    ensures Prepare(body, upstream, lParam).Ok? ==>
      var base := BaseParams(body).value;
      var p := Prepare(body, upstream, lParam).value;
      && "l" in base && "l" in p
      && p == base["page" := JNum(1)]["l" := p["l"]]
      && (p["l"] == base["l"] || (p["l"].JStr? && p["l"].s != ""))
  {
    if Prepare(body, upstream, lParam).Ok? {
      var base := BaseParams(body).value;
      ValidatedParams(BodyField(body, "main_location"), BodyField(body, "option"),
                      BodyField(body, "property_type"), BodyField(body, "number_of_bedrooms"));
      assert "l" in base;
    }
  }

  /** The filter is validated before anything is read upstream: an unknown
      name is the answer whatever the upstream pages hold. */
  lemma ValidationComesFirst(body: Json, upstream: Upstream, lParam: string -> Option<string>)
    requires BaseParams(body).Err?
    ensures ScrapeSpec(body, upstream, lParam) == Err(BaseParams(body).error)
  {
  }

  /** A successful aggregation answers with the `meta` of the final page 1,
      the listings of pages 1 to min(4, page_count) in page order, and
      their number as `total_listings`. */
  lemma CollectReadsPlan(upstream: Upstream, params: Params)
    requires Collect(upstream, params).Ok?
    ensures var answer := Collect(upstream, params).value;
      && PageMeta(upstream(params["page" := JNum(1)])) == Ok(answer.meta)
      && PagesToFetch(answer.meta).Ok?
      && 1 <= |Plan(params, PagesToFetch(answer.meta).value)| <= MaxPages
      && Gather(upstream, Plan(params, PagesToFetch(answer.meta).value)) == Ok(answer.results)
      && answer.totalListings == |answer.results|
  {
  }

  /** The plan for one more page is the plan extended by that page. */
  lemma PlanStep(params: Params, n: int)
    requires n >= 1
    ensures Plan(params, n + 1) == Plan(params, n) + [params["page" := JNum(n + 1)]]
    ensures Plan(params, n + 1)[1..] == Plan(params, n)[1..] + [params["page" := JNum(n + 1)]]
  {
    assert Plan(params, n + 1) == Plan(params, n) + [params["page" := JNum(n + 1)]];
  }

  /** The plan for fewer pages is a prefix of the plan. */
  lemma PlanPrefix(params: Params, n: int, last: int)
    requires 1 <= n <= last
    ensures Plan(params, last)[..n] == Plan(params, n)
  {
  }

  /** Reading page n + 1 extends the listings of pages 1 to n by its own, or
      fails with its error. */
  lemma GatherPlanStep(upstream: Upstream, params: Params, n: int)
    requires n >= 1 && Gather(upstream, Plan(params, n)).Ok?
    ensures var page := CleanData(upstream(params["page" := JNum(n + 1)]));
      && (page.Ok? ==> Gather(upstream, Plan(params, n + 1)) == Ok(Gather(upstream, Plan(params, n)).value + page.value.results))
      && (page.Err? ==> Gather(upstream, Plan(params, n + 1)) == Err(page.error))
  {
    PlanStep(params, n);
    var next := Plan(params, n + 1);
    assert next[..|next| - 1] == Plan(params, n);
  }

  /** A page that fails before the last one is the error of the whole plan. */
  lemma GatherPlanError(upstream: Upstream, params: Params, n: int, last: int)
    requires 1 <= n <= last
    ensures Gather(upstream, Plan(params, n)).Err? ==>
              Gather(upstream, Plan(params, last)) == Gather(upstream, Plan(params, n))
  {
    PlanPrefix(params, n, last);
    GatherPrefixError(upstream, Plan(params, last), n);
  }

  /** Page 1 alone gives its own listings; when it fails, that is the error
      of the whole plan. */
  lemma GatherFirstPage(upstream: Upstream, params: Params, last: int)
    ensures var page := CleanData(upstream(params["page" := JNum(1)]));
      && (page.Ok? ==> Gather(upstream, Plan(params, 1)) == Ok(page.value.results))
      && (page.Err? ==> Gather(upstream, Plan(params, last)) == Err(page.error))
  {
    var one := Plan(params, 1);
    assert one[..0] == [];
    if CleanData(upstream(params["page" := JNum(1)])).Ok? {
      assert [] + CleanData(upstream(params["page" := JNum(1)])).value.results
          == CleanData(upstream(params["page" := JNum(1)])).value.results;
    }
    if last > 1 {
      GatherPlanError(upstream, params, 1, last);
    } else {
      assert Plan(params, last) == one;
    }
  }

  /** The loop of lines 238-246: pages 2 to `last` are read in order and
      their listings added to those of page 1. `fetched` lists the
      parameter sets of the pages read. */
  method AggregatePages(upstream: Upstream, params: Params, last: int, firstResults: seq<Listing>)
    returns (r: Result<seq<Listing>>, fetched: seq<Params>)
    requires Gather(upstream, Plan(params, 1)) == Ok(firstResults)
    ensures r == Gather(upstream, Plan(params, last))
    ensures r.Ok? ==> fetched == Plan(params, last)[1..]
  {
    var results := firstResults;
    fetched := [];
    var page := 2;
    while page <= last
      invariant 2 <= page && (page <= last + 1 || page == 2)
      invariant fetched == Plan(params, page - 1)[1..]
      invariant Gather(upstream, Plan(params, page - 1)) == Ok(results)
      decreases last - page
    {
      var current := params["page" := JNum(page)];
      PlanStep(params, page - 1);
      GatherPlanStep(upstream, params, page - 1);
      GatherPlanError(upstream, params, page, last);
      fetched := fetched + [current];
      var clean := ExtractCleanData(upstream(current));
      if clean.Err? {
        r := Err(clean.error);
        return;
      }
      results := results + clean.value.results;
      page := page + 1;
    }
    assert Plan(params, page - 1) == Plan(params, last);
    r := Ok(results);
  }

  /** Lines 232-253 as the source runs them: page 1 is read for the page
      count and its listings, then the later pages are added. `requests`
      lists the parameter sets of the pages read, in order. */
  method FetchPages(upstream: Upstream, params: Params) returns (r: Result<SearchResponse>, requests: seq<Params>)
    ensures r == Collect(upstream, params)
    ensures r.Ok? ==> PagesToFetch(r.value.meta).Ok? && requests == Plan(params, PagesToFetch(r.value.meta).value)
  {
    var current := params["page" := JNum(1)];
    requests := [current];
    var first := upstream(current);
    var meta :- PageMeta(first);
    var last :- PagesToFetch(meta);
    GatherFirstPage(upstream, params, last);
    var firstPage := ExtractCleanData(first);
    if firstPage.Err? {
      r := Err(firstPage.error);
      return;
    }
    var results, later := AggregatePages(upstream, params, last, firstPage.value.results);
    if results.Err? {
      r := Err(results.error);
      return;
    }
    requests := requests + later;
    ghost var plan := Plan(params, last);
    assert plan == [plan[0]] + plan[1..];
    r := Ok(SearchResponse(meta, |results.value|, results.value));
  }

  /** Lines 184-229 as the source runs them: the base parameters are
      validated, page 1 is probed with them, and `params_to_use` has its
      `l` replaced in place on a match. `probes` lists the parameter sets
      fetched. */
  method PrepareParams(body: Json, upstream: Upstream, lParam: string -> Option<string>)
    returns (r: Result<Params>, probes: seq<Params>)
    ensures r == Prepare(body, upstream, lParam)
    ensures BaseParams(body).Err? ==> probes == []
    ensures BaseParams(body).Ok? ==> probes == [BaseParams(body).value["page" := JNum(1)]]
  {
    probes := [];
    var params :- BaseParams(body);
    params := params["page" := JNum(1)];
    probes := [params];
    var zone :- ProbeZone(BodyField(body, "sub_location"), upstream(params), lParam);
    if zone.Some? {
      params := params["l" := JStr(zone.value)];
    }
    r := Ok(params);
  }

  /** `scrape` as the source runs it: the final parameters are prepared,
      then the pages are read with them. `requests` lists the parameter
      sets of the upstream fetches in the order they are made: nothing
      before the filter is validated, then the probe with the base
      parameters, then pages 1 to the last page with the final ones. */
  method Scrape(body: Json, upstream: Upstream, lParam: string -> Option<string>)
    returns (r: Result<SearchResponse>, requests: seq<Params>)
    ensures r == ScrapeSpec(body, upstream, lParam)
    ensures BaseParams(body).Err? ==> requests == []
    ensures r.Ok? ==>
              && BaseParams(body).Ok? && Prepare(body, upstream, lParam).Ok?
              && PagesToFetch(r.value.meta).Ok?
              && |requests| >= 2
              && requests[0] == BaseParams(body).value["page" := JNum(1)]
              && requests[1..] == Plan(Prepare(body, upstream, lParam).value, PagesToFetch(r.value.meta).value)
  {
    var prepared;
    prepared, requests := PrepareParams(body, upstream, lParam);
    if prepared.Err? {
      r := Err(prepared.error);
      return;
    }
    var pages;
    r, pages := FetchPages(upstream, prepared.value);
    requests := requests + pages;
    if r.Ok? {
      assert requests[1..] == pages;
    }
  }
}
