# Property search scraper, modelled in Dafny

The scraper answers `POST /scrape` with the listings of a property-search
site. It checks the readable filter names (main location, option, property
type) against three fixed lookup tables. It builds the query parameters of
the site's search endpoint from them. It reads page 1 once, to find the
sub-location links, and replaces the zone id `l` when a requested
sub-location matches one of them. It then reads page 1 again and pages 2 to
min(4, page_count). Every listing is normalised into a fixed-shape record,
and the response carries the page-1 `meta`, the number of records and the
records in page order. A companion Go tool reads a zone's title out of a
search page.

The project has six modules:

- `PyJson` (`pyjson.dfy`) covers the part of Python the handler relies on:
  decoded JSON values, truth values, `d.get`, `d[k]`, iteration, membership
  and the exceptions these raise. An exception is an `Err` result, so every
  crash path of the source is a value the contracts can talk about.
- `Filters` (`filters.dfy`) holds the lookup tables, the validation order and
  the base parameters.
- `Normaliser` (`normaliser.dfy`) is `extract_clean_data`. It has the
  contact scan and the listing loop as methods with loops. Each method is
  proved equal to a recursive specification, and the lemmas are about that
  specification.
- `SubLocation` (`sublocation.dfy`) is the sub-location override.
- `Scraper` (`scraper.dfy`) is the `/scrape` handler. The search endpoint is
  a parameter `upstream`, a function from a parameter set to the page it
  serves. The method `Scrape` also returns the parameter sets it fetched, in
  order.
- `LocationTitle` (`location_title.dfy`) is `extractLocationTitle` of the Go
  tool.

Two points where the code may not do what one expects; the model follows
the code:

- `images: []` might be expected to give a null `image_url`. The code
  indexes `[0]` of the empty list, raises an IndexError, and the request
  fails with 500. `Normaliser.ImageUrl` and
  `Normaliser.ImageUrlFromFirstImage` state this.
- The bedrooms parameter might be expected as `bdr[]` or `btr[]`. The code
  sends `bdr[]` only, and so does the model.

`Normaliser.Listing` and `Scraper.SearchResponse` are the records the
handler builds. `Normaliser.ToJson` is the JSON dict `jsonify` sends for one
listing; the rest of the response rendering is not modelled.

## Model

| member | source | states |
|---|---|---|
| PyJson.Truthy | app.py:124 | models Python's `bool(v)`: None, False, 0, "", `[]` and `{}` are false (used by `if not prop`, `if sub_location and aggregation_links`, `if match`, `if sub_location_id`) |
| PyJson.Field | app.py:119 | models `d.get(k, default)` on a dict: the value under `k`, or the default |
| PyJson.Get | app.py:119 | `v.get(k, d)` succeeds exactly on a dict; anything else has no `get` (AttributeError) |
| PyJson.Index | app.py:118 | `v[k]` succeeds exactly on a dict holding `k`; a dict without it raises KeyError, anything else TypeError |
| PyJson.Elements | app.py:122 | `for x in v` over a list visits exactly its items |
| PyJson.IsKeyOf | app.py:191-196 | `v in table` is true exactly for a string key of the table; it raises TypeError exactly for an unhashable list or dict |
| Filters.Validate | app.py:191-209 | models the three membership checks in order and the base parameters; its properties are `Filters.ValidationOrder` and `Filters.ValidatedParams` |
| Filters.ValidationOrder | app.py:190-196 | the checks run in the order location, option, type, and the first failing one is the 404 error; validation passes exactly when all three names are table keys |
| Filters.ValidatedParams | app.py:198-209 | validation passes only for three table keys, and the parameters are then exactly `l`, `c`, `t`, `bdr[]`, `fu`, `ob`: the three table ids, the bedrooms value as given, 0 and "mr" |
| Filters.LocationCheckedFirst | app.py:191-192 | an unknown location is reported whatever the other two names hold |
| Filters.DubaiRentApartment | app.py:12-45 | Dubai, Rent and Apartment give `l=1`, `c=2`, `t=1` |
| Normaliser.ContactStep | app.py:134-137 | models one pass of the contact loop; its property is `Normaliser.ContactStepChoice` |
| Normaliser.ScanContacts | app.py:131-137 | models the contact loop from (None, None); its properties are the contact lemmas below, and `Normaliser.ScanContactOptions` is the loop proved equal to it |
| Normaliser.ImageUrl | app.py:153 | models `prop.get("images", [{}])[0].get("medium")` with its IndexError, KeyError, TypeError and AttributeError cases; its property is `Normaliser.ImageUrlFromFirstImage` |
| Normaliser.BuildListing | app.py:139-167 | models the record dict, read in source order so the first non-dict sub-object decides the error; its properties are `Normaliser.BuildListingSucceeds` and `Normaliser.NormaliseReadsFields` |
| Normaliser.NormaliseProperty | app.py:127-167 | models one truthy `property`: defaults, contact scan and record; its properties are `Normaliser.NormaliseSucceeds`, `Normaliser.NormaliseDefaults` and `Normaliser.NormaliseReadsFields` |
| Normaliser.ItemListings | app.py:123-169 | models one loop entry; `Normaliser.NormaliseItem` is proved equal to it |
| Normaliser.CleanListings | app.py:122-169 | models the listing loop; its properties are `Normaliser.CleanListingsKeepsOrder`, `Normaliser.CleanListingsSucceeds` and `Normaliser.CleanListingsPrefixError` |
| Normaliser.CleanData | app.py:117-174 | models `extract_clean_data`; its property is `Normaliser.CleanDataReadsSearchResult`, and `Normaliser.ExtractCleanData` is the method proved equal to it |
| Normaliser.ToJson | app.py:139-167 | an emitted record holds every key, at the top level and inside `price`, `agent` and `broker` |
| Normaliser.ScanContactsPrefixError | app.py:133-137 | a contact that fails early is the error of the whole scan |
| Normaliser.ScanContactsSucceeds | app.py:133-137 | the contact scan succeeds exactly when every contact has a `type`, and a `value` when its type is email or phone |
| Normaliser.ContactStepChoice | app.py:134-137 | one pass sets the email (or phone) to the contact's value when its type matches, and otherwise keeps it |
| Normaliser.NoContactNone | app.py:131-137 | without a contact of the type, the email (or phone) stays None |
| Normaliser.LastContactWins | app.py:131-137 | the email is the value of the last email contact; the phone likewise |
| Normaliser.LastEmailExample | app.py:131-137 | of two email contacts the second one's value is kept, and the phone stays None |
| Normaliser.ScanContactOptions | app.py:131-137 | the contact loop computes exactly the scan specification, errors included |
| Normaliser.NormaliseItem | app.py:123-169 | one entry gives no record when its `property` is falsy, and otherwise the normalised record or its error |
| Normaliser.CleanListingsPrefixError | app.py:122-169 | an entry that fails early is the error of the whole listing loop |
| Normaliser.ExtractCleanData | app.py:117-174 | the listing loop computes exactly the normaliser specification: the page's `meta` and the records of the kept entries |
| Normaliser.KeptProperties | app.py:122-125 | the kept entries are never more than the entries |
| Normaliser.CleanListingsKeepsOrder | app.py:122-169 | entries without a truthy `property` are dropped; the others give their records in order, one each |
| Normaliser.CleanListingsSucceeds | app.py:122-169 | the listing loop fails exactly when an entry is not a dict, or a kept entry's record cannot be built |
| Normaliser.NormaliseDefaults | app.py:127-166 | a missing sub-object reads as `{}`, so its fields come out None (and `amenities` `[]`), never as missing keys |
| Normaliser.NormaliseReadsFields | app.py:139-167 | each record field comes from the property key of the source (`amenities` from `amenity_names`), or from the `value`/`currency`, `full_name`, `name`/`languages` and `name`/`email`/`phone` of the dict sub-objects |
| Normaliser.BuildListingSucceeds | app.py:139-167 | the record is built whenever every sub-object it reads is a dict and the first image is a dict |
| Normaliser.NormaliseSucceeds | app.py:127-166 | a property whose sub-objects are absent or dicts, whose contacts are readable and whose images start with a dict always normalises |
| Normaliser.ImageUrlFromFirstImage | app.py:153 | `image_url` is the `medium` of the first image; an empty `images` list fails the record |
| Normaliser.AgentContactsFromScan | app.py:131-161 | the agent's email and phone are those the contact scan chose |
| Normaliser.CleanDataReadsSearchResult | app.py:117-174 | a page without `pageProps` or `searchResult` is a KeyError; otherwise `meta` is the page's (`{}` when absent) and the results come from `listings` (`[]` when absent) |
| SubLocation.Lower | app.py:223 | models `str.lower()` on ASCII; its property is `SubLocation.LowerMeaning` |
| SubLocation.LowerMeaning | app.py:223 | folding keeps the length, changes exactly the upper-case letters, each to a lower-case one, and is idempotent |
| SubLocation.NameMatches | app.py:223 | models `link["name"].lower() == sub_location.lower()` with its KeyError, TypeError and AttributeError cases |
| SubLocation.FirstMatch | app.py:223 | models `next(<generator>, None)`; its properties are `SubLocation.FirstMatchIsFirst`, `SubLocation.FirstMatchNone` and `SubLocation.FirstMatchFound` |
| SubLocation.SubLocationOverride | app.py:222-229 | models the override; its properties are `SubLocation.OverrideFromFirstMatch`, `SubLocation.NoOverrideWithoutMatch` and `SubLocation.NonStringLink` |
| SubLocation.LowerStr | app.py:224 | `.lower()` exists exactly on a str |
| SubLocation.FirstMatchIsFirst | app.py:224 | the matching link chosen is the first match in list order |
| SubLocation.FirstMatchNone | app.py:224 | no link is chosen exactly when every name compares and none matches |
| SubLocation.FirstMatchFound | app.py:224 | a chosen link matches, and every link before it does not |
| SubLocation.OverrideFromFirstMatch | app.py:222-229 | an override needs a truthy name and links; it is the non-empty `l` value of the first matching link's URL |
| SubLocation.NoOverrideWithoutMatch | app.py:222-225 | without a name, without links or without a match nothing is overridden |
| SubLocation.NonStringLink | app.py:225-228 | a matched link whose `link` is a falsy non-str parses as the empty URL and overrides nothing; a truthy non-str raises AttributeError |
| SubLocation.MarinaExample | app.py:222-229 | "marina" selects the link named "Marina" and yields its `l=77` |
| Scraper.BaseParams | app.py:181-209 | models reading the four filter fields of the body and validating them; a body that is not a dict has no `get` |
| Scraper.ProbeZone | app.py:213-229 | models what the page-1 probe decides: `pageProps.searchResult` must exist and be a dict, then the override from `pageMeta.aggregationLinks` |
| Scraper.Prepare | app.py:184-229 | models the final parameters; its property is `Scraper.PrepareKeepsBase`, and `Scraper.PrepareParams` is the method proved equal to it |
| Scraper.PageMeta | app.py:234 | models `first_data["pageProps"]["searchResult"].get("meta", {})` with its errors |
| Scraper.Gather | app.py:238-246 | models the aggregation of pages in request order; its properties are `Scraper.GatherAppend`, `Scraper.GatherPrefixError` and the plan lemmas |
| Scraper.Collect | app.py:231-253 | models lines 231-253 for the final parameters; its property is `Scraper.CollectReadsPlan`, and `Scraper.FetchPages` is the method proved equal to it |
| Scraper.ScrapeSpec | app.py:179-253 | models the whole handler; its property is `Scraper.ValidationComesFirst`, and `Scraper.Scrape` is the method proved equal to it |
| Scraper.PagesToFetch | app.py:234-236 | the page count is never above 4; it defaults to 1, is min(4, page_count) for a number, and fails exactly when `meta` is not a dict or `page_count` cannot be compared |
| Scraper.Plan | app.py:233-242 | the final fetches are pages 1 to the page count, at least page 1, each with the same parameters and its own `page` |
| Scraper.TenPagesReadFour | app.py:235-242 | a page count of 10 reads exactly pages 1 to 4 |
| Scraper.GatherPrefixError | app.py:238-246 | a page that fails early is the error of the whole aggregation, so no partial result is returned |
| Scraper.GatherAppend | app.py:238-246 | aggregation keeps page order: earlier requests' records come first, each page in its own order, and the first failing page decides the error |
| Scraper.PrepareKeepsBase | app.py:198-229 | the final parameters are the validated ones with `page=1`, and only `l` may differ, then by a non-empty id |
| Scraper.ValidationComesFirst | app.py:190-213 | an invalid filter is the answer whatever upstream serves |
| Scraper.CollectReadsPlan | app.py:232-253 | a successful answer carries the final page 1's `meta`, the listings of pages 1 to min(4, page_count) in order, and their number as `total_listings` |
| Scraper.PlanStep | app.py:242 | the plan for one more page is the plan extended by that page |
| Scraper.PlanPrefix | app.py:242 | the plan for fewer pages is a prefix of the plan |
| Scraper.GatherPlanStep | app.py:242-245 | reading one more page adds its listings after the earlier ones, or fails with its error |
| Scraper.GatherPlanError | app.py:242-245 | a page that fails before the last page is the error of the whole plan |
| Scraper.GatherFirstPage | app.py:232-240 | page 1 alone gives its own listings, and its failure is the error of the whole plan |
| Scraper.AggregatePages | app.py:241-246 | the page loop computes the aggregation of the plan and reads exactly pages 2 to the page count, in order |
| Scraper.FetchPages | app.py:231-253 | lines 231-253 compute the aggregation specification and read exactly the planned pages, in order |
| Scraper.PrepareParams | app.py:184-229 | the parameter building computes the specification; it probes nothing before validation, and probes once with the base parameters and `page=1` |
| Scraper.Scrape | app.py:179-253 | the handler computes the specification; nothing is fetched before validation; the probe uses the base parameters with `page=1`, then come pages 1 to min(4, page_count) with the final parameters |
| LocationTitle.IndexOf | fuzz_paramater_location.go:119 | models `strings.Index`; its properties are `LocationTitle.IndexOfMeaning`, `LocationTitle.IndexOfFirst` and `LocationTitle.IndexOfNone` |
| LocationTitle.TextBetween | fuzz_paramater_location.go:119-128 | models the body of `extractLocationTitle` with the two markers as parameters; its properties are the title lemmas below |
| LocationTitle.ExtractLocationTitle | fuzz_paramater_location.go:115-129 | models `extractLocationTitle` with its two fixed markers |
| LocationTitle.IndexFrom | fuzz_paramater_location.go:119 | the index found is an occurrence with none before it, and -1 means none at all |
| LocationTitle.IndexOfMeaning | fuzz_paramater_location.go:119-127 | `strings.Index` is -1 exactly when there is no occurrence, and otherwise the first one |
| LocationTitle.IndexOfFirst | fuzz_paramater_location.go:119 | the first occurrence is the index `strings.Index` reports |
| LocationTitle.IndexOfNone | fuzz_paramater_location.go:120 | without an occurrence `strings.Index` reports -1 |
| LocationTitle.NoStartNoTitle | fuzz_paramater_location.go:119-122 | a page without the opening text has an empty title |
| LocationTitle.NoEndNoTitle | fuzz_paramater_location.go:123-127 | no closing text after the first opening text gives an empty title |
| LocationTitle.TitleBetweenMarkers | fuzz_paramater_location.go:115-129 | the title is exactly the text between the first opening text and the first closing text after it |
| LocationTitle.PrefixOccurrence | fuzz_paramater_location.go:124 | an occurrence in a prefix is exactly an occurrence that ends inside it |
| LocationTitle.TitleHasNoEndMarker | fuzz_paramater_location.go:123-128 | a title never holds a non-empty closing text |
| LocationTitle.TitleFramed | fuzz_paramater_location.go:115-129 | a non-empty title sits in the page as opening text, title, closing text, at the first opening text |
| LocationTitle.TitleOfPage | fuzz_paramater_location.go:115-129 | round trip: a page built from a prefix, the opening text, a title, the closing text and a suffix gives back that title |

## Left out

- The build id lookup (`get_build_id`), the HTTP request of `fetch_property_data`, its headers, and the pause between pages are not modelled. The search endpoint is the parameter `upstream`.
- The Flask glue is not modelled: request parsing, `jsonify`, and the mapping of a `NotFound` error to 404 and of every other error to 500 with the exception's message. An error is its kind; the message text is not modelled.
- The `/sublocations` endpoint, the Go tool's `main`, and its HTTP request are not modelled.
- URL parsing (`urlparse`, `parse_qs`) of a str is the parameter `lParam`: the first `l` value of a URL's query, if any.
- SubLocation.SubLocationOverride: `lParam` never fails, but `urlparse` raises a ValueError on a str URL with an unbalanced `[` or `]` in its host. The model then overrides by `lParam`'s answer where the handler fails with 500, and `Scraper.PrepareParams` and `Scraper.Scrape` inherit this.
- Numbers are integers. Floats, such as a fractional `page_count`, are not modelled.
- `.lower()` folds ASCII letters only.
- A non-empty str or dict where a list of dicts is expected fails on its first element. The model gives that failure's exception kind and skips the iteration itself.
- Go strings are byte strings. Their bytes are modelled as `char`s.
- `Scraper.Scrape`: the upstream site is a fixed function of the parameters, so two reads of page 1 with the same parameters give the same page. That holds for an unchanging site, not in general.
