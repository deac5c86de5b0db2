/** The listing normaliser `extract_clean_data` (app.py:117-174): it reads
    `pageProps.searchResult` of one upstream page, keeps the listings that
    carry a `property` object, and flattens each into a record of one fixed
    shape, defaulting every missing sub-object to `{}`.

    The loops of the source are the methods `ScanContactOptions`,
    `NormaliseItem` and `ExtractCleanData`; each is proved equal to a
    specification function (`ScanContacts`, `ItemListings`, `CleanData`),
    and the lemmas state what those functions promise. */
module Normaliser {
  import opened PyJson

  datatype Price = Price(value: Json, currency: Json)
  datatype Agent = Agent(name: Json, email: Json, phone: Json, languages: Json)
  datatype Broker = Broker(name: Json, email: Json, phone: Json)

  /** One normalised listing: the `listing` dict of lines 139-167. */
  datatype Listing = Listing(
    title: Json,
    description: Json,
    price: Price,
    location: Json,
    bedrooms: Json,
    bathrooms: Json,
    sizeSqft: Json,
    furnished: Json,
    completionStatus: Json,
    listedDate: Json,
    imageUrl: Json,
    shareUrl: Json,
    amenities: Json,
    agent: Agent,
    broker: Broker)

  /** The dict `extract_clean_data` returns. */
  datatype Page = Page(meta: Json, results: seq<Listing>)

  const ListingKeys: set<string> := {
    "title", "description", "price", "location", "bedrooms", "bathrooms",
    "size_sqft", "furnished", "completion_status", "listed_date",
    "image_url", "share_url", "amenities", "agent", "broker"}

  /** A listing as the JSON dict the endpoint sends: every key is present,
      at the top level and inside `price`, `agent` and `broker`. */
  function ToJson(l: Listing): (j: Json)
    ensures j.JObj? && j.fields.Keys == ListingKeys
    ensures j.fields["price"].JObj? && j.fields["price"].fields.Keys == {"value", "currency"}
    ensures j.fields["agent"].JObj? && j.fields["agent"].fields.Keys == {"name", "email", "phone", "languages"}
    ensures j.fields["broker"].JObj? && j.fields["broker"].fields.Keys == {"name", "email", "phone"}
  {
    JObj(map[
      "title" := l.title,
      "description" := l.description,
      "price" := JObj(map["value" := l.price.value, "currency" := l.price.currency]),
      "location" := l.location,
      "bedrooms" := l.bedrooms,
      "bathrooms" := l.bathrooms,
      "size_sqft" := l.sizeSqft,
      "furnished" := l.furnished,
      "completion_status" := l.completionStatus,
      "listed_date" := l.listedDate,
      "image_url" := l.imageUrl,
      "share_url" := l.shareUrl,
      "amenities" := l.amenities,
      "agent" := JObj(map["name" := l.agent.name, "email" := l.agent.email,
                          "phone" := l.agent.phone, "languages" := l.agent.languages]),
      "broker" := JObj(map["name" := l.broker.name, "email" := l.broker.email,
                           "phone" := l.broker.phone])
    ])
  }

  // ---------- contact options (lines 131-137) ----------

  /** `contact["type"] == kind` on a contact whose "type" can be read. */
  predicate HasType(contact: Json, kind: string) {
    contact.JObj? && "type" in contact.fields && contact.fields["type"] == JStr(kind)
  }

  /** A contact the loop can read: a dict with a "type", and a "value" when
      the type is "email" or "phone". */
  predicate ReadableContact(contact: Json) {
    && contact.JObj?
    && "type" in contact.fields
    && (HasType(contact, "email") || HasType(contact, "phone") ==> "value" in contact.fields)
  }

  /** One pass of the contact loop over the current (email, phone). */
  function ContactStep(contact: Json, email: Json, phone: Json): Result<(Json, Json)> {
    var kind :- Index(contact, "type");
    var email' :- if kind == JStr("email") then Index(contact, "value") else Ok(email);
    var phone' :- if kind == JStr("phone") then Index(contact, "value") else Ok(phone);
    Ok((email', phone'))
  }

  /** The (email, phone) the contact loop ends with, starting from (None, None). */
  function ScanContacts(contacts: seq<Json>): Result<(Json, Json)>
    decreases |contacts|
  {
    if contacts == [] then Ok((JNull, JNull))
    else
      var found :- ScanContacts(contacts[..|contacts| - 1]);
      ContactStep(contacts[|contacts| - 1], found.0, found.1)
  }

  /** The email or the phone of a scan result. */
  function Chosen(found: (Json, Json), kind: string): Json {
    if kind == "email" then found.0 else found.1
  }

  /** An unreadable contact in a prefix is the error of the whole scan. */
  lemma {:induction false} ScanContactsPrefixError(contacts: seq<Json>, k: nat)
    requires k <= |contacts|
    ensures ScanContacts(contacts[..k]).Err? ==> ScanContacts(contacts) == ScanContacts(contacts[..k])
    decreases |contacts| - k
  {
    if k < |contacts| {
      var n := |contacts|;
      assert contacts[..n][..n - 1] == contacts[..n - 1];
      ScanContactsPrefixError(contacts[..n - 1], k);
      assert contacts[..n - 1][..k] == contacts[..k];
      assert contacts[..n] == contacts;
    } else {
      assert contacts[..k] == contacts;
    }
  }

  /** The scan succeeds exactly when every contact is readable. */
  lemma {:induction false} ScanContactsSucceeds(contacts: seq<Json>)
    ensures ScanContacts(contacts).Ok? <==> forall i :: 0 <= i < |contacts| ==> ReadableContact(contacts[i])
    decreases |contacts|
  {
    if contacts != [] {
      var init := contacts[..|contacts| - 1];
      ScanContactsSucceeds(init);
      assert forall i :: 0 <= i < |init| ==> init[i] == contacts[i];
    }
  }

  /** One pass of the loop over a readable contact keeps the email, or the
      phone, unless the contact has that type, and then takes its value. */
  lemma ContactStepChoice(contact: Json, found: (Json, Json), kind: string)
    requires kind == "email" || kind == "phone"
    requires ContactStep(contact, found.0, found.1).Ok?
    ensures HasType(contact, kind) ==>
              "value" in contact.fields &&
              Chosen(ContactStep(contact, found.0, found.1).value, kind) == contact.fields["value"]
    ensures !HasType(contact, kind) ==>
              Chosen(ContactStep(contact, found.0, found.1).value, kind) == Chosen(found, kind)
  {
  }

  /** Without a contact of the type, the email (or phone) stays None. */
  lemma {:induction false} NoContactNone(contacts: seq<Json>, kind: string)
    requires kind == "email" || kind == "phone"
    requires ScanContacts(contacts).Ok?
    requires forall i :: 0 <= i < |contacts| ==> !HasType(contacts[i], kind)
    ensures Chosen(ScanContacts(contacts).value, kind) == JNull
    decreases |contacts|
  {
    if contacts != [] {
      var n := |contacts|;
      var init := contacts[..n - 1];
      assert forall i :: 0 <= i < |init| ==> init[i] == contacts[i];
      NoContactNone(init, kind);
      ContactStepChoice(contacts[n - 1], ScanContacts(init).value, kind);
    }
  }

  /** Last wins: the email found is the "value" of the last contact of type
      "email"; the phone likewise. */
  lemma {:induction false} LastContactWins(contacts: seq<Json>, kind: string, i: nat)
    requires kind == "email" || kind == "phone"
    requires ScanContacts(contacts).Ok?
    requires i < |contacts| && HasType(contacts[i], kind)
    requires forall j :: i < j < |contacts| ==> !HasType(contacts[j], kind)
    ensures "value" in contacts[i].fields
    ensures Chosen(ScanContacts(contacts).value, kind) == contacts[i].fields["value"]
    decreases |contacts|
  {
    var n := |contacts|;
    var init := contacts[..n - 1];
    ContactStepChoice(contacts[n - 1], ScanContacts(init).value, kind);
    if i < n - 1 {
      assert forall j :: i < j < |init| ==> init[j] == contacts[j];
      LastContactWins(init, kind, i);
    }
  }

  /** Two email contacts: the second one's value is kept, and without a
      phone contact the phone stays None. */
  lemma LastEmailExample()
    ensures ScanContacts([JObj(map["type" := JStr("email"), "value" := JStr("a@x.com")]),
                          JObj(map["type" := JStr("email"), "value" := JStr("b@x.com")])])
         == Ok((JStr("b@x.com"), JNull))
  {
  }

  /** The contact loop of lines 133-137. */
  method ScanContactOptions(contacts: seq<Json>) returns (r: Result<(Json, Json)>)
    ensures r == ScanContacts(contacts)
  {
    var email, phone := JNull, JNull;
    var i := 0;
    while i < |contacts|
      invariant 0 <= i <= |contacts|
      invariant ScanContacts(contacts[..i]) == Ok((email, phone))
    {
      assert contacts[..i + 1][..i] == contacts[..i];
      ScanContactsPrefixError(contacts, i + 1);
      var contact := contacts[i];
      var kind :- Index(contact, "type");
      if kind == JStr("email") {
        email :- Index(contact, "value");
      }
      if kind == JStr("phone") {
        phone :- Index(contact, "value");
      }
      i := i + 1;
    }
    assert contacts[..i] == contacts;
    r := Ok((email, phone));
  }

  // ---------- one listing (lines 123-167) ----------

  /** `prop.get("images", [{}])[0].get("medium")`: a missing key reads the
      placeholder `[{}]` and gives None, but an empty list or str raises an
      IndexError, and a dict has no integer key 0. */
  function ImageUrl(images: Json): Result<Json> {
    match images
    case JArr(items) => if items == [] then Err(IndexError) else Get(items[0], "medium", JNull)
    case JStr(s) => if s == "" then Err(IndexError) else Err(AttributeError)
    case JObj(_) => Err(KeyError(JNum(0)))
    case _ => Err(TypeError)
  }

  /** The `price` record (lines 142-145). Both reads need a dict, and the
      first one decides the error. */
  function PriceOf(price: Json): (r: Result<Price>)
    ensures r.Ok? <==> price.JObj?
  {
    match price
    case JObj(m) => Ok(Price(Field(m, "value", JNull), Field(m, "currency", JNull)))
    case _ => Err(AttributeError)
  }

  /** The `agent` record (lines 156-161): the name and languages are read
      from the agent dict, the email and phone are those the contact scan
      found. */
  function AgentOf(agent: Json, email: Json, phone: Json): (r: Result<Agent>)
    ensures r.Ok? <==> agent.JObj?
  {
    match agent
    case JObj(m) => Ok(Agent(Field(m, "name", JNull), email, phone, Field(m, "languages", JNull)))
    case _ => Err(AttributeError)
  }

  /** The `broker` record (lines 162-166). */
  function BrokerOf(broker: Json): (r: Result<Broker>)
    ensures r.Ok? <==> broker.JObj?
  {
    match broker
    case JObj(m) => Ok(Broker(Field(m, "name", JNull), Field(m, "email", JNull), Field(m, "phone", JNull)))
    case _ => Err(AttributeError)
  }

  /** The record of lines 139-167 for the dict `prop`, given the
      sub-objects and the contacts read before it. Python builds the dict
      in this order, so the first sub-object that is not a dict decides the
      exception. */
  function BuildListing(prop: map<string, Json>, location: Json, agent: Json, broker: Json,
                        email: Json, phone: Json): Result<Listing>
  {
    var price :- PriceOf(Field(prop, "price", Empty));
    var fullName :- Get(location, "full_name", JNull);
    var size :- Get(Field(prop, "size", Empty), "value", JNull);
    var image :- ImageUrl(Field(prop, "images", JArr([Empty])));
    var agentRecord :- AgentOf(agent, email, phone);
    var brokerRecord :- BrokerOf(broker);
    Ok(Listing(
      title := Field(prop, "title", JNull),
      description := Field(prop, "description", JNull),
      price := price,
      location := fullName,
      bedrooms := Field(prop, "bedrooms", JNull),
      bathrooms := Field(prop, "bathrooms", JNull),
      sizeSqft := size,
      furnished := Field(prop, "furnished", JNull),
      completionStatus := Field(prop, "completion_status", JNull),
      listedDate := Field(prop, "listed_date", JNull),
      imageUrl := image,
      shareUrl := Field(prop, "share_url", JNull),
      amenities := Field(prop, "amenity_names", JArr([])),
      agent := agentRecord,
      broker := brokerRecord))
  }

  /** The record for a truthy `property` value: it must be a dict. */
  function NormaliseProperty(prop: Json): Result<Listing> {
    match prop
    case JObj(m) =>
      var options :- Elements(Field(m, "contact_options", JArr([])), TypeError);
      var found :- ScanContacts(options);
      BuildListing(m, Field(m, "location", Empty), Field(m, "agent", Empty),
                   Field(m, "broker", Empty), found.0, found.1)
    case _ => Err(AttributeError)
  }

  /** The `property` of a listing entry, or None when it has none. */
  function PropertyOf(item: Json): Json {
    if item.JObj? then Field(item.fields, "property", JNull) else JNull
  }

  /** What one entry of `listings` adds to the result: nothing when its
      `property` is absent or falsy, else its record. */
  function ItemListings(item: Json): Result<seq<Listing>> {
    var prop :- Get(item, "property", JNull);
    if !Truthy(prop) then Ok([])
    else
      var listing :- NormaliseProperty(prop);
      Ok([listing])
  }

  /** The records of all entries, in order; the first failing entry decides
      the error. */
  function CleanListings(items: seq<Json>): Result<seq<Listing>>
    decreases |items|
  {
    if items == [] then Ok([])
    else
      var earlier :- CleanListings(items[..|items| - 1]);
      var last :- ItemListings(items[|items| - 1]);
      Ok(earlier + last)
  }

  /** `extract_clean_data(data)`. A missing `pageProps` or `searchResult`
      is a KeyError; `listings` defaults to `[]`, `meta` to `{}`. */
  function CleanData(data: Json): Result<Page> {
    var pageProps :- Index(data, "pageProps");
    var search :- Index(pageProps, "searchResult");
    var raw :- Get(search, "listings", JArr([]));
    var items :- Elements(raw, AttributeError);
    var listings :- CleanListings(items);
    Ok(Page(Field(search.fields, "meta", Empty), listings))
  }

  /** The body of the listing loop for one entry (lines 123-169). */
  method NormaliseItem(item: Json) returns (r: Result<seq<Listing>>)
    ensures r == ItemListings(item)
  {
    var prop :- Get(item, "property", JNull);
    if !Truthy(prop) {
      return Ok([]);
    }
    if !prop.JObj? {
      return Err(AttributeError);
    }
    var m := prop.fields;
    var location := Field(m, "location", Empty);
    var agent := Field(m, "agent", Empty);
    var broker := Field(m, "broker", Empty);
    var options :- Elements(Field(m, "contact_options", JArr([])), TypeError);
    var found :- ScanContactOptions(options);
    var listing :- BuildListing(m, location, agent, broker, found.0, found.1);
    r := Ok([listing]);
  }

  /** An entry that fails in a prefix is the error of the whole list. */
  lemma {:induction false} CleanListingsPrefixError(items: seq<Json>, k: nat)
    requires k <= |items|
    ensures CleanListings(items[..k]).Err? ==> CleanListings(items) == CleanListings(items[..k])
    decreases |items| - k
  {
    if k < |items| {
      var n := |items|;
      assert items[..n][..n - 1] == items[..n - 1];
      CleanListingsPrefixError(items[..n - 1], k);
      assert items[..n - 1][..k] == items[..k];
      assert items[..n] == items;
    } else {
      assert items[..k] == items;
    }
  }

  /** `extract_clean_data` as the source runs it: the listing loop appends
      one record per kept entry. */
  method ExtractCleanData(data: Json) returns (r: Result<Page>)
    ensures r == CleanData(data)
  {
    var pageProps :- Index(data, "pageProps");
    var search :- Index(pageProps, "searchResult");
    var raw :- Get(search, "listings", JArr([]));
    var items :- Elements(raw, AttributeError);
    var listings: seq<Listing> := [];
    var i := 0;
    while i < |items|
      invariant 0 <= i <= |items|
      invariant CleanListings(items[..i]) == Ok(listings)
    {
      assert items[..i + 1][..i] == items[..i];
      CleanListingsPrefixError(items, i + 1);
      var kept :- NormaliseItem(items[i]);
      listings := listings + kept;
      i := i + 1;
    }
    assert items[..i] == items;
    r := Ok(Page(Field(search.fields, "meta", Empty), listings));
  }

  // ---------- properties of the normaliser ----------

  /** The truthy `property` values of the entries, in order: the entries the
      listing loop keeps. */
  function KeptProperties(items: seq<Json>): (kept: seq<Json>)
    ensures |kept| <= |items|
    decreases |items|
  {
    if items == [] then []
    else
      var last := PropertyOf(items[|items| - 1]);
      KeptProperties(items[..|items| - 1]) + (if Truthy(last) then [last] else [])
  }

  /** The result is the kept entries' records: entries without a truthy
      `property` are dropped, the others keep their relative order, so the
      result is never longer than the input. */
  lemma {:induction false} CleanListingsKeepsOrder(items: seq<Json>)
    requires CleanListings(items).Ok?
    ensures forall i :: 0 <= i < |items| ==> items[i].JObj?
    ensures |CleanListings(items).value| == |KeptProperties(items)| <= |items|
    ensures forall k :: 0 <= k < |KeptProperties(items)| ==>
              NormaliseProperty(KeptProperties(items)[k]) == Ok(CleanListings(items).value[k])
    decreases |items|
  {
    if items != [] {
      var init := items[..|items| - 1];
      CleanListingsKeepsOrder(init);
      assert forall i :: 0 <= i < |init| ==> init[i] == items[i];
    }
  }

  /** The listing loop fails exactly when some entry is not a dict, or has
      a truthy `property` whose record cannot be built. */
  lemma {:induction false} CleanListingsSucceeds(items: seq<Json>)
    ensures CleanListings(items).Ok? <==>
              forall i :: 0 <= i < |items| ==>
                items[i].JObj? && (Truthy(PropertyOf(items[i])) ==> NormaliseProperty(PropertyOf(items[i])).Ok?)
    decreases |items|
  {
    if items != [] {
      var init := items[..|items| - 1];
      CleanListingsSucceeds(init);
      assert forall i :: 0 <= i < |init| ==> init[i] == items[i];
    }
  }

  /** A missing sub-object reads as `{}`: its fields come out as None (and
      `amenities` as `[]`), never as a missing key. */
  lemma NormaliseDefaults(prop: Json)
    requires prop.JObj? && NormaliseProperty(prop).Ok?
    ensures var l := NormaliseProperty(prop).value; var m := prop.fields;
      && ("price" !in m ==> l.price == Price(JNull, JNull))
      && ("size" !in m ==> l.sizeSqft == JNull)
      && ("location" !in m ==> l.location == JNull)
      && ("agent" !in m ==> l.agent.name == JNull && l.agent.languages == JNull)
      && ("broker" !in m ==> l.broker == Broker(JNull, JNull, JNull))
      && ("contact_options" !in m ==> l.agent.email == JNull && l.agent.phone == JNull)
      && ("images" !in m ==> l.imageUrl == JNull)
      && ("amenity_names" !in m ==> l.amenities == JArr([]))
  {
  }

  /** Where each field of the record comes from: the top-level fields are
      copied from the property (None when absent, `amenities` from
      `amenity_names`), and the price, size, location, agent and broker
      fields from the sub-object of that name, which must be a dict. */
  lemma NormaliseReadsFields(prop: Json)
    requires prop.JObj? && NormaliseProperty(prop).Ok?
    ensures var l := NormaliseProperty(prop).value; var m := prop.fields;
      && l.title == Field(m, "title", JNull)
      && l.description == Field(m, "description", JNull)
      && l.bedrooms == Field(m, "bedrooms", JNull)
      && l.bathrooms == Field(m, "bathrooms", JNull)
      && l.furnished == Field(m, "furnished", JNull)
      && l.completionStatus == Field(m, "completion_status", JNull)
      && l.listedDate == Field(m, "listed_date", JNull)
      && l.shareUrl == Field(m, "share_url", JNull)
      && l.amenities == Field(m, "amenity_names", JArr([]))
    ensures var l := NormaliseProperty(prop).value; var m := prop.fields;
      var price := Field(m, "price", Empty); var size := Field(m, "size", Empty);
      var location := Field(m, "location", Empty);
      && price.JObj? && size.JObj? && location.JObj?
      && l.price == Price(Field(price.fields, "value", JNull), Field(price.fields, "currency", JNull))
      && l.sizeSqft == Field(size.fields, "value", JNull)
      && l.location == Field(location.fields, "full_name", JNull)
    ensures var l := NormaliseProperty(prop).value; var m := prop.fields;
      var agent := Field(m, "agent", Empty); var broker := Field(m, "broker", Empty);
      && agent.JObj? && broker.JObj?
      && l.agent.name == Field(agent.fields, "name", JNull)
      && l.agent.languages == Field(agent.fields, "languages", JNull)
      && l.broker == Broker(Field(broker.fields, "name", JNull), Field(broker.fields, "email", JNull),
                            Field(broker.fields, "phone", JNull))
  {
  }

  /** The sub-object `key` of `m` is absent or a dict. */
  predicate DictOrAbsent(m: map<string, Json>, key: string) {
    key !in m || m[key].JObj?
  }

  /** The record is built whenever every sub-object it reads is a dict and
      the first image is a dict. */
  lemma BuildListingSucceeds(prop: map<string, Json>, location: Json, agent: Json, broker: Json,
                             email: Json, phone: Json)
    requires DictOrAbsent(prop, "price") && DictOrAbsent(prop, "size")
    requires location.JObj? && agent.JObj? && broker.JObj?
    requires "images" in prop ==>
               prop["images"].JArr? && prop["images"].items != [] && prop["images"].items[0].JObj?
    ensures BuildListing(prop, location, agent, broker, email, phone).Ok?
  {
  }

  /** A sub-object that is absent or a dict never makes the record fail:
      a dict `property` whose `price`, `size`, `location`, `agent` and
      `broker` are absent or dicts, whose contacts are readable and whose
      `images`, when present, is a list starting with a dict, always
      normalises. */
  lemma NormaliseSucceeds(prop: Json)
    requires prop.JObj?
    requires DictOrAbsent(prop.fields, "price") && DictOrAbsent(prop.fields, "size")
    requires DictOrAbsent(prop.fields, "location") && DictOrAbsent(prop.fields, "agent")
    requires DictOrAbsent(prop.fields, "broker")
    requires "contact_options" in prop.fields ==>
               && prop.fields["contact_options"].JArr?
               && forall i :: 0 <= i < |prop.fields["contact_options"].items| ==>
                    ReadableContact(prop.fields["contact_options"].items[i])
    requires "images" in prop.fields ==>
               prop.fields["images"].JArr? && prop.fields["images"].items != [] &&
               prop.fields["images"].items[0].JObj?
    ensures NormaliseProperty(prop).Ok?
  {
    var m := prop.fields;
    var options := Field(m, "contact_options", JArr([]));
    ScanContactsSucceeds(options.items);
    var found := ScanContacts(options.items).value;
    BuildListingSucceeds(m, Field(m, "location", Empty), Field(m, "agent", Empty),
                         Field(m, "broker", Empty), found.0, found.1);
  }

  /** `image_url` is the `medium` of the first image; an empty `images`
      list is an IndexError, not None. */
  lemma ImageUrlFromFirstImage(prop: Json)
    requires prop.JObj? && "images" in prop.fields && prop.fields["images"].JArr?
    ensures prop.fields["images"].items == [] ==> NormaliseProperty(prop).Err?
    ensures NormaliseProperty(prop).Ok? ==>
              var first := prop.fields["images"].items[0];
              first.JObj? && NormaliseProperty(prop).value.imageUrl == Field(first.fields, "medium", JNull)
  {
  }

  /** The agent's email and phone are what the contact scan found, so by
      `LastContactWins` the last contact of each type decides them. */
  lemma AgentContactsFromScan(prop: Json)
    requires prop.JObj? && NormaliseProperty(prop).Ok?
    ensures var options := Field(prop.fields, "contact_options", JArr([]));
      var contacts := if options.JArr? then options.items else [];
      && ScanContacts(contacts).Ok?
      && NormaliseProperty(prop).value.agent.email == Chosen(ScanContacts(contacts).value, "email")
      && NormaliseProperty(prop).value.agent.phone == Chosen(ScanContacts(contacts).value, "phone")
  {
  }

  /** A page without `pageProps.searchResult` is a KeyError; with it, the
      page's `meta` is returned, `{}` when absent, and the results are those
      of its `listings` (`[]` when absent). */
  lemma CleanDataReadsSearchResult(data: Json)
    ensures data.JObj? && "pageProps" !in data.fields ==>
              CleanData(data) == Err(KeyError(JStr("pageProps")))
    ensures data.JObj? && "pageProps" in data.fields && data.fields["pageProps"].JObj? &&
            "searchResult" !in data.fields["pageProps"].fields ==>
              CleanData(data) == Err(KeyError(JStr("searchResult")))
    ensures CleanData(data).Ok? ==>
              && data.JObj? && "pageProps" in data.fields
              && data.fields["pageProps"].JObj? && "searchResult" in data.fields["pageProps"].fields
              && var search := data.fields["pageProps"].fields["searchResult"];
              && search.JObj?
              && CleanData(data).value.meta == Field(search.fields, "meta", Empty)
              && ("listings" !in search.fields ==> CleanData(data).value.results == [])
              && ("listings" in search.fields && search.fields["listings"].JArr? ==>
                    CleanListings(search.fields["listings"].items) == Ok(CleanData(data).value.results))
  {
  }
}
