/** The three fixed lookup tables of the scraper and the first half of the
    `/scrape` handler: checking the readable filter names against them and
    building the upstream query parameters (app.py:12-45, 191-209). */
module Filters {
  import opened PyJson

  /** Query parameters sent upstream, by name. */
  type Params = map<string, Json>

  /** City name to zone id (`main_locations`). */
  const MainLocations: map<string, string> := map[
    "Ajman" := "5",
    "Umm Al Quwain" := "2",
    "Al Ain" := "8",
    "Abu Dhabi" := "6",
    "Fujairah" := "7",
    "Ras Al Khaimah" := "3",
    "Dubai" := "1",
    "Sharjah" := "4"
  ]

  /** Listing option name to category id (`options`). */
  const Options: map<string, string> := map[
    "Rent" := "2",
    "Buy" := "1",
    "Commercial rent" := "4",
    "Commercial buy" := "3",
    "New Projects" := "5"
  ]

  /** Property type name to type id (`property_types`). */
  const PropertyTypes: map<string, string> := map[
    "Apartment" := "1",
    "Villa" := "35",
    "Townhouse" := "22",
    "Penthouse" := "20",
    "Compound" := "42",
    "Duplex" := "24",
    "Full Floor" := "18",
    "Half Floor" := "29",
    "Whole Building" := "10",
    "Land" := "5",
    "Bulk Sale Unit" := "30",
    "Bungalow" := "31",
    "Hotel & Hotel Apartment" := "45"
  ]

  /** The names of the parameters `scrape` builds before any fetch. */
  const BaseKeys: set<string> := {"l", "c", "t", "bdr[]", "fu", "ob"}

  /** True when `v` is a string key of `table` (no case folding, no trimming). */
  predicate Known(v: Json, table: map<string, string>) {
    v.JStr? && v.s in table
  }

  /** Validation of the three names, in the order location, option,
      property type, and the base parameters built from them. The first
      check that fails decides the error; a list or dict given as a name is
      not hashable and fails the membership test itself. */
  function Validate(location: Json, option: Json, propertyType: Json, bedrooms: Json): Result<Params> {
    var knownLocation :- IsKeyOf(location, MainLocations);
    if !knownLocation then Err(NotFound(MainLocationField, location)) else
    var knownOption :- IsKeyOf(option, Options);
    if !knownOption then Err(NotFound(OptionField, option)) else
    var knownType :- IsKeyOf(propertyType, PropertyTypes);
    if !knownType then Err(NotFound(PropertyTypeField, propertyType)) else
    Ok(map[
      "l" := JStr(MainLocations[location.s]),
      "c" := JStr(Options[option.s]),
      "t" := JStr(PropertyTypes[propertyType.s]),
      "bdr[]" := bedrooms,
      "fu" := JNum(0),
      "ob" := JStr("mr")
    ])
  }

  /** The checks run in table order and the first failing one is reported:
      an unknown location whatever the option and type hold, an unknown
      option only once the location passed, an unknown type only once both
      passed. Validation passes exactly when all three names are keys. */
  lemma ValidationOrder(location: Json, option: Json, propertyType: Json, bedrooms: Json)
    ensures IsKeyOf(location, MainLocations) == Ok(false) ==>
              Validate(location, option, propertyType, bedrooms) == Err(NotFound(MainLocationField, location))
    ensures Known(location, MainLocations) && IsKeyOf(option, Options) == Ok(false) ==>
              Validate(location, option, propertyType, bedrooms) == Err(NotFound(OptionField, option))
    ensures Known(location, MainLocations) && Known(option, Options) &&
            IsKeyOf(propertyType, PropertyTypes) == Ok(false) ==>
              Validate(location, option, propertyType, bedrooms) == Err(NotFound(PropertyTypeField, propertyType))
    ensures Validate(location, option, propertyType, bedrooms).Ok? <==>
              Known(location, MainLocations) && Known(option, Options) && Known(propertyType, PropertyTypes)
  {
  }

  /** Once validated, `l`, `c` and `t` are the table entries of the three
      names, `bdr[]` is the bedrooms value as given, `fu` is 0 and `ob` is
      "mr"; there are no other parameters. */
  lemma ValidatedParams(location: Json, option: Json, propertyType: Json, bedrooms: Json)
    requires Validate(location, option, propertyType, bedrooms).Ok?
    ensures Known(location, MainLocations) && Known(option, Options) && Known(propertyType, PropertyTypes)
    ensures var r := Validate(location, option, propertyType, bedrooms);
      && r.value.Keys == BaseKeys
      && r.value["l"] == JStr(MainLocations[location.s])
      && r.value["c"] == JStr(Options[option.s])
      && r.value["t"] == JStr(PropertyTypes[propertyType.s])
      && r.value["bdr[]"] == bedrooms
      && r.value["fu"] == JNum(0)
      && r.value["ob"] == JStr("mr")
  {
  }

  /** A location outside the table is reported whatever the other fields
      hold, even when they are unknown too or unhashable. */
  lemma LocationCheckedFirst(location: Json, option: Json, propertyType: Json, bedrooms: Json)
    requires location.JStr? && location.s !in MainLocations
    ensures Validate(location, option, propertyType, bedrooms) == Err(NotFound(MainLocationField, location))
  {
  }

  /** The example filter of a rent search for apartments in Dubai. */
  lemma DubaiRentApartment(bedrooms: Json)
    ensures Validate(JStr("Dubai"), JStr("Rent"), JStr("Apartment"), bedrooms)
      == Ok(map["l" := JStr("1"), "c" := JStr("2"), "t" := JStr("1"),
                "bdr[]" := bedrooms, "fu" := JNum(0), "ob" := JStr("mr")])
  {
    assert MainLocations["Dubai"] == "1" && Options["Rent"] == "2" && PropertyTypes["Apartment"] == "1";
  }
}
