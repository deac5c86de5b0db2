/** Sub-location override of the `/scrape` handler (app.py:222-229): when a
    sub-location name is given and page 1 of the search lists aggregation
    links, the first link whose name equals it under case folding supplies
    a new zone id `l`, read from the query string of its URL.

    Parsing the URL (`urlparse`, `parse_qs`) is the parameter `lParam`: the
    URL's first `l` value, or None when the query has no `l`. */
module SubLocation {
  import opened PyJson

  /** Case folding of one character (ASCII letters only). */
  function LowerChar(c: char): char {
    if 'A' <= c <= 'Z' then (c as int + 32) as char else c
  }

  /** `s.lower()` */
  function Lower(s: string): string {
    seq(|s|, i requires 0 <= i < |s| => LowerChar(s[i]))
  }

  /** Case folding changes upper-case ASCII letters only, always to lower
      case, keeps the length, and folding twice is folding once. */
  lemma LowerMeaning(s: string)
    ensures |Lower(s)| == |s|
    ensures forall i :: 0 <= i < |s| ==>
              (if 'A' <= s[i] <= 'Z' then Lower(s)[i] != s[i] && 'a' <= Lower(s)[i] <= 'z'
               else Lower(s)[i] == s[i])
    ensures Lower(Lower(s)) == Lower(s)
  {
  }

  /** `v.lower()`: only a str has it. */
  function LowerStr(v: Json): (r: Result<string>)
    ensures r.Ok? <==> v.JStr?
  {
    match v
    case JStr(s) => Ok(Lower(s))
    case _ => Err(AttributeError)
  }

  /** `link["name"].lower() == sub_location.lower()`, evaluated left to right. */
  function NameMatches(link: Json, sub: Json): Result<bool> {
    var name :- Index(link, "name");
    var lowered :- LowerStr(name);
    var wanted :- LowerStr(sub);
    Ok(lowered == wanted)
  }

  /** `next((link for link in links if <name matches>), None)`: the
      generator stops at the first match, so later links are never read. */
  function FirstMatch(links: seq<Json>, sub: Json): Result<Option<Json>>
    decreases |links|
  {
    if links == [] then Ok(None)
    else
      var hit :- NameMatches(links[0], sub);
      if hit then Ok(Some(links[0])) else FirstMatch(links[1..], sub)
  }

  /** The link chosen is the first match in list order, whatever follows it. */
  lemma {:induction false} FirstMatchIsFirst(links: seq<Json>, sub: Json, i: nat)
    requires i < |links|
    requires NameMatches(links[i], sub) == Ok(true)
    requires forall j :: 0 <= j < i ==> NameMatches(links[j], sub) == Ok(false)
    ensures FirstMatch(links, sub) == Ok(Some(links[i]))
    decreases i
  {
    if i > 0 {
      assert NameMatches(links[0], sub) == Ok(false);
      FirstMatchIsFirst(links[1..], sub, i - 1);
    }
  }

  /** No link is chosen exactly when every name can be compared and none
      matches. */
  lemma {:induction false} FirstMatchNone(links: seq<Json>, sub: Json)
    ensures FirstMatch(links, sub) == Ok(None) <==>
              forall j :: 0 <= j < |links| ==> NameMatches(links[j], sub) == Ok(false)
    decreases |links|
  {
    if links != [] {
      FirstMatchNone(links[1..], sub);
      assert forall j :: 1 <= j < |links| ==> links[1..][j - 1] == links[j];
      if NameMatches(links[0], sub) == Ok(false) {
        assert forall j :: 0 <= j < |links| - 1 ==> links[1..][j] == links[j + 1];
      }
    }
  }

  /** A chosen link matches, and every link before it does not. */
  lemma {:induction false} FirstMatchFound(links: seq<Json>, sub: Json)
    requires FirstMatch(links, sub).Ok? && FirstMatch(links, sub).value.Some?
    ensures exists i :: 0 <= i < |links| && links[i] == FirstMatch(links, sub).value.value &&
              NameMatches(links[i], sub) == Ok(true) &&
              forall j :: 0 <= j < i ==> NameMatches(links[j], sub) == Ok(false)
    decreases |links|
  {
    if NameMatches(links[0], sub) != Ok(true) {
      FirstMatchFound(links[1..], sub);
      var i :| 0 <= i < |links[1..]| && links[1..][i] == FirstMatch(links[1..], sub).value.value &&
                NameMatches(links[1..][i], sub) == Ok(true) &&
                forall j :: 0 <= j < i ==> NameMatches(links[1..][j], sub) == Ok(false);
      assert links[i + 1] == links[1..][i];
      forall j | 0 <= j < i + 1
        ensures NameMatches(links[j], sub) == Ok(false)
      {
        if j > 0 {
          assert links[j] == links[1..][j - 1];
        }
      }
    }
  }

  /** The new zone id, if any (lines 222-228). Nothing happens unless both
      the name and the link list are truthy; a matched link must have a
      "link" entry, and its `l` value is used only when non-empty.
      `urlparse` of a value that is not a str decodes it as bytes: a falsy
      one becomes the empty URL, whose query has no `l`, and any other has
      no `decode` (AttributeError). */
  function SubLocationOverride(sub: Json, links: Json, lParam: string -> Option<string>): Result<Option<string>> {
    if !(Truthy(sub) && Truthy(links)) then Ok(None)
    else
      var candidates :- Elements(links, TypeError);
      var found :- FirstMatch(candidates, sub);
      match found
      case None => Ok(None)
      case Some(link) =>
        var url :- Index(link, "link");
        if !url.JStr? then (if Truthy(url) then Err(AttributeError) else Ok(None))
        else
          match lParam(url.s)
          case Some(id) => Ok(if id != "" then Some(id) else None)
          case None => Ok(None)
  }

  /** An override always comes from the first matching link: its URL's `l`
      value, which is non-empty. */
  lemma OverrideFromFirstMatch(sub: Json, links: Json, lParam: string -> Option<string>)
    requires SubLocationOverride(sub, links, lParam).Ok?
    requires SubLocationOverride(sub, links, lParam).value.Some?
    ensures Truthy(sub) && Truthy(links) && links.JArr?
    ensures FirstMatch(links.items, sub).Ok? && FirstMatch(links.items, sub).value.Some?
    ensures var link := FirstMatch(links.items, sub).value.value;
      && link.JObj? && "link" in link.fields && link.fields["link"].JStr?
      && lParam(link.fields["link"].s) == SubLocationOverride(sub, links, lParam).value
      && SubLocationOverride(sub, links, lParam).value.value != ""
  {
  }

  /** Without a name, without links, or without a match, nothing is
      overridden. */
  lemma NoOverrideWithoutMatch(sub: Json, links: Json, lParam: string -> Option<string>)
    ensures !Truthy(sub) || !Truthy(links) ==> SubLocationOverride(sub, links, lParam) == Ok(None)
    ensures Truthy(sub) && links.JArr? && links.items != [] && FirstMatch(links.items, sub) == Ok(None) ==>
              SubLocationOverride(sub, links, lParam) == Ok(None)
  {
  }

  /** A matched link whose URL is a falsy non-str (None, 0, False, `[]`,
      `{}`) parses as the empty URL, so nothing is overridden and no error
      is raised; a truthy non-str URL cannot be parsed. */
  lemma NonStringLink(sub: Json, links: Json, lParam: string -> Option<string>)
    requires Truthy(sub) && links.JArr? && links.items != []
    requires FirstMatch(links.items, sub).Ok? && FirstMatch(links.items, sub).value.Some?
    requires var link := FirstMatch(links.items, sub).value.value;
      link.JObj? && "link" in link.fields && !link.fields["link"].JStr?
    ensures var url := FirstMatch(links.items, sub).value.value.fields["link"];
      SubLocationOverride(sub, links, lParam) == if Truthy(url) then Err(AttributeError) else Ok(None)
  {
  }

  /** The case-insensitive example: "marina" selects the link named "Marina". */
  lemma MarinaExample(lParam: string -> Option<string>)
    requires lParam("https://x/?l=77") == Some("77")
    ensures SubLocationOverride(
              JStr("marina"),
              JArr([JObj(map["name" := JStr("Marina"), "link" := JStr("https://x/?l=77")])]),
              lParam) == Ok(Some("77"))
  {
    assert Lower("Marina") == Lower("marina");
  }
}
