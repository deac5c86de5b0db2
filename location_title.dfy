/** The title reader of the Go fuzzing tool (fuzz_paramater_location.go:
    115-129): the zone name is the text between the first
    `{"title":"Properties for rent ` of a page and the first `","path":"`
    after it, or "" when either marker is missing. The lemmas hold for any
    pair of markers, so they are stated with the markers as parameters.
    Go strings are byte strings; here a byte is a `char`. */
module LocationTitle {

  /** The text that opens the title. */
  const StartMarker: string := "{\"title\":\"Properties for rent "

  /** The text that closes the title. */
  const EndMarker: string := "\",\"path\":\""

  /** `pat` occurs in `s` starting at index `i`. */
  predicate OccursAt(s: string, pat: string, i: int) {
    0 <= i && i + |pat| <= |s| && s[i..i + |pat|] == pat
  }

  /** `i` is the first index at which `pat` occurs in `s`. */
  predicate IsFirst(s: string, pat: string, i: int) {
    OccursAt(s, pat, i) && forall j :: 0 <= j < i ==> !OccursAt(s, pat, j)
  }

  /** The first occurrence of `pat` in `s` at index `from` or later, or -1. */
  function IndexFrom(s: string, pat: string, from: nat): (r: int)
    requires from <= |s| + 1
    ensures r == -1 || (from <= r && OccursAt(s, pat, r))
    ensures forall j :: from <= j && (r == -1 || j < r) ==> !OccursAt(s, pat, j)
    decreases |s| + 1 - from
  {
    if from + |pat| > |s| then -1
    else if s[from..from + |pat|] == pat then from
    else IndexFrom(s, pat, from + 1)
  }

  /** `strings.Index(s, pat)`: the first index at which `pat` occurs in `s`,
      or -1 when it does not occur; an empty `pat` occurs at 0. */
  function IndexOf(s: string, pat: string): int {
    IndexFrom(s, pat, 0)
  }

  /** `strings.Index` finds exactly the first occurrence, and reports -1
      exactly when there is none. */
  lemma IndexOfMeaning(s: string, pat: string)
    ensures IndexOf(s, pat) == -1 <==> forall j :: 0 <= j <= |s| ==> !OccursAt(s, pat, j)
    ensures IndexOf(s, pat) != -1 ==> IsFirst(s, pat, IndexOf(s, pat))
    ensures forall i :: IsFirst(s, pat, i) ==> IndexOf(s, pat) == i
  {
  }

  /** The first occurrence is the one `strings.Index` reports. */
  lemma IndexOfFirst(s: string, pat: string, i: int)
    requires IsFirst(s, pat, i)
    ensures IndexOf(s, pat) == i
  {
    var r := IndexOf(s, pat);
    assert r != -1 ==> !(r < i) && !(i < r);
  }

  /** Without an occurrence `strings.Index` reports -1. */
  lemma IndexOfNone(s: string, pat: string)
    requires forall j :: 0 <= j <= |s| ==> !OccursAt(s, pat, j)
    ensures IndexOf(s, pat) == -1
  {
  }

  /** `extractLocationTitle` with its two markers as parameters: the text
      between the first `start` of `body` and the first `end` after it, or
      "" when either is missing. */
  function TextBetween(body: string, start: string, end: string): string {
    var startIdx := IndexOf(body, start);
    if startIdx == -1 then ""
    else
      var from := startIdx + |start|;
      var endIdx := IndexOf(body[from..], end);
      if endIdx == -1 then ""
      else body[from..from + endIdx]
  }

  /** `extractLocationTitle(body)` */
  function ExtractLocationTitle(body: string): string {
    TextBetween(body, StartMarker, EndMarker)
  }

  /** A page without the opening text has no title. */
  lemma NoStartNoTitle(body: string, start: string, end: string)
    requires forall j :: 0 <= j <= |body| ==> !OccursAt(body, start, j)
    ensures TextBetween(body, start, end) == ""
  {
    IndexOfNone(body, start);
  }

  /** A page whose first opening text is not followed by the closing text
      has no title. */
  lemma NoEndNoTitle(body: string, start: string, end: string, i: int)
    requires IsFirst(body, start, i)
    requires var rest := body[i + |start|..];
               forall j :: 0 <= j <= |rest| ==> !OccursAt(rest, end, j)
    ensures TextBetween(body, start, end) == ""
  {
    IndexOfFirst(body, start, i);
    IndexOfNone(body[i + |start|..], end);
  }

  /** With the first opening text at `i` and the first closing text `k`
      characters after it, the title is exactly the `k` characters between
      them. */
  lemma TitleBetweenMarkers(body: string, start: string, end: string, i: int, k: int)
    requires IsFirst(body, start, i)
    requires IsFirst(body[i + |start|..], end, k)
    ensures TextBetween(body, start, end) == body[i + |start|..i + |start| + k]
  {
    IndexOfFirst(body, start, i);
    IndexOfFirst(body[i + |start|..], end, k);
  }

  /** An occurrence in a prefix is an occurrence that ends inside it. */
  lemma PrefixOccurrence(s: string, pat: string, k: nat, j: int)
    requires k <= |s|
    ensures OccursAt(s[..k], pat, j) <==> OccursAt(s, pat, j) && j + |pat| <= k
  {
    if 0 <= j && j + |pat| <= k {
      assert s[..k][j..j + |pat|] == s[j..j + |pat|];
    }
  }

  /** A title never holds a non-empty closing text. */
  lemma TitleHasNoEndMarker(body: string, start: string, end: string)
    requires end != ""
    ensures var t := TextBetween(body, start, end);
      forall j :: 0 <= j <= |t| ==> !OccursAt(t, end, j)
  {
    var t := TextBetween(body, start, end);
    var i := IndexOf(body, start);
    if i != -1 {
      var rest := body[i + |start|..];
      var k := IndexOf(rest, end);
      if k != -1 {
        assert OccursAt(rest, end, k);
        SuffixSlice(body, i + |start|, 0, k);
        assert t == rest[..k];
        forall j | 0 <= j <= |t|
          ensures !OccursAt(t, end, j)
        {
          PrefixOccurrence(rest, end, k, j);
        }
      }
    }
  }

  /** A non-empty title sits between the first opening text and a closing
      text: the page holds opening text, title and closing text in a row. */
  lemma TitleFramed(body: string, start: string, end: string)
    ensures var t := TextBetween(body, start, end);
      t != "" ==>
        var i := IndexOf(body, start);
        && IsFirst(body, start, i)
        && OccursAt(body, start + t + end, i)
  {
    var t := TextBetween(body, start, end);
    if t != "" {
      var i := IndexOf(body, start);
      var from := i + |start|;
      var rest := body[from..];
      var k := IndexOf(rest, end);
      assert OccursAt(rest, end, k);
      SuffixSlice(body, from, 0, k);
      SuffixSlice(body, from, k, k + |end|);
      Abutting(body, i, start, t, end);
    }
  }

  /** Three texts that follow each other in `s` form their concatenation. */
  lemma Abutting(s: string, i: nat, a: string, b: string, c: string)
    requires OccursAt(s, a, i)
    requires OccursAt(s, b, i + |a|)
    requires OccursAt(s, c, i + |a| + |b|)
    ensures OccursAt(s, a + b + c, i)
  {
    SliceSplit(s, i, i + |a|, i + |a + b + c|);
    SliceSplit(s, i + |a|, i + |a| + |b|, i + |a + b + c|);
  }

  /** A slice of a suffix is a slice of the whole. */
  lemma SuffixSlice(s: string, a: nat, b: nat, c: nat)
    requires a <= |s| && b <= c <= |s| - a
    ensures s[a..][b..c] == s[a + b..a + c]
  {
  }

  /** A slice is the concatenation of its two parts. */
  lemma SliceSplit(s: string, a: nat, b: nat, c: nat)
    requires a <= b <= c <= |s|
    ensures s[a..c] == s[a..b] + s[b..c]
  {
  }

  /** Round trip: a page made of a prefix without the opening text, the
      opening text, a title that cannot start a closing text, the closing
      text and anything after yields that title. */
  lemma TitleOfPage(start: string, end: string, prefix: string, title: string, suffix: string)
    requires forall j :: 0 <= j < |prefix| ==> !OccursAt(prefix + start, start, j)
    requires forall j :: 0 <= j < |title| ==> !OccursAt(title + end + suffix, end, j)
    ensures TextBetween(prefix + start + title + end + suffix, start, end) == title
  {
    var body := prefix + start + title + end + suffix;
    var from := |prefix| + |start|;
    var rest := title + end + suffix;
    assert body[..from] == prefix + start;
    assert body[from..] == rest;
    assert body[|prefix|..from] == start;
    forall j | 0 <= j < |prefix|
      ensures !OccursAt(body, start, j)
    {
      PrefixOccurrence(body, start, from, j);
    }
    assert IsFirst(body, start, |prefix|);
    assert rest[|title|..|title| + |end|] == end;
    assert IsFirst(rest, end, |title|);
    TitleBetweenMarkers(body, start, end, |prefix|, |title|);
    assert body[from..from + |title|] == title;
  }
}
