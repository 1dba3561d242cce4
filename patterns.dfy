/** The three regular expressions of the scraper, written out as string predicates:
    `/title/(tt\d+)` and `(tt\d+)` on search-result links, `season=(\d+)` on season links,
    and `\.E0\b` on episode headers. `re.search` finds the leftmost match, and `\d+`
    takes the longest run of digits at that position. */
module Patterns {
  import opened Text

  /** Length of the run of digits that starts at position `i` of `s`. */
  function DigitRun(s: string, i: nat): (n: nat)
    requires i <= |s|
    ensures i + n <= |s|
    ensures OnlyDigits(s[i..i + n])
    ensures i + n == |s| || !IsDigit(s[i + n])
    decreases |s| - i
  {
    if i < |s| && IsDigit(s[i]) then
      var n := 1 + DigitRun(s, i + 1);
      assert s[i..i + n] == [s[i]] + s[i + 1..i + n];
      n
    else 0
  }

  // ---- `tt\d+`: an IMDb title identifier ----

  /** `tt` followed by a digit starts at position `i`. */
  predicate TtAt(s: string, i: int) {
    0 <= i && i + 3 <= |s| && s[i] == 't' && s[i + 1] == 't' && IsDigit(s[i + 2])
  }

  /** `/title/tt` followed by a digit starts at position `i`. */
  predicate TitleAt(s: string, i: int) {
    0 <= i && i + 10 <= |s| && s[i..i + 7] == "/title/" && TtAt(s, i + 7)
  }

  /** `re.search(r"/title/(tt\d+)", href)` succeeds. */
  predicate IsTitleHref(href: string) {
    exists i :: 0 <= i < |href| && TitleAt(href, i)
  }

  /** An identifier of the form `tt` followed by one or more digits. */
  predicate IsImdbId(id: string) {
    |id| >= 3 && id[0] == 't' && id[1] == 't' && AllDigits(id[2..])
  }

  /** The least `i >= from` with `TtAt(s, i)`, or `|s|` when there is none. */
  function FindTt(s: string, from: nat): (i: nat)
    requires from <= |s|
    ensures from <= i <= |s|
    ensures i < |s| ==> TtAt(s, i)
    ensures forall k :: from <= k < i ==> !TtAt(s, k)
    decreases |s| - from
  {
    if from == |s| then from
    else if TtAt(s, from) then from else FindTt(s, from + 1)
  }

  /** Start of the leftmost `tt<digit>` in `href`; there is one in every title href. */
  function FirstTt(href: string): (i: nat)
    requires IsTitleHref(href)
    ensures TtAt(href, i)
    ensures forall k :: 0 <= k < i ==> !TtAt(href, k)
  {
    FindTt(href, 0)
  }

  /** `re.search(r"(tt\d+)", href).group(1)`: the leftmost `tt` followed by digits, with
      all the digits that follow it. */
  function SeriesId(href: string): (id: string)
    requires IsTitleHref(href)
    ensures IsImdbId(id)
    ensures var i := FirstTt(href);
      i + |id| <= |href| && href[i..i + |id|] == id
      && (i + |id| == |href| || !IsDigit(href[i + |id|]))
  {
    var i := FirstTt(href);
    var n := DigitRun(href, i + 2);
    var id := href[i..i + 2 + n];
    assert id[2..] == href[i + 2..i + 2 + n];
    id
  }

  // ---- `season=(\d+)` ----

  /** `season=` followed by a digit starts at position `i`. */
  predicate SeasonAt(s: string, i: int) {
    0 <= i && i + 8 <= |s| && s[i..i + 7] == "season=" && IsDigit(s[i + 7])
  }

  /** `re.search(r"season=(\d+)", href)` succeeds. */
  predicate HasSeasonParam(href: string) {
    exists i :: 0 <= i < |href| && SeasonAt(href, i)
  }

  /** The least `i >= from` with `SeasonAt(s, i)`, or `|s|` when there is none. */
  function FindSeason(s: string, from: nat): (i: nat)
    requires from <= |s|
    ensures from <= i <= |s|
    ensures i < |s| ==> SeasonAt(s, i)
    ensures forall k :: from <= k < i ==> !SeasonAt(s, k)
    decreases |s| - from
  {
    if from == |s| then from
    else if SeasonAt(s, from) then from else FindSeason(s, from + 1)
  }

  /** Start of the leftmost `season=<digit>` in `href`. */
  function FirstSeason(href: string): (i: nat)
    requires HasSeasonParam(href)
    ensures SeasonAt(href, i)
    ensures forall k :: 0 <= k < i ==> !SeasonAt(href, k)
  {
    FindSeason(href, 0)
  }

  /** The digits captured by the leftmost `season=(\d+)` match: all the digits after it. */
  function SeasonDigits(href: string): (ds: string)
    requires HasSeasonParam(href)
    ensures AllDigits(ds)
    ensures var i := FirstSeason(href) + 7;
      i + |ds| <= |href| && href[i..i + |ds|] == ds
      && (i + |ds| == |href| || !IsDigit(href[i + |ds|]))
  {
    var i := FirstSeason(href) + 7;
    href[i..i + DigitRun(href, i)]
  }

  /** `int(m.group(1))` for the season match of `href`. */
  function SeasonParam(href: string): nat
    requires HasSeasonParam(href)
  {
    DigitsValue(SeasonDigits(href))
  }

  // ---- `\.E0\b`: the marker of a special (episode zero) ----

  /** `.E0` starts at position `i` and is followed by the end of `h` or by a character that
      is not a word character (the word boundary after the `0`). */
  predicate SpecialAt(h: string, i: int) {
    0 <= i && i + 3 <= |h| && h[i..i + 3] == ".E0" && (i + 3 == |h| || !IsWordChar(h[i + 3]))
  }

  /** `re.search(r"\.E0\b", h)` succeeds. */
  predicate IsSpecialHeader(h: string) {
    exists i :: 0 <= i < |h| && SpecialAt(h, i)
  }

  /** Episode zero is a special; episodes 01 and 10 are not. */
  lemma SpecialHeaderExamples()
    ensures IsSpecialHeader("S1.E0")
    ensures IsSpecialHeader("S3.E0 - Pilot")
    ensures !IsSpecialHeader("S1.E01")
    ensures !IsSpecialHeader("S1.E10")
  {
    assert SpecialAt("S1.E0", 2);
    assert SpecialAt("S3.E0 - Pilot", 2);
    var a := "S1.E01";
    forall i | 0 <= i < |a| ensures !SpecialAt(a, i) {
      if i == 0 { assert a[0] != '.'; }
      else if i == 1 { assert a[1] != '.'; }
      else if i == 2 { assert a[5] == '1'; }
      else if i == 3 { assert a[3] != '.'; }
    }
    var b := "S1.E10";
    forall i | 0 <= i < |b| ensures !SpecialAt(b, i) {
      if i == 0 { assert b[0] != '.'; }
      else if i == 1 { assert b[1] != '.'; }
      else if i == 2 { assert b[4] != '0'; }
      else if i == 3 { assert b[3] != '.'; }
    }
  }
}
