/** The extraction-and-aggregation pipeline shared by the web API and the command-line
    script: resolve a title to an IMDb series, list its seasons, read the ratings of each
    season's episodes and keep the seasons with more than one rating.

    The HTML pages are replaced by the records the code extracts from them (links and
    episode articles), the network by the total functions of a `Site`, and `time.sleep`
    by a `Pause` event in the trace of outbound requests. */
module Scraper {
  import opened Outcomes
  import opened Text
  import opened Patterns
  import opened Sequences

  /** An `<a>` element with an `href`: its target and its text after `get_text(strip=True)`. */
  datatype Link = Link(href: string, text: string)

  /** An `article.episode-item-wrapper`: the text of its `<h4>` header and the stripped
      text of its rating span, each absent when the element is missing. */
  datatype Article = Article(header: Option<string>, rating: Option<string>)

  /** What the pipeline receives from IMDb. Each page either arrives (as the records
      extracted from it) or the request raises; `parseFloat` is Python's `float()` on the
      rating text, `None` where it raises `ValueError` or yields NaN. */
  datatype Site = Site(
    findPage: string -> Result<seq<Link>>,
    episodesPage: string -> Result<seq<Link>>,
    seasonPage: (string, int) -> Result<seq<Article>>,
    parseFloat: string -> Option<real>)

  /** A resolved series: its IMDb identifier and the display title. */
  datatype Identity = Identity(imdbId: string, displayTitle: string)

  /** Outbound requests (search, episode list, one season's page) and pacing delays. */
  datatype Event =
    | SearchRequest(query: string)
    | EpisodesRequest(imdbId: string)
    | SeasonRequest(imdbId: string, season: int)
    | Pause

  /** The per-season rating lists together with the series they belong to. */
  datatype Scores = Scores(seasons: seq<seq<real>>, identity: Identity)

  // ---------------------------------------------------------------------------
  // Series resolution (search_series)
  // ---------------------------------------------------------------------------

  /** A search result that names a series: an href with `/title/tt<digits>` and text. */
  predicate IsSeriesLink(l: Link) {
    IsTitleHref(l.href) && l.text != ""
  }

  function NotFoundMessage(title: string): string {
    "No TV series found for '" + title + "'"
  }

  /** The identity named by the first series link, in document order. */
  function FirstSeries(links: seq<Link>): (r: Option<Identity>)
    ensures r.None? <==> forall i :: 0 <= i < |links| ==> !IsSeriesLink(links[i])
    ensures r.Some? ==> exists i ::
      (0 <= i < |links| && IsSeriesLink(links[i])
      && (forall j :: 0 <= j < i ==> !IsSeriesLink(links[j]))
      && r.value == Identity(SeriesId(links[i].href), links[i].text))
    ensures r.Some? ==> IsImdbId(r.value.imdbId) && r.value.displayTitle != ""
  {
    if links == [] then None
    else if IsSeriesLink(links[0]) then Some(Identity(SeriesId(links[0].href), links[0].text))
    else
      var r := FirstSeries(links[1..]);
      assert forall i :: 1 <= i < |links| ==> links[i] == links[1..][i - 1];
      r
  }

  /** What `search_series(title)` returns or raises. */
  function SearchResult(site: Site, title: string): Result<Identity> {
    match site.findPage(title)
    case Err(e) => Err(e)
    case Ok(links) =>
      match FirstSeries(links)
      case None => Err(ValueError(NotFoundMessage(title)))
      case Some(identity) => Ok(identity)
  }

  method SearchSeries(site: Site, title: string) returns (r: Result<Identity>)
    ensures r == SearchResult(site, title)
  {
    var page := site.findPage(title);
    if page.Err? {
      return Err(page.error);
    }
    var links := page.value;
    for i := 0 to |links|
      invariant FirstSeries(links) == FirstSeries(links[i..])
    {
      var a := links[i];
      assert links[i..][1..] == links[i + 1..];
      if IsTitleHref(a.href) {
        var text := a.text;
        if text != "" {
          return Ok(Identity(SeriesId(a.href), text));
        }
      }
    }
    return Err(ValueError(NotFoundMessage(title)));
  }

  /** Resolution fails with `NotFound` exactly when the search page arrived and holds no
      series link, and it never fails otherwise once the page arrived. */
  lemma SearchOutcome(site: Site, title: string)
    requires site.findPage(title).Ok?
    ensures var links := site.findPage(title).value;
      SearchResult(site, title) == Err(ValueError(NotFoundMessage(title)))
      <==> forall i :: 0 <= i < |links| ==> !IsSeriesLink(links[i])
    ensures SearchResult(site, title).Err? ==> SearchResult(site, title).error == ValueError(NotFoundMessage(title))
  {
  }

  // ---------------------------------------------------------------------------
  // Season enumeration (get_season_numbers)
  // ---------------------------------------------------------------------------

  /** A link that lists a season: `season=<digits>` in the href and digits as its text. */
  predicate IsSeasonLink(l: Link) {
    HasSeasonParam(l.href) && AllDigits(l.text)
  }

  /** The season number a link contributes: the number in its href when it is a season
      link, nothing otherwise. */
  function SeasonOf(l: Link): (r: Option<int>)
    ensures r.Some? <==> HasSeasonParam(l.href) && AllDigits(l.text)
    ensures r.Some? ==> r.value == DigitsValue(SeasonDigits(l.href)) && r.value >= 0
  {
    if IsSeasonLink(l) then Some(SeasonParam(l.href)) else None
  }

  /** The set of season numbers that the season links carry in their hrefs. */
  function SeasonSet(links: seq<Link>): (r: set<int>)
    ensures forall x :: x in r <==> exists i :: 0 <= i < |links| && SeasonOf(links[i]) == Some(x)
  {
    if links == [] then {}
    else
      var pre := links[..|links| - 1];
      var r := SeasonSet(pre) + (match SeasonOf(links[|links| - 1]) case Some(n) => {n} case None => {});
      assert forall i :: 0 <= i < |pre| ==> pre[i] == links[i];
      r
  }

  /** What `get_season_numbers(imdb_id)` returns or raises. */
  function SeasonNumbers(site: Site, imdbId: string): Result<seq<int>> {
    match site.episodesPage(imdbId)
    case Err(e) => Err(e)
    case Ok(links) => Ok(Sorted(SeasonSet(links)))
  }

  method GetSeasonNumbers(site: Site, imdbId: string) returns (r: Result<seq<int>>)
    ensures r == SeasonNumbers(site, imdbId)
    ensures r.Ok? ==> StrictlyAscending(r.value)
  {
    var page := site.episodesPage(imdbId);
    if page.Err? {
      return Err(page.error);
    }
    var links := page.value;
    var seasons: set<int> := {};
    for i := 0 to |links|
      invariant seasons == SeasonSet(links[..i])
    {
      var a := links[i];
      assert links[..i + 1][..i] == links[..i];
      if HasSeasonParam(a.href) {
        var text := a.text;
        if AllDigits(text) {
          seasons := seasons + {SeasonParam(a.href)};
        }
      }
    }
    assert links[..|links|] == links;
    return Ok(Sorted(seasons));
  }

  /** The season list is strictly ascending (so without duplicates), holds exactly the
      numbers of the season links, and is the only list with these two properties. */
  lemma {:induction false} SeasonNumbersCharacterized(site: Site, imdbId: string, listed: seq<int>)
    requires site.episodesPage(imdbId).Ok?
    requires StrictlyAscending(listed)
    requires forall x :: x in listed <==> exists i ::
      0 <= i < |site.episodesPage(imdbId).value| && SeasonOf(site.episodesPage(imdbId).value[i]) == Some(x)
    ensures SeasonNumbers(site, imdbId) == Ok(listed)
  {
    var links := site.episodesPage(imdbId).value;
    AscendingUnique(Sorted(SeasonSet(links)), listed);
  }

  // ---------------------------------------------------------------------------
  // Episode ratings (get_episode_ratings)
  // ---------------------------------------------------------------------------

  /** The rating one article contributes: none for a special (`.E0` in the header), for a
      missing or unparseable rating, or for a value outside (0, 10]. */
  function EpisodeRating(a: Article, parse: string -> Option<real>): (r: Option<real>)
    ensures r.Some? ==> 0.0 < r.value <= 10.0
    ensures r.Some? <==>
      && !(a.header.Some? && IsSpecialHeader(a.header.value))
      && a.rating.Some? && parse(a.rating.value).Some?
      && 0.0 < parse(a.rating.value).value <= 10.0
    ensures r.Some? ==> r == parse(a.rating.value)
  {
    if a.header.Some? && IsSpecialHeader(a.header.value) then None
    else if a.rating.None? then None
    else
      match parse(a.rating.value)
      case None => None
      case Some(v) => if 0.0 < v <= 10.0 then Some(v) else None
  }

  /** The ratings the articles contribute, in document order. */
  function KeptRatings(articles: seq<Article>, parse: string -> Option<real>): (r: seq<real>)
    ensures forall k :: 0 <= k < |r| ==> 0.0 < r[k] <= 10.0
  {
    if articles == [] then []
    else
      (match EpisodeRating(articles[0], parse) case Some(v) => [v] case None => [])
      + KeptRatings(articles[1..], parse)
  }

  lemma {:induction false} KeptRatingsAppend(a: seq<Article>, b: seq<Article>, parse: string -> Option<real>)
    ensures KeptRatings(a + b, parse) == KeptRatings(a, parse) + KeptRatings(b, parse)
    decreases |a|
  {
    if a != [] {
      assert (a + b)[1..] == a[1..] + b;
      KeptRatingsAppend(a[1..], b, parse);
    } else {
      assert a + b == b;
    }
  }

  /** Every rating that parses, in document order, specials and out-of-range values included. */
  function ParsedRatings(articles: seq<Article>, parse: string -> Option<real>): seq<real> {
    if articles == [] then []
    else
      (if articles[0].rating.Some? && parse(articles[0].rating.value).Some?
       then [parse(articles[0].rating.value).value] else [])
      + ParsedRatings(articles[1..], parse)
  }

  /** The kept ratings are a subsequence of the parseable ratings: nothing is invented
      and the document order is kept. */
  lemma {:induction false} KeptAreParsedInOrder(articles: seq<Article>, parse: string -> Option<real>)
    ensures IsSubsequence(KeptRatings(articles, parse), ParsedRatings(articles, parse))
  {
    if articles != [] {
      KeptAreParsedInOrder(articles[1..], parse);
      var kept := KeptRatings(articles[1..], parse);
      var parsed := ParsedRatings(articles[1..], parse);
      var a := articles[0];
      if a.rating.Some? && parse(a.rating.value).Some? {
        var v := parse(a.rating.value).value;
        assert ParsedRatings(articles, parse) == [v] + parsed;
        if EpisodeRating(a, parse).Some? {
          assert KeptRatings(articles, parse) == [v] + kept;
          assert ([v] + kept)[1..] == kept;
          assert ([v] + parsed)[1..] == parsed;
        } else {
          assert KeptRatings(articles, parse) == kept;
          SubsequencePrepend(kept, parsed, v);
        }
      } else {
        assert EpisodeRating(a, parse).None?;
        assert KeptRatings(articles, parse) == kept;
        assert ParsedRatings(articles, parse) == parsed;
      }
    }
  }

  /** An entry that contributes nothing (a special, no rating, unparseable or out of range)
      can be removed without changing the result; in particular an `.E0` special never
      contributes, whatever its rating. */
  lemma SkippedEntry(pre: seq<Article>, a: Article, post: seq<Article>, parse: string -> Option<real>)
    requires EpisodeRating(a, parse).None?
    ensures KeptRatings(pre + [a] + post, parse) == KeptRatings(pre, parse) + KeptRatings(post, parse)
  {
    KeptRatingsAppend(pre + [a], post, parse);
    KeptRatingsAppend(pre, [a], parse);
  }

  /** A rating of exactly 10 is kept; 0 and anything above 10 are dropped, as is a special
      with a valid rating. */
  lemma RatingBoundaries()
    ensures EpisodeRating(Article(Some("S1.E1"), Some("10.0")), _ => Some(10.0)) == Some(10.0)
    ensures EpisodeRating(Article(Some("S1.E1"), Some("0.0")), _ => Some(0.0)) == None
    ensures EpisodeRating(Article(Some("S1.E1"), Some("10.5")), _ => Some(10.5)) == None
    ensures EpisodeRating(Article(Some("S1.E0"), Some("9.0")), _ => Some(9.0)) == None
    ensures EpisodeRating(Article(None, Some("9.0")), _ => Some(9.0)) == Some(9.0)
    ensures EpisodeRating(Article(Some("S1.E2"), None), _ => Some(9.0)) == None
  {
    SpecialHeaderNotIn("S1.E1");
    SpecialHeaderExamples();
    SpecialHeaderNotIn("S1.E2");
  }

  lemma SpecialHeaderNotIn(h: string)
    requires |h| == 5 && h[2] == '.' && h[3] == 'E' && h[4] != '0'
    requires h[0] != '.' && h[1] != '.'
    ensures !IsSpecialHeader(h)
  {
    forall i | 0 <= i < |h| ensures !SpecialAt(h, i) {
      if i == 0 { assert h[0] != '.'; }
      else if i == 1 { assert h[1] != '.'; }
      else if i == 2 { assert h[4] != '0'; }
    }
  }

  /** What `get_episode_ratings(imdb_id, season)` returns or raises. */
  function EpisodeRatings(site: Site, imdbId: string, season: int): Result<seq<real>> {
    match site.seasonPage(imdbId, season)
    case Err(e) => Err(e)
    case Ok(articles) => Ok(KeptRatings(articles, site.parseFloat))
  }

  method GetEpisodeRatings(site: Site, imdbId: string, season: int) returns (r: Result<seq<real>>)
    ensures r == EpisodeRatings(site, imdbId, season)
  {
    var page := site.seasonPage(imdbId, season);
    if page.Err? {
      return Err(page.error);
    }
    var articles := page.value;
    var ratings: seq<real> := [];
    for i := 0 to |articles|
      invariant ratings == KeptRatings(articles[..i], site.parseFloat)
    {
      var article := articles[i];
      assert articles[..i + 1] == articles[..i] + [article];
      KeptRatingsAppend(articles[..i], [article], site.parseFloat);
      if article.header.Some? && IsSpecialHeader(article.header.value) {
        continue;
      }
      if article.rating.Some? {
        var parsed := site.parseFloat(article.rating.value);
        if parsed.Some? {
          var val := parsed.value;
          if 0.0 < val <= 10.0 {
            ratings := ratings + [val];
          }
        }
      }
    }
    assert articles[..|articles|] == articles;
    return Ok(ratings);
  }

  // ---------------------------------------------------------------------------
  // Aggregation (get_scores)
  // ---------------------------------------------------------------------------

  /** The lists with more than one rating, in their original order. */
  function Long(lists: seq<seq<real>>): seq<seq<real>>
  {
    if lists == [] then []
    else (if |lists[0]| > 1 then [lists[0]] else []) + Long(lists[1..])
  }

  /** A list is kept exactly when it has more than one rating. */
  lemma {:induction false} LongMembers(lists: seq<seq<real>>)
    ensures forall l :: l in Long(lists) <==> l in lists && |l| > 1
  {
    if lists != [] {
      LongMembers(lists[1..]);
      assert lists == [lists[0]] + lists[1..];
      assert forall l :: l in lists <==> l == lists[0] || l in lists[1..];
    }
  }

  /** Appending one season's list extends the kept lists by it when it has more than one
      rating. */
  lemma {:induction false} LongSnoc(lists: seq<seq<real>>, v: seq<real>)
    ensures Long(lists + [v]) == Long(lists) + (if |v| > 1 then [v] else [])
  {
    var last := if |v| > 1 then [v] else [];
    if lists == [] {
      assert [v][1..] == [];
      assert lists + [v] == [v];
    } else {
      var head := if |lists[0]| > 1 then [lists[0]] else [];
      LongSnoc(lists[1..], v);
      assert Long(lists + [v]) == head + Long(lists[1..] + [v]) by {
        assert (lists + [v])[0] == lists[0];
        assert (lists + [v])[1..] == lists[1..] + [v];
      }
      assert head + (Long(lists[1..]) + last) == (head + Long(lists[1..])) + last;
    }
  }

  lemma {:induction false} LongIsSubsequence(lists: seq<seq<real>>)
    ensures IsSubsequence(Long(lists), lists)
  {
    if lists != [] {
      var rest := Long(lists[1..]);
      LongIsSubsequence(lists[1..]);
      assert [lists[0]] + lists[1..] == lists;
      if |lists[0]| > 1 {
        assert Long(lists) == [lists[0]] + rest;
        assert ([lists[0]] + rest)[1..] == rest;
      } else {
        assert Long(lists) == rest;
        SubsequencePrepend(rest, lists[1..], lists[0]);
      }
    }
  }

  /** The ratings of the given seasons, fetched in order; the first failing fetch makes the
      whole fetch fail with its exception. */
  function FetchAll(site: Site, imdbId: string, seasons: seq<int>): Result<seq<seq<real>>>
    decreases |seasons|
  {
    if seasons == [] then Ok([])
    else
      match FetchAll(site, imdbId, seasons[..|seasons| - 1])
      case Err(e) => Err(e)
      case Ok(pre) =>
        match EpisodeRatings(site, imdbId, seasons[|seasons| - 1])
        case Err(e) => Err(e)
        case Ok(ratings) => Ok(pre + [ratings])
  }

  /** The requests and pauses of the season loop, up to and including a failing request. */
  function LoopTrace(site: Site, imdbId: string, seasons: seq<int>): seq<Event>
    decreases |seasons|
  {
    if seasons == [] then []
    else
      var pre := seasons[..|seasons| - 1];
      var last := seasons[|seasons| - 1];
      if FetchAll(site, imdbId, pre).Err? then LoopTrace(site, imdbId, pre)
      else
        LoopTrace(site, imdbId, pre) + [SeasonRequest(imdbId, last)]
        + (if EpisodeRatings(site, imdbId, last).Ok? then [Pause] else [])
  }

  /** Each season's request followed by one pause, season by season. */
  function PacedTrace(imdbId: string, seasons: seq<int>): seq<Event> {
    if seasons == [] then []
    else PacedTrace(imdbId, seasons[..|seasons| - 1]) + [SeasonRequest(imdbId, seasons[|seasons| - 1]), Pause]
  }

  function CountPauses(trace: seq<Event>): nat {
    if trace == [] then 0
    else (if trace[0].Pause? then 1 else 0) + CountPauses(trace[1..])
  }

  lemma {:induction false} CountPausesAppend(a: seq<Event>, b: seq<Event>)
    ensures CountPauses(a + b) == CountPauses(a) + CountPauses(b)
    decreases |a|
  {
    if a != [] {
      assert (a + b)[1..] == a[1..] + b;
      CountPausesAppend(a[1..], b);
    } else {
      assert a + b == b;
    }
  }

  /** One step of the season loop when the season's fetch raises: the loop fails with
      that exception right after the request. */
  lemma LoopStepFailed(site: Site, imdbId: string, seasons: seq<int>, i: nat, fetched: seq<seq<real>>)
    requires i < |seasons|
    requires FetchAll(site, imdbId, seasons[..i]) == Ok(fetched)
    requires EpisodeRatings(site, imdbId, seasons[i]).Err?
    ensures FetchAll(site, imdbId, seasons[..i + 1]) == Err(EpisodeRatings(site, imdbId, seasons[i]).error)
    ensures LoopTrace(site, imdbId, seasons[..i + 1])
      == LoopTrace(site, imdbId, seasons[..i]) + [SeasonRequest(imdbId, seasons[i])]
  {
    assert seasons[..i + 1][..i] == seasons[..i];
  }

  /** One step of the season loop when the season's fetch succeeds: its list is appended
      and the request is followed by a pause. */
  lemma LoopStepFetched(site: Site, imdbId: string, seasons: seq<int>, i: nat, fetched: seq<seq<real>>)
    requires i < |seasons|
    requires FetchAll(site, imdbId, seasons[..i]) == Ok(fetched)
    requires EpisodeRatings(site, imdbId, seasons[i]).Ok?
    ensures FetchAll(site, imdbId, seasons[..i + 1])
      == Ok(fetched + [EpisodeRatings(site, imdbId, seasons[i]).value])
    ensures LoopTrace(site, imdbId, seasons[..i + 1])
      == LoopTrace(site, imdbId, seasons[..i]) + [SeasonRequest(imdbId, seasons[i]), Pause]
  {
    assert seasons[..i + 1][..i] == seasons[..i];
  }

  /** A successful loop requests every season, in order, pausing once after each season
      whether or not it is kept, and its lists are the ratings of the seasons, in order. */
  lemma {:induction false} SuccessfulLoop(site: Site, imdbId: string, seasons: seq<int>)
    requires FetchAll(site, imdbId, seasons).Ok?
    ensures LoopTrace(site, imdbId, seasons) == PacedTrace(imdbId, seasons)
    ensures CountPauses(PacedTrace(imdbId, seasons)) == |seasons|
    ensures var lists := FetchAll(site, imdbId, seasons).value;
      |lists| == |seasons|
      && forall k :: 0 <= k < |seasons| ==> EpisodeRatings(site, imdbId, seasons[k]) == Ok(lists[k])
    decreases |seasons|
  {
    if seasons != [] {
      var pre := seasons[..|seasons| - 1];
      SuccessfulLoop(site, imdbId, pre);
      var step := [SeasonRequest(imdbId, seasons[|seasons| - 1]), Pause];
      CountPausesAppend(PacedTrace(imdbId, pre), step);
      assert step[1..] == [Pause] && step[1..][1..] == [];
      assert CountPauses(step[1..]) == 1;
      assert CountPauses(step) == 1;
      var lists := FetchAll(site, imdbId, seasons).value;
      var preLists := FetchAll(site, imdbId, pre).value;
      assert forall k :: 0 <= k < |pre| ==> seasons[k] == pre[k] && lists[k] == preLists[k];
    }
  }

  /** A failed loop fails with the exception of the first season whose fetch raised. */
  lemma {:induction false} FailedLoop(site: Site, imdbId: string, seasons: seq<int>)
    requires FetchAll(site, imdbId, seasons).Err?
    ensures exists k ::
      (0 <= k < |seasons|
      && (forall j :: 0 <= j < k ==> EpisodeRatings(site, imdbId, seasons[j]).Ok?)
      && EpisodeRatings(site, imdbId, seasons[k]) == Err(FetchAll(site, imdbId, seasons).error))
    decreases |seasons|
  {
    var pre := seasons[..|seasons| - 1];
    var n := |seasons| - 1;
    assert forall j :: 0 <= j < n ==> seasons[j] == pre[j];
    if FetchAll(site, imdbId, pre).Err? {
      FailedLoop(site, imdbId, pre);
      var k :| 0 <= k < |pre|
        && (forall j :: 0 <= j < k ==> EpisodeRatings(site, imdbId, pre[j]).Ok?)
        && EpisodeRatings(site, imdbId, pre[k]) == Err(FetchAll(site, imdbId, pre).error);
      assert EpisodeRatings(site, imdbId, seasons[k]) == Err(FetchAll(site, imdbId, seasons).error);
    } else {
      SuccessfulLoop(site, imdbId, pre);
      assert EpisodeRatings(site, imdbId, seasons[n]) == Err(FetchAll(site, imdbId, seasons).error);
    }
  }

  /** Once a prefix of the loop has failed, the loop's outcome and trace are fixed. */
  lemma {:induction false} FailureIsFinal(site: Site, imdbId: string, seasons: seq<int>, i: nat)
    requires i <= |seasons|
    requires FetchAll(site, imdbId, seasons[..i]).Err?
    ensures FetchAll(site, imdbId, seasons) == FetchAll(site, imdbId, seasons[..i])
    ensures LoopTrace(site, imdbId, seasons) == LoopTrace(site, imdbId, seasons[..i])
    decreases |seasons| - i
  {
    if i < |seasons| {
      var pre := seasons[..|seasons| - 1];
      assert pre[..i] == seasons[..i];
      FailureIsFinal(site, imdbId, pre, i);
    } else {
      assert seasons[..i] == seasons;
    }
  }

  /** Every fetched rating lies in (0, 10]. */
  lemma {:induction false} FetchedInRange(site: Site, imdbId: string, seasons: seq<int>)
    requires FetchAll(site, imdbId, seasons).Ok?
    ensures var lists := FetchAll(site, imdbId, seasons).value;
      forall k, j :: 0 <= k < |lists| && 0 <= j < |lists[k]| ==> 0.0 < lists[k][j] <= 10.0
    decreases |seasons|
  {
    if seasons != [] {
      FetchedInRange(site, imdbId, seasons[..|seasons| - 1]);
    }
  }

  /** The body shared by both `get_scores` functions, the web one inside its `try` and the
      command-line one: the kept season lists with the resolved identity, or the first
      exception raised. */
  function Aggregate(site: Site, title: string): Result<Scores> {
    match SearchResult(site, title)
    case Err(e) => Err(e)
    case Ok(identity) =>
      match SeasonNumbers(site, identity.imdbId)
      case Err(e) => Err(e)
      case Ok(seasons) =>
        match FetchAll(site, identity.imdbId, seasons)
        case Err(e) => Err(e)
        case Ok(lists) => Ok(Scores(Long(lists), identity))
  }

  /** The requests `get_scores(title)` makes, with its pauses, in order. */
  function AggregateTrace(site: Site, title: string): seq<Event> {
    match SearchResult(site, title)
    case Err(_) => [SearchRequest(title)]
    case Ok(identity) =>
      match SeasonNumbers(site, identity.imdbId)
      case Err(_) => [SearchRequest(title), EpisodesRequest(identity.imdbId)]
      case Ok(seasons) =>
        [SearchRequest(title), EpisodesRequest(identity.imdbId)] + LoopTrace(site, identity.imdbId, seasons)
  }

  /** `get_scores` once the series is resolved and its seasons enumerated: the result is
      decided by the season loop. */
  lemma AggregateUnfold(site: Site, title: string, identity: Identity, seasons: seq<int>)
    requires SearchResult(site, title) == Ok(identity)
    requires SeasonNumbers(site, identity.imdbId) == Ok(seasons)
    ensures FetchAll(site, identity.imdbId, seasons).Err? ==>
      Aggregate(site, title) == Err(FetchAll(site, identity.imdbId, seasons).error)
    ensures FetchAll(site, identity.imdbId, seasons).Ok? ==>
      Aggregate(site, title) == Ok(Scores(Long(FetchAll(site, identity.imdbId, seasons).value), identity))
  {
    var fetched := FetchAll(site, identity.imdbId, seasons);
    assert Aggregate(site, title) == match fetched
      case Err(e) => Err(e)
      case Ok(lists) => Ok(Scores(Long(lists), identity));
  }

  /** The season loop of `get_scores`: fetch each season in order, keep the lists of more
      than one rating, pause after every successful fetch, stop at the first exception. */
  method ScoreSeasons(site: Site, imdbId: string, seasons: seq<int>)
    returns (r: Result<seq<seq<real>>>, trace: seq<Event>)
    ensures FetchAll(site, imdbId, seasons).Err? ==> r == Err(FetchAll(site, imdbId, seasons).error)
    ensures FetchAll(site, imdbId, seasons).Ok? ==> r == Ok(Long(FetchAll(site, imdbId, seasons).value))
    ensures trace == LoopTrace(site, imdbId, seasons)
  {
    trace := [];
    ghost var fetched: seq<seq<real>> := [];
    var allScores: seq<seq<real>> := [];
    for i := 0 to |seasons|
      invariant FetchAll(site, imdbId, seasons[..i]) == Ok(fetched)
      invariant allScores == Long(fetched)
      invariant trace == LoopTrace(site, imdbId, seasons[..i])
    {
      var s := seasons[i];
      var ratings := GetEpisodeRatings(site, imdbId, s);
      trace := trace + [SeasonRequest(imdbId, s)];
      if ratings.Err? {
        LoopStepFailed(site, imdbId, seasons, i, fetched);
        FailureIsFinal(site, imdbId, seasons, i + 1);
        return Err(ratings.error), trace;
      }
      var v := ratings.value;
      if |v| > 1 {
        allScores := allScores + [v];
      }
      trace := trace + [Pause];
      LoopStepFetched(site, imdbId, seasons, i, fetched);
      LongSnoc(fetched, v);
      fetched := fetched + [v];
    }
    assert seasons[..|seasons|] == seasons;
    return Ok(allScores), trace;
  }

  /** `get_scores(title)`: the series' season lists and identity, or the first exception. */
  method GetScores(site: Site, title: string) returns (r: Result<Scores>, trace: seq<Event>)
    ensures r == Aggregate(site, title)
    ensures trace == AggregateTrace(site, title)
  {
    trace := [SearchRequest(title)];
    var found := SearchSeries(site, title);
    if found.Err? {
      return Err(found.error), trace;
    }
    var identity := found.value;
    var imdbId := identity.imdbId;
    trace := [SearchRequest(title), EpisodesRequest(imdbId)];
    var listed := GetSeasonNumbers(site, imdbId);
    if listed.Err? {
      return Err(listed.error), trace;
    }
    var seasons := listed.value;
    var scored, loopTrace := ScoreSeasons(site, imdbId, seasons);
    AggregateUnfold(site, title, identity, seasons);
    trace := trace + loopTrace;
    if scored.Err? {
      return Err(scored.error), trace;
    }
    return Ok(Scores(scored.value, identity)), trace;
  }

  /** On success the identity is the resolved one and the season lists are the ratings of
      the enumerated seasons, in ascending season order, with the seasons of fewer than two
      ratings left out. */
  lemma AggregateSuccess(site: Site, title: string)
    requires Aggregate(site, title).Ok?
    ensures var scores := Aggregate(site, title).value;
      var id := scores.identity.imdbId;
      && SearchResult(site, title) == Ok(scores.identity)
      && SeasonNumbers(site, id).Ok?
      && var seasons := SeasonNumbers(site, id).value;
      && StrictlyAscending(seasons)
      && FetchAll(site, id, seasons).Ok?
      && var lists := FetchAll(site, id, seasons).value;
      && |lists| == |seasons|
      && (forall k :: 0 <= k < |seasons| ==> EpisodeRatings(site, id, seasons[k]) == Ok(lists[k]))
      && scores.seasons == Long(lists)
      && IsSubsequence(scores.seasons, lists)
  {
    var scores := Aggregate(site, title).value;
    var id := scores.identity.imdbId;
    var seasons := SeasonNumbers(site, id).value;
    SuccessfulLoop(site, id, seasons);
    LongIsSubsequence(FetchAll(site, id, seasons).value);
  }

  /** On success every kept list has more than one rating and every rating lies in (0, 10]. */
  lemma AggregateBounds(site: Site, title: string)
    requires Aggregate(site, title).Ok?
    ensures var kept := Aggregate(site, title).value.seasons;
      && (forall k :: 0 <= k < |kept| ==> |kept[k]| > 1)
      && (forall k, j :: 0 <= k < |kept| && 0 <= j < |kept[k]| ==> 0.0 < kept[k][j] <= 10.0)
  {
    var scores := Aggregate(site, title).value;
    var id := scores.identity.imdbId;
    var seasons := SeasonNumbers(site, id).value;
    var lists := FetchAll(site, id, seasons).value;
    FetchedInRange(site, id, seasons);
    LongMembers(lists);
    forall k | 0 <= k < |scores.seasons| ensures scores.seasons[k] in lists {
      assert scores.seasons[k] in scores.seasons;
    }
  }

  /** On success there was exactly one pause per enumerated season, kept or not, each
      right after that season's request. */
  lemma AggregatePacing(site: Site, title: string)
    requires Aggregate(site, title).Ok?
    ensures var id := Aggregate(site, title).value.identity.imdbId;
      SeasonNumbers(site, id).Ok?
      && AggregateTrace(site, title)
         == [SearchRequest(title), EpisodesRequest(id)] + PacedTrace(id, SeasonNumbers(site, id).value)
      && CountPauses(AggregateTrace(site, title)) == |SeasonNumbers(site, id).value|
  {
    var id := Aggregate(site, title).value.identity.imdbId;
    var seasons := SeasonNumbers(site, id).value;
    SuccessfulLoop(site, id, seasons);
    var head := [SearchRequest(title), EpisodesRequest(id)];
    CountPausesAppend(head, PacedTrace(id, seasons));
    assert head[1..] == [EpisodesRequest(id)] && head[1..][1..] == [];
  }
}
