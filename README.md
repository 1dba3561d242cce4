# IMDb episode ratings: a Dafny model

This project models the core of a small scraper that collects IMDb episode ratings for a
TV series. It has two entry points:

- a serverless web endpoint (`api/index.py`) that answers `GET ?title=...` with a JSON
  object and keeps a per-client sliding-window rate limit;
- a command-line script (`tv_series_ratings.py`) that plots the ratings.

Both run the same pipeline:

1. resolve the title to a series through the IMDb search page (`search_series`);
2. list the season numbers from the episode page (`get_season_numbers`);
3. read the ratings of each season's episodes, skipping specials (`.E0`) and
   ratings outside (0, 10] (`get_episode_ratings`);
4. keep the seasons with more than one rating, pausing after every season (`get_scores`).

The web endpoint maps exceptions to a JSON error in two tiers. A `ValueError` shows its
message; any other exception shows a fixed generic message. The script lets exceptions
propagate.

Modules:

- `Outcomes`: `Option`, `Result`, and `Raised`, the exception as the code distinguishes it
  (`ValueError` or another class).
- `Sequences`: subsequences, strictly ascending sequences, `sorted` of an integer set,
  ranges and flattening.
- `Text`: `isdigit`, `int`, `str` of a natural number, `strip`, `split` and `join`, over ASCII.
- `Patterns`: the regular expressions `/title/(tt\d+)`, `(tt\d+)`, `season=(\d+)` and
  `\.E0\b` as string predicates. Each finds the leftmost match, and `\d+` takes all the
  digits there.
- `Scraper`: the pipeline shared by both files. The HTML pages are replaced by the
  records the code extracts from them: links `(href, text)` and episode articles
  `(header?, rating?)`.
  - The network is a `Site`: total functions that return a page's records or raise.
  - Python's `float()` is `Site.parseFloat`.
  - `time.sleep(0.3)` is a `Pause` event in the returned trace of outbound requests.
- `Api`: the payload and error mapping, and the rate limiter. The rate limiter is a class
  whose `requestCounts` map is updated in place, with `time.time()` passed as `now`.
  Also here: the client-address fallback chain and the `do_GET` decision.
- `Cli`: the script's `get_scores`, the running x offset of the plot, the empty-result
  guard and the argument handling.

Each `for` loop of the source is a method with a loop: `SearchSeries`, `GetSeasonNumbers`,
`GetEpisodeRatings`, `ScoreSeasons` and `SeasonPositions`. Each such method is proved
equal to a function of its inputs, and the properties are then proved about those
functions. List comprehensions, such as the timestamp filter of the rate limiter, are
recursive functions (`Prune`). `Burst` and `BurstThenWait` are not loops of the source:
they are call sequences run against the rate limiter to show its behaviour over many calls.

Four behaviours of the code are easy to misread; the model follows the code:

- A season link counts when its text is all digits. Its text need not equal the number in
  its href, and season 0 is accepted.
- The pause follows every successful season fetch, the last one included. A fetch that
  raises ends the loop without a pause.
- A timestamp exactly `RATE_LIMIT_WINDOW_SECONDS` old is dropped: the code keeps `t > now - 60`.
- The web endpoint passes on the message of every `ValueError`, not only the not-found one.
  Some transport exceptions of `requests` are `ValueError` subclasses, so `Raised` lets any
  fetch raise either class.

## Model

| member | source | states |
|---|---|---|
| Patterns.IsTitleHref | api/index.py:40 | definition of `re.compile(r"/title/(tt\d+)")` matching an href: somewhere in it `/title/tt` is followed by a digit (also tv_series_ratings.py:34) |
| Patterns.SeriesId | api/index.py:40-43 | the identifier is `tt` and one or more digits. It starts at the leftmost `tt<digit>` of the href and takes every digit that follows (also tv_series_ratings.py:34-37) |
| Patterns.HasSeasonParam | api/index.py:58-59 | definition of `re.search(r"season=(\d+)", href)` succeeding: somewhere in the href `season=` is followed by a digit; `FirstSeason` and `SeasonDigits` locate the leftmost match and its digits (also tv_series_ratings.py:51-52) |
| Patterns.SeasonParam | api/index.py:63 | definition of `int(m.group(1))`: the value of the digits `SeasonDigits` captures; `SeasonOf` states the number a link yields through it (also tv_series_ratings.py:57) |
| Patterns.SeasonDigits | api/index.py:58-59 | the captured digits are all the digits after the leftmost `season=<digit>` of the href (also tv_series_ratings.py:51-52) |
| Patterns.IsSpecialHeader | api/index.py:81 | definition of `re.search(r"\.E0\b", header)` succeeding: `.E0` occurs followed by the end of the header or a non-word character (also tv_series_ratings.py:74) |
| Patterns.SpecialHeaderExamples | api/index.py:79-82 | `S1.E0` and `S3.E0 - Pilot` are specials; `S1.E01` and `S1.E10` are not, because of the word boundary after `0` (also tv_series_ratings.py:72-75) |
| Text.Strip | api/index.py:149 | the result is the input with its leading and trailing whitespace cut off, and neither end of it is whitespace |
| Text.AllDigits | api/index.py:62 | definition of `str.isdigit()` over ASCII: non-empty and made of digits only; `DecimalString` and `SeasonOf` are stated with it (also tv_series_ratings.py:56) |
| Text.DigitsValue | api/index.py:63 | definition of `int()` on a string of decimal digits, leading zeros allowed; `DecimalString` reads back through it (also tv_series_ratings.py:57) |
| Text.DecimalString | api/index.py:162 | `str(n)` has only digits, starts with `0` only when it is exactly `"0"`, and reads back as `n` |
| Text.Split | api/index.py:149 | `str.split(",")`: at least one piece, no piece contains the separator, and the first piece is the text before the first separator |
| Text.Join | tv_series_ratings.py:135 | definition of `" ".join(parts)`: the parts in order with one separator between neighbours; `JoinSplit` and `SplitJoin` relate it to `Split` |
| Text.JoinSplit | tv_series_ratings.py:135 | joining the pieces of a split gives back the string |
| Text.SplitJoin | tv_series_ratings.py:135 | splitting a join gives back the parts when no part contains the separator |
| Sequences.Sorted | api/index.py:64 | `sorted(set)` is strictly ascending and holds exactly the elements of the set |
| Sequences.AscendingUnique | api/index.py:64 | two strictly ascending lists with the same elements are equal |
| Scraper.SearchResult | api/index.py:30-45 | definition of what `search_series` returns or raises: the fetch's exception, the not-found `ValueError`, or the first series link's identity; `SearchSeries` is proved equal to it and `SearchOutcome` and `FirstSeries` carry its properties (also tv_series_ratings.py:25-39) |
| Scraper.FirstSeries | api/index.py:40-44 | there is no result iff no link has a `/title/tt<digits>` href and non-empty text. Otherwise the result is the identifier and text of the first such link, and the identifier is `tt` and digits (also tv_series_ratings.py:34-38) |
| Scraper.SearchSeries | api/index.py:30-45 | the scanning loop with early return gives the first series link's identity. It raises the fetch's exception when the page did not arrive, and `ValueError("No TV series found for '<title>'")` when no link matches (also tv_series_ratings.py:25-39) |
| Scraper.SearchOutcome | api/index.py:40-45 | once the search page has arrived, resolution fails iff no link is a series link, and then only with the not-found `ValueError` |
| Scraper.SeasonNumbers | api/index.py:48-64 | definition of what `get_season_numbers` returns or raises: the fetch's exception or `sorted` of the season-link numbers; `GetSeasonNumbers` is proved equal to it and `SeasonNumbersCharacterized`, `SeasonSet` and `Sorted` carry its properties (also tv_series_ratings.py:42-58) |
| Scraper.SeasonOf | api/index.py:58-63 | a link yields a season number iff its href has a `season=<digits>` match and its text is all digits; the number is `int` of the captured digits, so never negative (also tv_series_ratings.py:51-56) |
| Scraper.SeasonSet | api/index.py:57-63 | a number is in the set iff some link yields it, whatever the order of the links (also tv_series_ratings.py:50-57) |
| Scraper.GetSeasonNumbers | api/index.py:48-64 | the set-filling loop returns the sorted set of season-link numbers, which is strictly ascending; a failed fetch raises its exception (also tv_series_ratings.py:42-58) |
| Scraper.SeasonNumbersCharacterized | api/index.py:57-64 | the season list is the only strictly ascending list holding exactly the season-link numbers; no season links give `[]` |
| Scraper.EpisodeRatings | api/index.py:67-91 | definition of what `get_episode_ratings` returns or raises: the fetch's exception or the kept ratings of the season page; `GetEpisodeRatings` is proved equal to it and `KeptRatings`, `KeptAreParsedInOrder` and `SkippedEntry` carry its properties (also tv_series_ratings.py:61-84) |
| Scraper.EpisodeRating | api/index.py:79-90 | an article contributes a rating iff its header is not a `.E0` special, it has a rating that parses, and the value lies in (0, 10]; the rating is then the parsed value (also tv_series_ratings.py:72-83) |
| Scraper.KeptRatings | api/index.py:77-91 | every kept rating lies in (0, 10] |
| Scraper.KeptAreParsedInOrder | api/index.py:77-91 | the kept ratings are a subsequence, in document order, of the ratings that parse |
| Scraper.SkippedEntry | api/index.py:80-90 | an entry that contributes nothing (special, no span, unparseable, out of range) can be removed without changing the result |
| Scraper.RatingBoundaries | api/index.py:81-88 | 10.0 is kept and 0.0 and 10.5 are dropped; a special with a valid rating is dropped; a missing header does not skip; a missing rating contributes nothing |
| Scraper.GetEpisodeRatings | api/index.py:67-91 | the loop with `continue` returns exactly the kept ratings of the season page in order; a failed fetch raises its exception (also tv_series_ratings.py:61-84) |
| Scraper.Long | api/index.py:103-104 | definition of the `len(ratings) > 1` filter: the fetched lists with more than one rating, in season order; its properties are `LongMembers`, `LongSnoc` and `LongIsSubsequence` (also tv_series_ratings.py:100-101) |
| Scraper.LongMembers | api/index.py:103-104 | a list is kept iff it is a fetched list of more than one rating |
| Scraper.LongSnoc | api/index.py:101-104 | fetching one more season extends the kept lists by that season's list exactly when it has more than one rating, and leaves the earlier ones alone |
| Scraper.LongIsSubsequence | api/index.py:101-104 | the kept lists keep the season order |
| Scraper.FetchAll | api/index.py:100-105 | definition of the season loop's fetched lists: each season's ratings in order, or the exception of the first fetch that raises; `SuccessfulLoop`, `FailedLoop`, `FailureIsFinal` and `FetchedInRange` carry its properties (also tv_series_ratings.py:97-102) |
| Scraper.LoopTrace | api/index.py:100-105 | definition of the season loop's requests and pauses: each season's request followed by a pause when its fetch succeeded, nothing after the first raise; `SuccessfulLoop` and `FailureIsFinal` carry its properties and `ScoreSeasons` is proved to produce it (also tv_series_ratings.py:97-102) |
| Scraper.SuccessfulLoop | api/index.py:101-105 | when no fetch raises, every season is requested in order with exactly one pause after each, kept or not. The fetched lists are the seasons' ratings, one per season, in order |
| Scraper.FailedLoop | api/index.py:101-102 | when the loop fails, it fails with the exception of the first season whose fetch raised, all earlier fetches having succeeded |
| Scraper.FailureIsFinal | api/index.py:101-102 | once a season's fetch has raised, no later season is requested and the outcome is fixed |
| Scraper.FetchedInRange | api/index.py:87-88 | every fetched rating of every season lies in (0, 10] |
| Scraper.ScoreSeasons | api/index.py:100-105 | the season loop's kept lists and its requests and pauses are those of the fetch-all specification; the first exception stops it (also tv_series_ratings.py:97-102) |
| Scraper.Aggregate | api/index.py:96-106 | definition of the `try` body of `get_scores` as a value: resolution, then enumeration, then the season fetches, the first exception ending it; on success the kept lists and the identity (also tv_series_ratings.py:92-103) |
| Scraper.AggregateTrace | api/index.py:96-105 | definition of the outbound requests and pauses of `get_scores` in order: the search, the episode page once the search succeeded, then the season loop's trace once the enumeration succeeded |
| Scraper.GetScores | api/index.py:96-112 | `get_scores` without its `except` clauses: resolution, then enumeration, then the season loop, with the exact outbound trace (also tv_series_ratings.py:92-103) |
| Scraper.AggregateSuccess | api/index.py:97-111 | on success the identity is the resolved one and the seasons are strictly ascending. The lists are the seasons' ratings in that order, and the kept lists are those of length > 1, in order |
| Scraper.AggregateBounds | api/index.py:100-104 | on success every kept list has more than one rating and every rating lies in (0, 10] |
| Scraper.AggregatePacing | api/index.py:101-105 | on success the trace is the search, the episode page, then each season's request followed by one pause; the number of pauses equals the number of seasons |
| Api.ToPayload | api/index.py:107-118 | success iff no exception. A success carries the title, the id and the kept lists. A `ValueError` gives its message, and any other exception the generic message |
| Api.PayloadKeys | api/index.py:107-118 | both payloads carry `success`; `error` is present iff the payload is a failure, and `seasons` iff it is a success |
| Api.ErrorDetailHidden | api/index.py:116-118 | the payload of an exception other than `ValueError` does not depend on its details |
| Api.NotFoundReachesClient | api/index.py:113-115 | a search with no series link reaches the client as `No TV series found for '<title>'` |
| Api.GetScores | api/index.py:94-118 | the web `get_scores` never raises: its payload is the error-mapped aggregate, and its requests and pauses are those of the pipeline |
| Api.Prune | api/index.py:134 | every kept timestamp is after the window start, and a timestamp is kept iff it was stored and is after the window start |
| Api.PruneIsSubsequence | api/index.py:134 | pruning keeps the stored order |
| Api.PruneSnoc | api/index.py:134 | pruning a list with one more timestamp prunes the list and keeps that timestamp iff it is after the window start; with `Prune([]) == []` this fixes the pruned list exactly, repeated timestamps included |
| Api.Recent | api/index.py:131-134 | definition of the client's timestamps inside the window: those after `now - 60`, in order; `Prune`, `PruneSnoc`, `RecordedBounds` and `WindowExpiry` carry its properties |
| Api.Limits | api/index.py:136-137 | definition of the reject rule: the pruned list already holds 10 or more timestamps |
| Api.Recorded | api/index.py:134-139 | definition of the client's new list: the pruned list, with `now` appended when the call is admitted |
| Api.RecordedBounds | api/index.py:134-140 | after a call every stored timestamp of the client is after `now - 60`, and the list never exceeds 10. A rejected call leaves exactly the pruned list, a subsequence of the old one; an admitted call leaves the pruned list with `now` appended |
| Api.WindowExpiry | api/index.py:131-139 | when all of a client's timestamps have left the window, the call is admitted and the list restarts as `[now]` |
| Api.RateLimiter.constructor | api/index.py:18 | the table starts empty |
| Api.RateLimiter.IsRateLimited | api/index.py:128-140 | the result is "pruned list holds 10 or more". Only the caller's entry changes, to the pruned list (also on rejection) or to the pruned list with `now` appended. The length bound of every entry is preserved |
| Api.Burst | api/index.py:128-140 | a fresh client at a fixed time: calls 1 to 10 are admitted and every later call is rejected |
| Api.BurstThenWait | api/index.py:128-140 | ten admitted calls, a rejected eleventh, and an admitted call one full window later |
| Api.FirstHop | api/index.py:149 | the first hop contains no comma and is the text before the first comma with surrounding whitespace removed |
| Api.ClientIp | api/index.py:146-152 | the first forwarded hop if non-empty, else `X-Real-IP` if non-empty, else the peer address; a missing header reads as empty |
| Api.ClientIpExamples | api/index.py:148-152 | the peer without headers; an empty `X-Real-IP` falls through; `7,8` gives `7`; a blank first hop falls through to `X-Real-IP` |
| Api.MaxAgeDigits | api/index.py:125 | thirty days is 2592000 seconds |
| Api.CacheHeaderText | api/index.py:162 | `Retry-After` is `60`, and the success header is `max-age=0, s-maxage=2592000, stale-while-revalidate=2592000` (also api/index.py:182) |
| Api.CacheHeaderFor | api/index.py:181-184 | the success header iff the body reports success, `no-store` otherwise |
| Api.Decide | api/index.py:154-192 | a rejected call gets 429 with `Retry-After: 60` and the rate-limit message. Otherwise the status is 200 and the cache header follows the body. An empty title gets the missing-title error; any other title gets the mapped `get_scores` payload |
| Api.CachedOnlyOnSuccess | api/index.py:174-184 | the response is cacheable iff the call was admitted, had a title and the lookup succeeded; a rejected or untitled call makes no outbound request |
| Api.DoGet | api/index.py:154-192 | the limiter is consulted first, for the resolved client address. The response and the outbound requests are the decision for that verdict and title, and only that client's entry changes |
| Cli.GetScores | tv_series_ratings.py:87-103 | returns the kept lists and the display title; every exception propagates unchanged; same requests and pauses as the pipeline |
| Cli.Positions | tv_series_ratings.py:116-122 | definition of the `order` lists: season k gets the positions following those of the seasons before it, one per rating; `PositionsOfSeason`, `PositionsCover` and `PositionsOrdered` carry its properties and `SeasonPositions` is proved equal to it |
| Cli.SeasonPositions | tv_series_ratings.py:113-122 | the loop with the running counter `ct` computes, season by season, the positions of the specification `Positions` |
| Cli.PositionsOfSeason | tv_series_ratings.py:116-122 | there is one position list per season; season k is placed at `ct .. ct + len - 1`, where `ct` is the summed length of the earlier seasons |
| Cli.PositionsCover | tv_series_ratings.py:116-122 | all positions together are exactly `0 .. N - 1` in order, N being the number of ratings: no gap and no overlap |
| Cli.PositionsOrdered | tv_series_ratings.py:116-122 | a season's positions all come before those of every later season |
| Cli.MakeSeriesPlot | tv_series_ratings.py:106-128 | exceptions propagate. An empty result gives the no-ratings message and no figure. Otherwise there is one series per kept season with its ratings at its positions, under the display title, with y limits 0 and 10 |
| Cli.RunScript | tv_series_ratings.py:131-135 | with fewer than two arguments, the usage line and exit status 1 with no request. Otherwise the title is the arguments after the first, joined with single spaces, and it is plotted |
| Cli.TitleFromArguments | tv_series_ratings.py:135 | splitting the title on spaces gives back the arguments when none contains a space |

## Left out

- Network: `requests.get`, `raise_for_status`, request headers and timeouts. A fetch is a total function of `Site` that returns the page's records or raises.
- HTML parsing: BeautifulSoup's `find_all`, `find` and `get_text`. The input is the records extracted from a page, with link texts and rating texts already stripped.
- Unicode: `\d`, `\w`, `str.isdigit`, `str.strip` and `int()` are modelled over ASCII only. Python's limit on the length of digit strings passed to `int()` is not modelled.
- Float parsing: `float()` is the opaque function `Site.parseFloat`. NaN, which fails both comparisons, counts as an unparseable value, and timestamps and ratings are exact reals.
- Time: `time.sleep(0.3)` is a `Pause` event with no duration. `time.time()` is the `now` parameter; the clock is not assumed monotonic.
- Concurrency: `_request_counts` is shared with no lock in the code, and the model is sequential.
- HTTP plumbing: `send_response`, `send_header`, `end_headers`, `wfile`, JSON encoding, `Content-Type`, the CORS header and `ALLOWED_ORIGIN` from the environment. `do_OPTIONS` is not modelled either.
- Query parsing and header lookup: `urlparse`, `parse_qs` and `self.headers.get`. The request arrives with the first `title` value and the values of the `X-Forwarded-For` and `X-Real-IP` headers already extracted (a missing header as `""`); the case-insensitive matching of header names is not modelled.
- Output: the `Found: <title> (<id>)` and `Seasons: <list>` lines that the script's `get_scores` prints (tv_series_ratings.py:93, 95) are dropped, since they do not affect any result. The usage line and the no-ratings line are kept as results (`Cli.ScriptOutcome.Usage`, `Cli.PlotOutcome.NoRatings`) instead of being printed.
- Plotting: matplotlib and numpy, including the `polyfit`/`poly1d` trend line, `figure`, `show` and the axis labels. Only the plotted points, the title and the y limits are modelled.
- Cli.RunScript: requires at least one argument, as `sys.argv[0]` always exists when the script is run; the `sys.exit(1)` is the returned exit status.
