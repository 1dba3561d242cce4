/** The serverless web endpoint: `get_scores` with its two-tier error mapping, the
    per-client sliding-window rate limiter, the client-address fallback chain and the
    decisions `do_GET` makes before it writes a response. */
module Api {
  import opened Outcomes
  import opened Text
  import opened Sequences
  import Scraper

  const RATE_LIMIT_REQUESTS: nat := 10
  const RATE_LIMIT_WINDOW_SECONDS: nat := 60
  const CACHE_MAX_AGE_SECONDS: nat := 30 * 24 * 60 * 60

  const GENERIC_ERROR := "An error occurred while fetching data"
  const MISSING_TITLE := "Missing 'title' parameter"
  const RATE_LIMITED := "Rate limit exceeded. Please try again later."

  // ---------------------------------------------------------------------------
  // get_scores: the JSON payload
  // ---------------------------------------------------------------------------

  /** The JSON object `get_scores` returns: `{"success": true, "title", "imdb_id",
      "seasons"}` or `{"success": false, "error"}`. */
  datatype Payload =
    | Found(title: string, imdbId: string, seasons: seq<seq<real>>)
    | Failed(error: string)
  {
    predicate Success() {
      Found?
    }

    /** The keys of the JSON object. */
    function Keys(): set<string> {
      match this
      case Found(_, _, _) => {"success", "title", "imdb_id", "seasons"}
      case Failed(_) => {"success", "error"}
    }
  }

  /** The `except` clauses of `get_scores`: a `ValueError` shows its message, any other
      exception only the generic message. */
  function ToPayload(r: Result<Scraper.Scores>): (p: Payload)
    ensures p.Success() <==> r.Ok?
    ensures r.Ok? ==> p == Found(r.value.identity.displayTitle, r.value.identity.imdbId, r.value.seasons)
    ensures r.Err? && r.error.ValueError? ==> p == Failed(r.error.message)
    ensures r.Err? && r.error.OtherError? ==> p == Failed(GENERIC_ERROR)
  {
    match r
    case Ok(scores) => Found(scores.identity.displayTitle, scores.identity.imdbId, scores.seasons)
    case Err(ValueError(message)) => Failed(message)
    case Err(OtherError(_)) => Failed(GENERIC_ERROR)
  }

  /** A success payload never carries `error` and a failure payload never carries
      `seasons`; both carry `success`. */
  lemma PayloadKeys(p: Payload)
    ensures "success" in p.Keys()
    ensures "error" in p.Keys() <==> !p.Success()
    ensures "seasons" in p.Keys() <==> p.Success()
  {
    if p.Found? {
      assert "error" !in p.Keys();
    } else {
      assert "seasons" !in p.Keys();
    }
  }

  /** The details of an exception other than `ValueError` never reach the client. */
  lemma ErrorDetailHidden(d1: string, d2: string)
    ensures ToPayload(Err(OtherError(d1))) == ToPayload(Err(OtherError(d2))) == Failed(GENERIC_ERROR)
  {
  }

  /** The message of a "not found" search reaches the client unchanged. */
  lemma NotFoundReachesClient(site: Scraper.Site, title: string)
    requires site.findPage(title).Ok?
    requires forall i :: 0 <= i < |site.findPage(title).value| ==> !Scraper.IsSeriesLink(site.findPage(title).value[i])
    ensures ToPayload(Scraper.Aggregate(site, title)) == Failed(Scraper.NotFoundMessage(title))
  {
  }

  /** `get_scores(title)` of the web endpoint: never raises; the payload and the requests
      made, with their pauses. */
  method GetScores(site: Scraper.Site, title: string) returns (p: Payload, trace: seq<Scraper.Event>)
    ensures p == ToPayload(Scraper.Aggregate(site, title))
    ensures trace == Scraper.AggregateTrace(site, title)
  {
    var r;
    r, trace := Scraper.GetScores(site, title);
    p := ToPayload(r);
  }

  // ---------------------------------------------------------------------------
  // _is_rate_limited: a sliding window of timestamps per client
  // ---------------------------------------------------------------------------

  /** `[t for t in ts if t > windowStart]`. */
  function Prune(ts: seq<real>, windowStart: real): (r: seq<real>)
    ensures |r| <= |ts|
    ensures forall k :: 0 <= k < |r| ==> r[k] > windowStart
    ensures forall t :: t in r <==> t in ts && t > windowStart
  {
    if ts == [] then []
    else (if ts[0] > windowStart then [ts[0]] else []) + Prune(ts[1..], windowStart)
  }

  /** Pruning keeps the surviving timestamps in their original order. */
  lemma {:induction false} PruneIsSubsequence(ts: seq<real>, windowStart: real)
    ensures IsSubsequence(Prune(ts, windowStart), ts)
  {
    if ts != [] {
      PruneIsSubsequence(ts[1..], windowStart);
      var rest := Prune(ts[1..], windowStart);
      assert ts == [ts[0]] + ts[1..];
      if ts[0] > windowStart {
        assert ([ts[0]] + rest)[1..] == rest;
      } else {
        assert Prune(ts, windowStart) == rest;
        SubsequencePrepend(rest, ts[1..], ts[0]);
      }
    }
  }

  /** Pruning a list with one more timestamp prunes the list and then keeps that timestamp
      exactly when it is after the window start. Together with `Prune([]) == []` this
      fixes the pruned list completely, repeated timestamps included: a list of ten equal
      timestamps inside the window keeps all ten. */
  lemma {:induction false} PruneSnoc(ts: seq<real>, t: real, windowStart: real)
    ensures Prune(ts + [t], windowStart) == Prune(ts, windowStart) + (if t > windowStart then [t] else [])
  {
    var last := if t > windowStart then [t] else [];
    if ts == [] {
      assert Prune([t], windowStart) == last + Prune([], windowStart) by {
        assert [t][1..] == [];
      }
      assert ts + [t] == [t];
    } else {
      var head := if ts[0] > windowStart then [ts[0]] else [];
      PruneSnoc(ts[1..], t, windowStart);
      assert Prune(ts + [t], windowStart) == head + Prune(ts[1..] + [t], windowStart) by {
        assert (ts + [t])[0] == ts[0];
        assert (ts + [t])[1..] == ts[1..] + [t];
      }
      assert head + (Prune(ts[1..], windowStart) + last) == (head + Prune(ts[1..], windowStart)) + last;
    }
  }

  /** Pruning keeps a list whose timestamps are all inside the window. */
  lemma {:induction false} PruneAllRecent(ts: seq<real>, windowStart: real)
    requires forall k :: 0 <= k < |ts| ==> ts[k] > windowStart
    ensures Prune(ts, windowStart) == ts
  {
    if ts != [] {
      PruneAllRecent(ts[1..], windowStart);
      assert ts == [ts[0]] + ts[1..];
    }
  }

  /** Pruning empties a list whose timestamps have all left the window. */
  lemma {:induction false} PruneAllExpired(ts: seq<real>, windowStart: real)
    requires forall k :: 0 <= k < |ts| ==> ts[k] <= windowStart
    ensures Prune(ts, windowStart) == []
  {
    if ts != [] {
      PruneAllExpired(ts[1..], windowStart);
    }
  }

  /** A client's timestamps still inside the window that ends at `now`. */
  function Recent(ts: seq<real>, now: real): seq<real> {
    Prune(ts, now - RATE_LIMIT_WINDOW_SECONDS as real)
  }

  /** The call at `now` is rejected: the window already holds the maximum. */
  predicate Limits(ts: seq<real>, now: real) {
    |Recent(ts, now)| >= RATE_LIMIT_REQUESTS
  }

  /** The client's list after the call at `now`: pruned, and with `now` appended when
      the call is admitted. */
  function Recorded(ts: seq<real>, now: real): seq<real> {
    if Limits(ts, now) then Recent(ts, now) else Recent(ts, now) + [now]
  }

  /** The window invariant: after a call every stored timestamp lies inside the window
      ending at `now`, the list never grows past the limit, a rejected call still prunes
      but records nothing, and an admitted call appends exactly `now` to the pruned list. */
  lemma RecordedBounds(ts: seq<real>, now: real)
    ensures forall k :: 0 <= k < |Recorded(ts, now)| ==>
      Recorded(ts, now)[k] > now - RATE_LIMIT_WINDOW_SECONDS as real
    ensures |ts| <= RATE_LIMIT_REQUESTS ==> |Recorded(ts, now)| <= RATE_LIMIT_REQUESTS
    ensures Limits(ts, now) ==> Recorded(ts, now) == Recent(ts, now)
    ensures Limits(ts, now) ==> IsSubsequence(Recorded(ts, now), ts)
    ensures !Limits(ts, now) ==> Recorded(ts, now) == Recent(ts, now) + [now]
    ensures !Limits(ts, now) ==>
      |Recorded(ts, now)| == |Recent(ts, now)| + 1 && Recorded(ts, now)[|Recorded(ts, now)| - 1] == now
  {
    PruneIsSubsequence(ts, now - RATE_LIMIT_WINDOW_SECONDS as real);
  }

  /** Once every timestamp of a client has left the window, its next call is admitted and
      its list restarts with that call. */
  lemma WindowExpiry(ts: seq<real>, now: real)
    requires forall k :: 0 <= k < |ts| ==> ts[k] <= now - RATE_LIMIT_WINDOW_SECONDS as real
    ensures !Limits(ts, now)
    ensures Recorded(ts, now) == [now]
  {
    PruneAllExpired(ts, now - RATE_LIMIT_WINDOW_SECONDS as real);
  }

  /** The `_request_counts` table: per client address, the times of its admitted calls.
      A `defaultdict(list)`, so an address never seen reads as the empty list. */
  class RateLimiter {
    var requestCounts: map<string, seq<real>>

    /** No client has more than the limit recorded. */
    ghost predicate Valid()
      reads this
    {
      forall ip :: ip in requestCounts ==> |requestCounts[ip]| <= RATE_LIMIT_REQUESTS
    }

    /** `_request_counts[ip]`. */
    function Entry(ip: string): seq<real>
      reads this
    {
      if ip in requestCounts then requestCounts[ip] else []
    }

    constructor()
      ensures requestCounts == map[]
      ensures Valid()
    {
      requestCounts := map[];
    }

    /** `_is_rate_limited(client_ip)` at time `now`: prune the client's list (also on a
        rejected call), then reject if the limit is reached, otherwise record `now`.
        Only the calling client's entry changes. */
    method IsRateLimited(clientIp: string, now: real) returns (limited: bool)
      modifies this
      ensures limited == Limits(old(Entry(clientIp)), now)
      ensures requestCounts == old(requestCounts)[clientIp := Recorded(old(Entry(clientIp)), now)]
      ensures old(Valid()) ==> Valid()
    {
      var windowStart := now - RATE_LIMIT_WINDOW_SECONDS as real;
      ghost var before := Entry(clientIp);
      ghost var wasValid := Valid();
      requestCounts := requestCounts[clientIp := Prune(Entry(clientIp), windowStart)];
      if |requestCounts[clientIp]| >= RATE_LIMIT_REQUESTS {
        return true;
      }
      requestCounts := requestCounts[clientIp := requestCounts[clientIp] + [now]];
      limited := false;
      if wasValid {
        RecordedBounds(before, now);
      }
    }
  }

  /** A burst from one address at a fixed time against a fresh table: the first ten calls
      are admitted and every later one is rejected. */
  method Burst(clientIp: string, now: real, calls: nat) returns (decisions: seq<bool>)
    ensures |decisions| == calls
    ensures forall k :: 0 <= k < calls ==> decisions[k] == (k >= RATE_LIMIT_REQUESTS)
  {
    var limiter := new RateLimiter();
    decisions := [];
    for i := 0 to calls
      invariant |decisions| == i
      invariant forall k :: 0 <= k < i ==> decisions[k] == (k >= RATE_LIMIT_REQUESTS)
      invariant limiter.Entry(clientIp) == seq(if i < RATE_LIMIT_REQUESTS then i else RATE_LIMIT_REQUESTS, _ => now)
    {
      ghost var before := limiter.Entry(clientIp);
      PruneAllRecent(before, now - RATE_LIMIT_WINDOW_SECONDS as real);
      var limited := limiter.IsRateLimited(clientIp, now);
      decisions := decisions + [limited];
    }
  }

  /** After a full window the same address is admitted again. */
  method BurstThenWait(clientIp: string, now: real) returns (decisions: seq<bool>)
    ensures decisions == [false, false, false, false, false, false, false, false, false, false, true, false]
  {
    var limiter := new RateLimiter();
    decisions := [];
    for i := 0 to 11
      invariant |decisions| == i
      invariant forall k :: 0 <= k < i ==> decisions[k] == (k >= RATE_LIMIT_REQUESTS)
      invariant limiter.Entry(clientIp) == seq(if i < RATE_LIMIT_REQUESTS then i else RATE_LIMIT_REQUESTS, _ => now)
    {
      ghost var before := limiter.Entry(clientIp);
      PruneAllRecent(before, now - RATE_LIMIT_WINDOW_SECONDS as real);
      var limited := limiter.IsRateLimited(clientIp, now);
      decisions := decisions + [limited];
    }
    WindowExpiry(limiter.Entry(clientIp), now + RATE_LIMIT_WINDOW_SECONDS as real);
    var later := limiter.IsRateLimited(clientIp, now + RATE_LIMIT_WINDOW_SECONDS as real);
    decisions := decisions + [later];
  }

  // ---------------------------------------------------------------------------
  // _get_client_ip
  // ---------------------------------------------------------------------------

  /** The first hop of an `X-Forwarded-For` value: the text before the first comma,
      without surrounding whitespace. */
  function FirstHop(forwardedFor: string): (hop: string)
    ensures ',' !in hop
    ensures hop == Strip(forwardedFor[..IndexOf(forwardedFor, ',')])
  {
    var first := Split(forwardedFor, ',')[0];
    var hop := Strip(first);
    assert forall k :: 0 <= k < |hop| ==> hop[k] in first by {
      var i, j :| 0 <= i <= j <= |first| && hop == first[i..j];
      forall k | 0 <= k < |hop| ensures hop[k] in first {
        assert hop[k] == first[i + k];
      }
    }
    hop
  }

  /** `_get_client_ip`: the first forwarded hop, else `X-Real-IP`, else the peer address;
      an empty value (a missing header reads as `""`) falls through to the next. */
  function ClientIp(forwardedFor: Option<string>, realIp: Option<string>, peer: string): (ip: string)
    ensures FirstHop(forwardedFor.GetOr("")) != "" ==> ip == FirstHop(forwardedFor.GetOr(""))
    ensures FirstHop(forwardedFor.GetOr("")) == "" && realIp.GetOr("") != "" ==> ip == realIp.value
    ensures FirstHop(forwardedFor.GetOr("")) == "" && realIp.GetOr("") == "" ==> ip == peer
  {
    var hop := FirstHop(forwardedFor.GetOr(""));
    if hop != "" then hop
    else if realIp.GetOr("") != "" then realIp.GetOr("")
    else peer
  }

  /** Without forwarding headers the peer address is used; a proxied request is keyed by
      the forwarded address, never by the proxy's. */
  lemma ClientIpExamples()
    ensures ClientIp(None, None, "10.0.0.2") == "10.0.0.2"
    ensures ClientIp(None, Some(""), "10.0.0.2") == "10.0.0.2"
    ensures ClientIp(None, Some("198.51.100.4"), "10.0.0.2") == "198.51.100.4"
    ensures ClientIp(Some("7,8"), Some("198.51.100.4"), "10.0.0.2") == "7"
    ensures ClientIp(Some(" ,8"), Some("198.51.100.4"), "10.0.0.2") == "198.51.100.4"
  {
    assert IndexOf("7,8", ',') == 1;
    assert Split("7,8", ',')[0] == "7";
    assert Strip("7") == "7";
    assert IndexOf(" ,8", ',') == 1;
    assert Split(" ,8", ',')[0] == " ";
    assert Strip(" ") == "";
  }

  // ---------------------------------------------------------------------------
  // do_GET: the response decision
  // ---------------------------------------------------------------------------

  /** What `do_GET` reads from the request: the two forwarding headers, the peer address
      and the first `title` query value, each absent when not sent. */
  datatype Request = Request(forwardedFor: Option<string>, realIp: Option<string>, peer: string, title: Option<string>)

  /** The status line, the headers that vary between responses, and the JSON body.
      `Cache-Control` and `CDN-Cache-Control` always carry the same value. */
  datatype Response = Response(status: nat, retryAfter: Option<string>, cacheControl: Option<string>, body: Payload)

  function SuccessCacheHeader(): string {
    "max-age=0, s-maxage=" + DecimalString(CACHE_MAX_AGE_SECONDS)
    + ", stale-while-revalidate=" + DecimalString(CACHE_MAX_AGE_SECONDS)
  }

  lemma {:induction false} MaxAgeDigits()
    ensures CACHE_MAX_AGE_SECONDS == 2592000
    ensures DecimalString(CACHE_MAX_AGE_SECONDS) == "2592000"
  {
    assert DecimalString(2) == "2";
    assert DecimalString(25) == "25";
    assert DecimalString(259) == "259";
    assert DecimalString(2592) == "2592";
    assert DecimalString(25920) == "25920";
    assert DecimalString(259200) == "259200";
  }

  /** `str(RATE_LIMIT_WINDOW_SECONDS)`, the `Retry-After` value, and the header that caches
      for thirty days at the edge. */
  lemma CacheHeaderText()
    ensures DecimalString(RATE_LIMIT_WINDOW_SECONDS) == "60"
    ensures SuccessCacheHeader()
      == "max-age=0, s-maxage=" + "2592000" + ", stale-while-revalidate=" + "2592000"
  {
    assert DecimalString(6) == "6";
    MaxAgeDigits();
  }

  /** The cache header for a body: cached at the edge for thirty days exactly when it
      reports success. */
  function CacheHeaderFor(body: Payload): (h: string)
    ensures body.Success() ==> h == SuccessCacheHeader()
    ensures !body.Success() ==> h == "no-store"
  {
    if body.Success() then SuccessCacheHeader() else "no-store"
  }

  /** The decision of `do_GET` once the limiter has answered: a rejected call gets 429
      with `Retry-After: 60` and no lookup; a missing or empty title gets the missing-title
      error without a lookup; anything else gets the payload of `get_scores`, cached when
      it reports success. */
  function Decide(limited: bool, title: string, site: Scraper.Site): (resp: Response)
    ensures limited ==> resp == Response(429, Some(DecimalString(RATE_LIMIT_WINDOW_SECONDS)), None, Failed(RATE_LIMITED))
    ensures !limited ==> resp.status == 200 && resp.retryAfter.None? && resp.cacheControl == Some(CacheHeaderFor(resp.body))
    ensures !limited && title == "" ==> resp.body == Failed(MISSING_TITLE)
    ensures !limited && title != "" ==> resp.body == ToPayload(Scraper.Aggregate(site, title))
  {
    if limited then Response(429, Some(DecimalString(RATE_LIMIT_WINDOW_SECONDS)), None, Failed(RATE_LIMITED))
    else
      var body := if title == "" then Failed(MISSING_TITLE) else ToPayload(Scraper.Aggregate(site, title));
      Response(200, None, Some(CacheHeaderFor(body)), body)
  }

  /** The outbound requests of `do_GET`: none unless the call is admitted with a title. */
  function DecideTrace(limited: bool, title: string, site: Scraper.Site): seq<Scraper.Event> {
    if limited || title == "" then [] else Scraper.AggregateTrace(site, title)
  }

  /** Only a successful lookup is ever cached: every rejected, untitled or failed request
      is served with `no-store`, and a rejected or untitled one contacts nobody. */
  lemma CachedOnlyOnSuccess(limited: bool, title: string, site: Scraper.Site)
    ensures var resp := Decide(limited, title, site);
      resp.cacheControl == Some(SuccessCacheHeader())
      <==> !limited && title != "" && Scraper.Aggregate(site, title).Ok?
    ensures limited || title == "" ==> DecideTrace(limited, title, site) == []
  {
    var resp := Decide(limited, title, site);
    if resp.cacheControl == Some(SuccessCacheHeader()) {
      assert SuccessCacheHeader() != "no-store" by {
        assert SuccessCacheHeader()[0] == 'm';
      }
    }
  }

  /** `do_GET`: resolve the client address, consult the limiter first, then the title,
      then look the series up. */
  method DoGet(limiter: RateLimiter, request: Request, site: Scraper.Site, now: real)
    returns (resp: Response, trace: seq<Scraper.Event>)
    modifies limiter
    ensures var ip := ClientIp(request.forwardedFor, request.realIp, request.peer);
      var limited := Limits(old(limiter.Entry(ip)), now);
      && limiter.requestCounts == old(limiter.requestCounts)[ip := Recorded(old(limiter.Entry(ip)), now)]
      && resp == Decide(limited, request.title.GetOr(""), site)
      && trace == DecideTrace(limited, request.title.GetOr(""), site)
    ensures old(limiter.Valid()) ==> limiter.Valid()
  {
    var clientIp := ClientIp(request.forwardedFor, request.realIp, request.peer);
    var limited := limiter.IsRateLimited(clientIp, now);
    if limited {
      return Response(429, Some(DecimalString(RATE_LIMIT_WINDOW_SECONDS)), None, Failed(RATE_LIMITED)), [];
    }
    var title := request.title.GetOr("");
    var body;
    if title == "" {
      body := Failed(MISSING_TITLE);
      trace := [];
    } else {
      body, trace := GetScores(site, title);
    }
    var cacheHeader := if body.Success() then SuccessCacheHeader() else "no-store";
    resp := Response(200, None, Some(cacheHeader), body);
  }
}
