/** The command-line script: `get_scores` without error handling, the episode positions
    of the ratings plot, the empty-result guard and the argument handling. */
module Cli {
  import opened Outcomes
  import opened Text
  import opened Sequences
  import Scraper

  /** `get_scores(title)` of the script: the kept season lists and the display title; any
      exception propagates unchanged, whatever its class. */
  method GetScores(site: Scraper.Site, title: string)
    returns (r: Result<(seq<seq<real>>, string)>, trace: seq<Scraper.Event>)
    ensures var a := Scraper.Aggregate(site, title);
      && (a.Ok? ==> r == Ok((a.value.seasons, a.value.identity.displayTitle)))
      && (a.Err? ==> r == Err(a.error))
    ensures trace == Scraper.AggregateTrace(site, title)
  {
    var scores;
    scores, trace := Scraper.GetScores(site, title);
    if scores.Err? {
      return Err(scores.error), trace;
    }
    r := Ok((scores.value.seasons, scores.value.identity.displayTitle));
  }

  /** The x positions of the seasons' ratings: each season starts where the earlier
      seasons' episodes end, and lists as many positions as it has ratings. */
  function Positions(allScores: seq<seq<real>>): seq<seq<int>>
  {
    if allScores == [] then []
    else
      var pre := allScores[..|allScores| - 1];
      Positions(pre) + [Range(TotalLength(pre), |allScores[|allScores| - 1]|)]
  }

  /** Season k is placed at `ct .. ct + len - 1`, `ct` being the number of episodes of the
      seasons before it. */
  lemma {:induction false} PositionsOfSeason(allScores: seq<seq<real>>)
    ensures |Positions(allScores)| == |allScores|
    ensures forall k :: 0 <= k < |allScores| ==>
      Positions(allScores)[k] == Range(TotalLength(allScores[..k]), |allScores[k]|)
  {
    if allScores != [] {
      var n := |allScores| - 1;
      var pre := allScores[..n];
      PositionsOfSeason(pre);
      forall k | 0 <= k < |allScores|
        ensures Positions(allScores)[k] == Range(TotalLength(allScores[..k]), |allScores[k]|)
      {
        if k < n {
          assert pre[..k] == allScores[..k];
          assert Positions(allScores)[k] == Positions(pre)[k];
        }
      }
    }
  }

  /** All positions together are `0 .. N - 1`, each once and in order, N being the
      number of ratings: no gaps and no overlaps. */
  lemma {:induction false} PositionsCover(allScores: seq<seq<real>>)
    ensures Flatten(Positions(allScores)) == Range(0, TotalLength(allScores))
  {
    if allScores != [] {
      var n := |allScores| - 1;
      var pre := allScores[..n];
      PositionsCover(pre);
      FlattenSnoc(Positions(pre), Range(TotalLength(pre), |allScores[n]|));
      RangeSplit(0, TotalLength(pre), |allScores[n]|);
    }
  }

  /** The position loop of `make_series_plot`: the running counter `ct` starts at 0, each
      season gets `[ct + x for x in range(len)]`, and `ct` then advances by that length. */
  method SeasonPositions(allScores: seq<seq<real>>) returns (xs: seq<seq<int>>)
    ensures xs == Positions(allScores)
  {
    var ct := 0;
    xs := [];
    for i := 0 to |allScores|
      invariant ct == TotalLength(allScores[..i])
      invariant xs == Positions(allScores[..i])
    {
      var order := Range(ct, |allScores[i]|);
      assert allScores[..i + 1][..i] == allScores[..i];
      xs := xs + [order];
      ct := ct + |order|;
    }
    assert allScores[..|allScores|] == allScores;
  }

  /** The positions of one season all come before those of any later season. */
  lemma {:induction false} PositionsOrdered(allScores: seq<seq<real>>, k: nat, l: nat)
    requires k < l <= |allScores|
    ensures TotalLength(allScores[..k]) + |allScores[k]| <= TotalLength(allScores[..l])
    decreases l - k
  {
    assert allScores[..k + 1][..k] == allScores[..k];
    if k + 1 < l {
      PositionsOrdered(allScores, k + 1, l);
    }
  }

  /** One season's scatter: episode positions and ratings. The trend line fitted through
      them is not modelled. */
  datatype Series = Series(x: seq<int>, y: seq<real>)

  /** The figure: its title, one series per season, and the y-axis limits. */
  datatype Plot = Plot(title: string, series: seq<Series>, yLimits: (real, real))

  /** What `make_series_plot` ends in: a message when there is nothing to plot, or the
      figure it shows. */
  datatype PlotOutcome = NoRatings(message: string) | Shown(plot: Plot)

  function NoRatingsMessage(title: string): string {
    "No episode ratings found for '" + title + "'"
  }

  /** The result `make_series_plot(title)` ends in, given what `get_scores` returns:
      exceptions propagate; an empty result stops with a message before any figure;
      otherwise season k of the result is plotted, under the display title, at the
      positions after the earlier seasons' episodes, on a 0-10 rating axis. */
  predicate PlotsScores(site: Scraper.Site, title: string, r: Result<PlotOutcome>) {
    var a := Scraper.Aggregate(site, title);
      && (a.Err? ==> r == Err(a.error))
      && (a.Ok? && a.value.seasons == [] ==> r == Ok(NoRatings(NoRatingsMessage(title))))
      && (a.Ok? && a.value.seasons != [] ==>
            r.Ok? && r.value.Shown?
            && var plot := r.value.plot;
            && plot.title == a.value.identity.displayTitle
            && plot.yLimits == (0.0, 10.0)
            && |plot.series| == |a.value.seasons|
            && (forall k :: 0 <= k < |plot.series| ==>
                  plot.series[k].y == a.value.seasons[k]
                  && plot.series[k].x == Range(TotalLength(a.value.seasons[..k]), |a.value.seasons[k]|)))
  }

  /** `make_series_plot(title)`. */
  method MakeSeriesPlot(site: Scraper.Site, title: string)
    returns (r: Result<PlotOutcome>, trace: seq<Scraper.Event>)
    ensures trace == Scraper.AggregateTrace(site, title)
    ensures PlotsScores(site, title, r)
  {
    var scores;
    scores, trace := GetScores(site, title);
    if scores.Err? {
      return Err(scores.error), trace;
    }
    var (allScores, displayTitle) := scores.value;
    if allScores == [] {
      return Ok(NoRatings(NoRatingsMessage(title))), trace;
    }
    var xs := SeasonPositions(allScores);
    PositionsOfSeason(allScores);
    var series := seq(|allScores|, k requires 0 <= k < |allScores| => Series(xs[k], allScores[k]));
    r := Ok(Shown(Plot(displayTitle, series, (0.0, 10.0))));
  }

  /** How the script ends: the usage message with its exit status, or the plot run for
      the title made of the arguments. */
  datatype ScriptOutcome =
    | Usage(message: string, exitStatus: nat)
    | Ran(title: string, outcome: Result<PlotOutcome>)

  /** The `__main__` block: with no title argument print the usage line and exit with
      status 1; otherwise plot the title formed by the arguments joined with spaces. */
  method RunScript(site: Scraper.Site, argv: seq<string>) returns (r: ScriptOutcome, trace: seq<Scraper.Event>)
    requires |argv| >= 1
    ensures |argv| < 2 ==> r == Usage("Usage: " + argv[0] + " <TV series title>", 1) && trace == []
    ensures |argv| >= 2 ==>
      (r.Ran? && r.title == Join(argv[1..], ' ') && PlotsScores(site, r.title, r.outcome)
      && trace == Scraper.AggregateTrace(site, r.title))
  {
    if |argv| < 2 {
      return Usage("Usage: " + argv[0] + " <TV series title>", 1), [];
    }
    var title := Join(argv[1..], ' ');
    var outcome;
    outcome, trace := MakeSeriesPlot(site, title);
    r := Ran(title, outcome);
  }

  /** The arguments can be read back from the title when none of them contains a space:
      splitting the title on spaces gives exactly the arguments. */
  lemma TitleFromArguments(argv: seq<string>)
    requires |argv| >= 2
    requires forall k :: 1 <= k < |argv| ==> ' ' !in argv[k]
    ensures Split(Join(argv[1..], ' '), ' ') == argv[1..]
  {
    SplitJoin(argv[1..], ' ');
  }
}
