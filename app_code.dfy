/** The earlier plotting script `app/code/main.py`: always a 3 by 2 grid in
    which every metric owns a fixed row, unclamped daily differences, no
    column cut on the recoveries table, and one image path for every
    country. */
module AppCode {
  import opened Tables
  import opened Deltas
  import opened Frames
  import opened Cli

  /** Every figure is saved under this one path. */
  const ImagePath: string := "/app/plot.png"

  /** `get_data_for_country`: `columns[3:]` for all three tables, so every
      series keeps every date column. */
  function GetDataForCountry(src: Sources, country: string): (r: Outcome<Data>)
    requires WellFormedSources(src)
    ensures r.Ok? <==> Present(src.cases, country) && Present(src.deaths, country) && Present(src.recoveries, country)
    ensures r.Ok? ==>
      && r.value.cases.labels == src.cases.dates && |r.value.cases.values| == |src.cases.dates|
      && r.value.deaths.labels == src.deaths.dates && |r.value.deaths.values| == |src.deaths.dates|
      && r.value.recoveries.labels == src.recoveries.dates && |r.value.recoveries.values| == |src.recoveries.dates|
  {
    Fetch(src, country, ToEnd)
  }

  /** `axs[0, _]`, `axs[1, _]` and `axs[2, _]`, hard-coded per metric. */
  function FixedRow(m: Metric): nat {
    match m
    case Confirmed => 0
    case Deaths => 1
    case Recoveries => 2
  }

  /** `make_confirmed_cases_plots` and its twins for deaths and recoveries:
      the caller's Series gets a date index, and the daily bars are its
      plain differences, negative ones included. */
  method MakeMetricPlots(s: Series, parse: string -> Option<Date>) returns (dates: seq<Option<Date>>, daily: seq<int>)
    requires s.Valid()
    modifies s`index
    ensures s.Valid() && s.index == ToDatetime(old(s.index), parse)
    ensures dates == s.index.dates && daily == Diff(s.values)
  {
    s.AttachDates(parse);
    dates := s.index.dates;
    daily := Diff(s.values);
  }

  function PanelOf(m: Metric, column: Column, parse: string -> Option<Date>): Panel {
    Panel(m, Grid(FixedRow(m), 0), Grid(FixedRow(m), 1),
          ToDatetime(Labels(column.labels), parse).dates, Diff(column.values), column.values)
  }

  /** What `make_plots` draws: the selected metrics, each in its own fixed
      row of a 3 by 2 grid; rows of unselected metrics stay empty. */
  function Plots(src: Sources, country: string, f: Flags, parse: string -> Option<Date>): (r: Outcome<Figure>)
    requires WellFormedSources(src)
    ensures r.Ok? <==> Present(src.cases, country) && Present(src.deaths, country) && Present(src.recoveries, country)
    ensures r.Fail? ==> r.failure == GetDataForCountry(src, country).failure
    ensures r.Ok? ==>
      var fig, data := r.value, GetDataForCountry(src, country).value;
      && fig.rows == 3 && fig.cols == 2 && |fig.panels| == Count(f)
      && forall k :: 0 <= k < |fig.panels| ==>
        var p := fig.panels[k];
        && p.metric == Selected(f)[k]
        && p.dailyAt == Grid(FixedRow(p.metric), 0) && p.totalAt == Grid(FixedRow(p.metric), 1)
        && p.total == data.Get(p.metric).values
        && p.daily == Diff(p.total)
        && p.dates == ToDatetime(Labels(data.Get(p.metric).labels), parse).dates
  {
    match GetDataForCountry(src, country)
    case Fail(e) => Fail(e)
    case Ok(data) =>
      var ms := Selected(f);
      Ok(Figure(3, 2, seq(|ms|, k requires 0 <= k < |ms| => PanelOf(ms[k], data.Get(ms[k]), parse))))
  }

  /** One `make_*_plots` call on a fresh Series made from the column. */
  method DrawMetric(m: Metric, column: Column, parse: string -> Option<Date>) returns (p: Panel)
    requires |column.labels| == |column.values|
    ensures p == PanelOf(m, column, parse)
  {
    var s := new Series(column);
    var dates, daily := MakeMetricPlots(s, parse);
    p := Panel(m, Grid(FixedRow(m), 0), Grid(FixedRow(m), 1), dates, daily, s.values);
  }

  /** `make_plots`. */
  method MakePlots(src: Sources, country: string, f: Flags, parse: string -> Option<Date>) returns (r: Outcome<Figure>)
    requires WellFormedSources(src)
    ensures r == Plots(src, country, f, parse)
  {
    var fetched := GetDataForCountry(src, country);
    if fetched.Fail? {
      return Fail(fetched.failure);
    }
    var data := fetched.value;
    ghost var ms := Selected(f);
    var panels: seq<Panel> := [];
    if f.c {
      var p := DrawMetric(Confirmed, data.cases, parse);
      panels := panels + [p];
    }
    assert panels == seq(|panels|, k requires 0 <= k < |panels| => PanelOf(ms[k], data.Get(ms[k]), parse));
    if f.d {
      var p := DrawMetric(Deaths, data.deaths, parse);
      panels := panels + [p];
    }
    assert panels == seq(|panels|, k requires 0 <= k < |panels| => PanelOf(ms[k], data.Get(ms[k]), parse));
    if f.r {
      var p := DrawMetric(Recoveries, data.recoveries, parse);
      panels := panels + [p];
    }
    assert panels == seq(|ms|, k requires 0 <= k < |ms| => PanelOf(ms[k], data.Get(ms[k]), parse));
    r := Ok(Figure(3, 2, panels));
  }

  /** A metric's panel is the same whatever else is selected: same row, same
      data. */
  lemma PanelIndependentOfSelection(src: Sources, country: string, f: Flags, g: Flags,
                                    parse: string -> Option<Date>, i: nat, j: nat)
    requires WellFormedSources(src)
    requires Plots(src, country, f, parse).Ok?
    requires i < |Plots(src, country, f, parse).value.panels|
    requires j < |Plots(src, country, g, parse).value.panels|
    requires Plots(src, country, f, parse).value.panels[i].metric == Plots(src, country, g, parse).value.panels[j].metric
    ensures Plots(src, country, f, parse).value.panels[i] == Plots(src, country, g, parse).value.panels[j]
  {
  }

  /** The daily bars of a panel and the first total rebuild every total. */
  lemma PanelRoundTrip(src: Sources, country: string, f: Flags, parse: string -> Option<Date>, k: nat)
    requires WellFormedSources(src)
    requires Plots(src, country, f, parse).Ok?
    requires k < |Plots(src, country, f, parse).value.panels|
    requires |Plots(src, country, f, parse).value.panels[k].total| > 0
    ensures var p := Plots(src, country, f, parse).value.panels[k];
      Accumulate(p.total[0], p.daily) == p.total && Sum(p.daily) == p.total[|p.total| - 1] - p.total[0]
  {
    var p := Plots(src, country, f, parse).value.panels[k];
    AccumulateDiff(p.total);
    DiffTotal(p.total);
  }

  /** `__main__` after argument parsing: default the flags in place, split
      the country list on commas, and plot each country in turn, saving every
      figure to the same path. An unknown country ends the batch. */
  method Run(src: Sources, args: Args, parse: string -> Option<Date>) returns (saved: seq<(string, Figure)>, failure: Option<Failure>)
    requires WellFormedSources(src)
    modifies args
    ensures args.Selection() == Defaulted(old(args.Selection())) && args.countries == old(args.countries)
    ensures
      var cs, f := Split(args.countries, ','), args.Selection();
      && |saved| <= |cs|
      && (forall k :: 0 <= k < |saved| ==>
            Plots(src, cs[k], f, parse).Ok? && saved[k] == (ImagePath, Plots(src, cs[k], f, parse).value))
      && (failure.None? <==> |saved| == |cs|)
      && (failure.Some? ==> Plots(src, cs[|saved|], f, parse) == Fail(failure.value))
  {
    args.ApplyDefaults();
    var countries := Split(args.countries, ',');
    var f := args.Selection();
    saved, failure := [], None;
    for i := 0 to |countries|
      invariant |saved| == i
      invariant args.Selection() == f && args.countries == old(args.countries)
      invariant forall k :: 0 <= k < i ==>
        Plots(src, countries[k], f, parse).Ok? && saved[k] == (ImagePath, Plots(src, countries[k], f, parse).value)
    {
      var fig := MakePlots(src, countries[i], f, parse);
      if fig.Fail? {
        failure := Some(fig.failure);
        return;
      }
      saved := saved + [(ImagePath, fig.value)];
    }
  }
}
