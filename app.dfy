/** The plotting script `app/main.py`: one figure per country with a row of
    two panels (daily bars, cumulative line) per selected metric, rows handed
    out in order, daily values clamped at zero, and an image name built from
    the country and the flags. */
module App {
  import opened Tables
  import opened Deltas
  import opened Frames
  import opened Cli

  /** The recoveries table is cut to `columns[3:550]`. */
  const RecoveriesStop: Stop := Before(550)

  /** `get_data_for_country` once the three CSV files are read: cases and
      deaths keep every date column, recoveries only the first 547. */
  function GetDataForCountry(src: Sources, country: string): (r: Outcome<Data>)
    requires WellFormedSources(src)
    ensures r.Ok? <==> Present(src.cases, country) && Present(src.deaths, country) && Present(src.recoveries, country)
    ensures r.Ok? ==>
      && r.value.cases.labels == src.cases.dates && |r.value.cases.values| == |src.cases.dates|
      && r.value.deaths.labels == src.deaths.dates && |r.value.deaths.values| == |src.deaths.dates|
      && r.value.recoveries.labels == src.recoveries.dates[..Min(547, |src.recoveries.dates|)]
      && |r.value.recoveries.values| == Min(547, |src.recoveries.dates|)
  {
    Fetch(src, country, RecoveriesStop)
  }

  /** The recoveries series keeps at most the first 547 date columns: a
      prefix of what `columns[3:]` would have given. */
  lemma RecoveriesCut(src: Sources, country: string)
    requires WellFormedSources(src)
    ensures GetDataForCountry(src, country).Ok? ==>
      var rec := GetDataForCountry(src, country).value.recoveries;
      var all := Aggregate(src.recoveries, country, ToEnd).column;
      && |rec.values| == Min(547, |src.recoveries.dates|) <= 547
      && rec.values == all.values[..|rec.values|]
      && rec.labels == all.labels[..|rec.values|]
  {
    CutIsPrefix(src.recoveries, country, 550);
  }

  /** `make_confirmed_cases_subplots` and its twins for deaths and
      recoveries, which differ only in labels and colours: the caller's
      Series gets a date index, and the daily bars are its clamped
      differences. */
  method MakeSubplots(s: Series, parse: string -> Option<Date>) returns (dates: seq<Option<Date>>, daily: seq<int>)
    requires s.Valid()
    modifies s`index
    ensures s.Valid() && s.index == ToDatetime(old(s.index), parse)
    ensures dates == s.index.dates && daily == Clamped(s.values)
  {
    s.AttachDates(parse);
    dates := s.index.dates;
    daily := Clamped(s.values);
  }

  /** `axs[0]` / `axs[1]` when the figure has one row, `axs[row, col]`
      otherwise; both name the panel at (row, col). */
  function AxesFor(rows: nat, row: nat, col: nat): (a: Axes)
    ensures row < rows ==> a.Position() == (row, col)
  {
    if rows == 1 then Flat(col) else Grid(row, col)
  }

  function PanelOf(m: Metric, rows: nat, row: nat, column: Column, parse: string -> Option<Date>): Panel {
    Panel(m, AxesFor(rows, row, 0), AxesFor(rows, row, 1),
          ToDatetime(Labels(column.labels), parse).dates, Clamped(column.values), column.values)
  }

  /** What `generate_plot` draws. The data of all three tables is fetched
      whatever the flags say, so a country missing from any table fails. */
  function Plot(src: Sources, country: string, f: Flags, parse: string -> Option<Date>): (r: Outcome<Figure>)
    requires WellFormedSources(src) && Count(f) >= 1
    ensures r.Ok? <==> Present(src.cases, country) && Present(src.deaths, country) && Present(src.recoveries, country)
    ensures r.Fail? ==> r.failure == GetDataForCountry(src, country).failure
    ensures r.Ok? ==>
      var fig, data := r.value, GetDataForCountry(src, country).value;
      && fig.rows == Count(f) && fig.cols == 2 && |fig.panels| == Count(f)
      && forall k :: 0 <= k < |fig.panels| ==>
        var p := fig.panels[k];
        && p.metric == Selected(f)[k]
        && p.dailyAt.Position() == (k, 0) && p.totalAt.Position() == (k, 1)
        && p.total == data.Get(p.metric).values
        && p.daily == Clamped(p.total)
        && p.dates == ToDatetime(Labels(data.Get(p.metric).labels), parse).dates
  {
    match GetDataForCountry(src, country)
    case Fail(e) => Fail(e)
    case Ok(data) =>
      var ms := Selected(f);
      Ok(Figure(|ms|, 2, seq(|ms|, k requires 0 <= k < |ms| => PanelOf(ms[k], |ms|, k, data.Get(ms[k]), parse))))
  }

  /** One `make_*_subplots` call on a fresh Series made from the column:
      the panel pair at `row`. */
  method DrawMetric(m: Metric, rows: nat, row: nat, column: Column, parse: string -> Option<Date>) returns (p: Panel)
    requires |column.labels| == |column.values|
    ensures p == PanelOf(m, rows, row, column, parse)
  {
    var s := new Series(column);
    var dates, daily := MakeSubplots(s, parse);
    p := Panel(m, AxesFor(rows, row, 0), AxesFor(rows, row, 1), dates, daily, s.values);
  }

  /** `generate_plot`: a row counter that moves on after each drawn metric. */
  method GeneratePlot(src: Sources, country: string, f: Flags, parse: string -> Option<Date>) returns (r: Outcome<Figure>)
    requires WellFormedSources(src) && Count(f) >= 1
    ensures r == Plot(src, country, f, parse)
  {
    var count := (if f.c then 1 else 0) + (if f.d then 1 else 0) + (if f.r then 1 else 0);
    var row := 0;
    var fetched := GetDataForCountry(src, country);
    if fetched.Fail? {
      return Fail(fetched.failure);
    }
    var data := fetched.value;
    ghost var ms := Selected(f);
    var panels: seq<Panel> := [];
    if f.c {
      var p := DrawMetric(Confirmed, count, row, data.cases, parse);
      panels := panels + [p];
      row := row + 1;
    }
    assert panels == seq(row, k requires 0 <= k < row => PanelOf(ms[k], count, k, data.Get(ms[k]), parse));
    if f.d {
      var p := DrawMetric(Deaths, count, row, data.deaths, parse);
      panels := panels + [p];
      row := row + 1;
    }
    assert panels == seq(row, k requires 0 <= k < row => PanelOf(ms[k], count, k, data.Get(ms[k]), parse));
    if f.r {
      var p := DrawMetric(Recoveries, count, row, data.recoveries, parse);
      panels := panels + [p];
      row := row + 1;
    }
    assert count == |ms| == row;
    assert panels == seq(|ms|, k requires 0 <= k < |ms| => PanelOf(ms[k], |ms|, k, data.Get(ms[k]), parse));
    r := Ok(Figure(count, 2, panels));
  }

  /** Every daily bar drawn is non-negative, and the bars of a metric add up
      to at least its net growth over the shown dates. */
  lemma PanelDailyBounds(src: Sources, country: string, f: Flags, parse: string -> Option<Date>, k: nat)
    requires WellFormedSources(src) && Count(f) >= 1
    requires Plot(src, country, f, parse).Ok?
    requires k < |Plot(src, country, f, parse).value.panels|
    requires |Plot(src, country, f, parse).value.panels[k].total| > 0
    ensures var p := Plot(src, country, f, parse).value.panels[k];
      && (forall i :: 0 <= i < |p.daily| ==> p.daily[i] >= 0)
      && Sum(p.daily) >= p.total[|p.total| - 1] - p.total[0]
  {
    var p := Plot(src, country, f, parse).value.panels[k];
    ClampedSumLowerBound(p.total);
  }

  // ---------------------------------------------------------------------
  // The image name

  function Letter(m: Metric): char {
    match m
    case Confirmed => 'c'
    case Deaths => 'd'
    case Recoveries => 'r'
  }

  function Letters(ms: seq<Metric>): (s: string)
    ensures |s| == |ms| && forall i :: 0 <= i < |ms| ==> s[i] == Letter(ms[i])
  {
    seq(|ms|, i requires 0 <= i < |ms| => Letter(ms[i]))
  }

  /** The name `store_plot_to_storage` gives the image: the country, `_`,
      one letter per selected metric in drawing order, `_plot.png`. */
  function ImageNameOf(country: string, f: Flags): string {
    country + "_" + Letters(Selected(f)) + "_plot.png"
  }

  /** `store_plot_to_storage` builds the name with repeated `+=`. */
  method ImageName(country: string, c: bool, d: bool, r: bool) returns (name: string)
    ensures name == ImageNameOf(country, Flags(c, d, r))
  {
    name := country + "_";
    if c {
      name := name + "c";
    }
    if d {
      name := name + "d";
    }
    if r {
      name := name + "r";
    }
    name := name + "_plot.png";
  }

  /** With no flag given the image is named `<country>_cdr_plot.png`. */
  lemma DefaultImageName(country: string)
    ensures ImageNameOf(country, Defaulted(Flags(false, false, false))) == country + "_cdr_plot.png"
  {
    assert Letters([Confirmed, Deaths, Recoveries]) == "cdr";
  }

  /** Index of the last `_` in `s`, or -1. */
  function LastSeparator(s: string): int {
    if s == [] then -1
    else if s[|s| - 1] == '_' then |s| - 1
    else LastSeparator(s[..|s| - 1])
  }

  lemma {:induction false} LastSeparatorAfter(a: string, la: string)
    requires '_' !in la
    ensures LastSeparator(a + "_" + la) == |a|
  {
    var s := a + "_" + la;
    if la != [] {
      assert s[|s| - 1] == la[|la| - 1];
      assert s[..|s| - 1] == a + "_" + la[..|la| - 1];
      LastSeparatorAfter(a, la[..|la| - 1]);
    }
  }

  /** The text before and after the last `_` are recovered from the joint. */
  lemma SplitAtLastSeparator(a: string, la: string, b: string, lb: string)
    requires '_' !in la && '_' !in lb
    requires a + "_" + la == b + "_" + lb
    ensures a == b && la == lb
  {
    var s := a + "_" + la;
    LastSeparatorAfter(a, la);
    LastSeparatorAfter(b, lb);
    assert a == s[..|a|];
    assert b == (b + "_" + lb)[..|b|];
    assert la == s[|a| + 1..];
    assert lb == (b + "_" + lb)[|b| + 1..];
  }

  lemma LettersDetermineFlags(f: Flags, g: Flags)
    requires Letters(Selected(f)) == Letters(Selected(g))
    ensures f == g
  {
    var sf, sg := Selected(f), Selected(g);
    assert |sf| == |sg|;
    forall i | 0 <= i < |sf| ensures sf[i] == sg[i] {
      assert Letters(sf)[i] == Letters(sg)[i];
    }
    assert sf == sg;
    assert Wants(f, Confirmed) == Wants(g, Confirmed);
    assert Wants(f, Deaths) == Wants(g, Deaths);
    assert Wants(f, Recoveries) == Wants(g, Recoveries);
  }

  /** Two different countries, or different flags, never share an image
      name. */
  lemma ImageNameInjective(a: string, f: Flags, b: string, g: Flags)
    requires ImageNameOf(a, f) == ImageNameOf(b, g)
    ensures a == b && f == g
  {
    var la, lb := Letters(Selected(f)), Letters(Selected(g));
    var x, y := a + "_" + la, b + "_" + lb;
    assert x == ImageNameOf(a, f)[..|x|];
    assert y == ImageNameOf(b, g)[..|y|];
    assert |x| == |y|;
    assert '_' !in la && '_' !in lb;
    SplitAtLastSeparator(a, la, b, lb);
    LettersDetermineFlags(f, g);
  }

  // ---------------------------------------------------------------------
  // `__main__`

  datatype Image = Image(name: string, figure: Figure)

  /** `__main__` after argument parsing: default the flags in place, split
      the country list on commas, and plot and store each country in turn.
      The KeyError of an unknown country is not caught: it ends the batch,
      and the images already stored stay. */
  method Run(src: Sources, args: Args, parse: string -> Option<Date>) returns (images: seq<Image>, failure: Option<Failure>)
    requires WellFormedSources(src)
    modifies args
    ensures args.Selection() == Defaulted(old(args.Selection())) && args.countries == old(args.countries)
    ensures
      var cs, f := Split(args.countries, ','), args.Selection();
      && |images| <= |cs|
      && (forall k :: 0 <= k < |images| ==>
            Plot(src, cs[k], f, parse).Ok?
            && images[k] == Image(ImageNameOf(cs[k], f), Plot(src, cs[k], f, parse).value))
      && (failure.None? <==> |images| == |cs|)
      && (failure.Some? ==> Plot(src, cs[|images|], f, parse) == Fail(failure.value))
  {
    args.ApplyDefaults();
    var countries := Split(args.countries, ',');
    var f := args.Selection();
    images, failure := [], None;
    var i := 0;
    while i < |countries|
      invariant 0 <= i <= |countries| && |images| == i
      invariant args.Selection() == f && args.countries == old(args.countries)
      invariant forall k :: 0 <= k < i ==>
        Plot(src, countries[k], f, parse).Ok?
        && images[k] == Image(ImageNameOf(countries[k], f), Plot(src, countries[k], f, parse).value)
    {
      var fig := GeneratePlot(src, countries[i], f, parse);
      if fig.Fail? {
        failure := Some(fig.failure);
        return;
      }
      var name := ImageName(countries[i], args.c, args.d, args.r);
      images := images + [Image(name, fig.value)];
      i := i + 1;
    }
  }
}
