/** A pandas Series whose index the plotting code replaces in place, and the
    values handed to the chart sink (axes positions, panels, figures). */
module Frames {
  import opened Tables

  /** A calendar date; `None` in an index position stands for NaT. */
  datatype Date = Date(year: int, month: int, day: int)

  /** A Series index before and after `pd.to_datetime`. */
  datatype Index = Labels(names: seq<string>) | Stamps(dates: seq<Option<Date>>) {
    function Length(): nat {
      match this
      case Labels(names) => |names|
      case Stamps(dates) => |dates|
    }
  }

  /** `pd.to_datetime(index, format=DATE_FORMAT, errors='coerce')`. The
      format-driven parser is a parameter; a label it rejects becomes `None`
      (NaT) at its own position: nothing is dropped or reordered. An index
      that already holds dates is kept. */
  function ToDatetime(ix: Index, parse: string -> Option<Date>): (r: Index)
    ensures r.Stamps? && r.Length() == ix.Length()
    ensures ix.Labels? ==> forall k :: 0 <= k < |ix.names| ==> r.dates[k] == parse(ix.names[k])
    ensures ix.Stamps? ==> r == ix
  {
    match ix
    case Labels(names) => Stamps(seq(|names|, k requires 0 <= k < |names| => parse(names[k])))
    case Stamps(_) => ix
  }

  /** A Series: an index and one value per index entry. */
  class Series {
    var index: Index
    var values: seq<int>

    ghost predicate Valid()
      reads this
    {
      index.Length() == |values|
    }

    /** The Series `.loc` returns: labelled by the selected column names. */
    constructor (column: Column)
      requires |column.labels| == |column.values|
      ensures Valid()
      ensures index == Labels(column.labels) && values == column.values
    {
      index := Labels(column.labels);
      values := column.values;
    }

    /** `series.index = pd.to_datetime(series.index, ...)`: only the index
        changes; the values and their number stay as they were. */
    method AttachDates(parse: string -> Option<Date>)
      requires Valid()
      modifies this`index
      ensures Valid()
      ensures index == ToDatetime(old(index), parse)
      ensures values == old(values)
    {
      index := ToDatetime(index, parse);
    }
  }

  /** An entry of the array `plt.subplots` returns: one-dimensional when
      the figure has one row, two-dimensional otherwise. */
  datatype Axes = Flat(col: nat) | Grid(row: nat, col: nat) {
    /** Row and column of the panel in the figure. */
    function Position(): (nat, nat) {
      match this
      case Flat(col) => (0, col)
      case Grid(row, col) => (row, col)
    }
  }

  /** What one metric hands to the chart sink: the bar chart of daily values
      and the line chart of totals, both over the same date index. */
  datatype Panel = Panel(metric: Metric, dailyAt: Axes, totalAt: Axes,
                         dates: seq<Option<Date>>, daily: seq<int>, total: seq<int>)

  /** A figure of `rows` by `cols` panels and the panels drawn on it. */
  datatype Figure = Figure(rows: nat, cols: nat, panels: seq<Panel>)
}
