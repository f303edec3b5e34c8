/** Region tables and their reduction to one series per country: the
    `groupby('Country/Region').sum().loc[country, columns[3:stop]]` step
    that both plotting scripts apply to each of the three input tables. */
module Tables {

  datatype Option<T> = None | Some(value: T)

  /** The three metrics, in the order the scripts read and plot them. */
  datatype Metric = Confirmed | Deaths | Recoveries

  /** One CSV row: the Country/Region key, the other leading columns
      (Province/State, Lat, Long) as text, and one cumulative count per
      date column. */
  datatype Row = Row(country: string, meta: seq<string>, obs: seq<int>)

  /** A table: the date column labels and the rows under them. */
  datatype Table = Table(dates: seq<string>, rows: seq<Row>)

  /** The three input tables of one invocation. */
  datatype Sources = Sources(cases: Table, deaths: Table, recoveries: Table) {
    function Get(m: Metric): Table {
      match m
      case Confirmed => cases
      case Deaths => deaths
      case Recoveries => recoveries
    }
  }

  /** A country's series as `.loc` returns it: column labels and values. */
  datatype Column = Column(labels: seq<string>, values: seq<int>)

  /** The result of `.loc[country, ...]`: the column, or the KeyError. */
  datatype Lookup = Found(column: Column) | Missing(key: string)

  /** The first `.loc` lookup that raised, and for which key. */
  datatype Failure = UnknownCountry(metric: Metric, country: string)

  datatype Outcome<T> = Ok(value: T) | Fail(failure: Failure)

  /** The three columns of one country, one per table. */
  datatype Data = Data(cases: Column, deaths: Column, recoveries: Column) {
    function Get(m: Metric): Column {
      match m
      case Confirmed => cases
      case Deaths => deaths
      case Recoveries => recoveries
    }
  }

  /** Columns of the grouped frame that come before the dates. */
  const MetaColumns: nat := 3

  /** The end of a Python slice `columns[3:stop]`; `ToEnd` is `columns[3:]`. */
  datatype Stop = ToEnd | Before(n: nat)

  /** A data frame is rectangular: every row has every column. */
  predicate WellFormed(t: Table) {
    forall i :: 0 <= i < |t.rows| ==>
      |t.rows[i].meta| == MetaColumns && |t.rows[i].obs| == |t.dates|
  }

  predicate WellFormedSources(src: Sources) {
    WellFormed(src.cases) && WellFormed(src.deaths) && WellFormed(src.recoveries)
  }

  predicate Present(t: Table, country: string) {
    exists i :: 0 <= i < |t.rows| && t.rows[i].country == country
  }

  function Min(a: int, b: int): int { if a <= b then a else b }

  /** The labels of the leading columns of the grouped frame: everything but
      the group key, as `sum()` keeps it with `numeric_only=False`. */
  const LeadingColumns: seq<string> := ["Province/State", "Lat", "Long"]

  /** The column labels of `groupby('Country/Region').sum()`. */
  function FrameColumns(t: Table): seq<string> {
    LeadingColumns + t.dates
  }

  /** Python's `s[start:stop]` for a non-negative start: both ends are
      clamped to the length, and an end before the start gives nothing. */
  function PySlice<T>(s: seq<T>, start: nat, stop: Stop): seq<T> {
    var lo := Min(start, |s|);
    var hi := match stop case ToEnd => |s| case Before(n) => Min(n, |s|);
    if hi <= lo then [] else s[lo..hi]
  }

  /** How many date columns `columns[3:stop]` keeps out of `width`. */
  function DateColumns(width: nat, stop: Stop): (k: nat)
    ensures k <= width
  {
    match stop
    case ToEnd => width
    case Before(n) => if n <= MetaColumns then 0 else Min(n - MetaColumns, width)
  }

  /** Slicing the grouped frame's column labels from position 3 keeps exactly
      the first `DateColumns` date labels: all of them for `columns[3:]`, and
      `min(stop - 3, width)` of them for `columns[3:stop]`. */
  lemma SliceDateColumns(t: Table, stop: Stop)
    ensures PySlice(FrameColumns(t), MetaColumns, stop) == t.dates[..DateColumns(|t.dates|, stop)]
    ensures stop.ToEnd? ==> DateColumns(|t.dates|, stop) == |t.dates|
    ensures stop.Before? && stop.n >= MetaColumns ==> DateColumns(|t.dates|, stop) == Min(stop.n - MetaColumns, |t.dates|)
  {
  }

  /** Sum over the rows labelled `country` of their value in date column `j`:
      the total of one column, written row by row. */
  function ColumnTotal(rows: seq<Row>, country: string, j: nat): int
    requires forall i :: 0 <= i < |rows| ==> j < |rows[i].obs|
  {
    if rows == [] then 0
    else (if rows[0].country == country then rows[0].obs[j] else 0) + ColumnTotal(rows[1..], country, j)
  }

  function Zeros(n: nat): (z: seq<int>)
    ensures |z| == n && forall j :: 0 <= j < n ==> z[j] == 0
  {
    seq(n, j => 0)
  }

  /** Element-wise sum of two equally long vectors. */
  function Add(a: seq<int>, b: seq<int>): (s: seq<int>)
    requires |a| == |b|
    ensures |s| == |a| && forall j :: 0 <= j < |a| ==> s[j] == a[j] + b[j]
  {
    seq(|a|, j requires 0 <= j < |a| => a[j] + b[j])
  }

  /** The grouped-and-summed row of `country`, over all date columns. */
  function GroupSum(rows: seq<Row>, country: string, width: nat): (s: seq<int>)
    requires forall i :: 0 <= i < |rows| ==> |rows[i].obs| == width
    ensures |s| == width
    ensures forall j :: 0 <= j < width ==> s[j] == ColumnTotal(rows, country, j)
  {
    if rows == [] then Zeros(width)
    else
      var rest := GroupSum(rows[1..], country, width);
      if rows[0].country == country then Add(rows[0].obs, rest) else rest
  }

  /** `groupby('Country/Region').sum().loc[country, columns[3:stop]]`. */
  function Aggregate(t: Table, country: string, stop: Stop): (r: Lookup)
    requires WellFormed(t)
    ensures r.Missing? <==> !Present(t, country)
    ensures r.Missing? ==> r.key == country
    ensures r.Found? ==>
      var k := DateColumns(|t.dates|, stop);
      && r.column.labels == PySlice(FrameColumns(t), MetaColumns, stop) == t.dates[..k]
      && |r.column.values| == k
      && forall j :: 0 <= j < k ==> r.column.values[j] == ColumnTotal(t.rows, country, j)
  {
    SliceDateColumns(t, stop);
    if !Present(t, country) then Missing(country)
    else
      var k := DateColumns(|t.dates|, stop);
      Found(Column(t.dates[..k], GroupSum(t.rows, country, |t.dates|)[..k]))
  }

  /** The three lookups in the scripts' order; the first one that raises
      ends the call, whatever metrics were asked for. */
  function Fetch(src: Sources, country: string, recoveriesStop: Stop): (r: Outcome<Data>)
    requires WellFormedSources(src)
    ensures r.Ok? <==> Present(src.cases, country) && Present(src.deaths, country) && Present(src.recoveries, country)
    ensures r.Fail? ==> r.failure.country == country
    ensures r.Fail? ==> (r.failure.metric == Confirmed <==> !Present(src.cases, country))
    ensures r.Fail? && r.failure.metric == Deaths ==> Present(src.cases, country) && !Present(src.deaths, country)
    ensures r.Fail? && r.failure.metric == Recoveries ==>
      Present(src.cases, country) && Present(src.deaths, country) && !Present(src.recoveries, country)
    ensures r.Ok? ==>
      && r.value.cases == Aggregate(src.cases, country, ToEnd).column
      && r.value.deaths == Aggregate(src.deaths, country, ToEnd).column
      && r.value.recoveries == Aggregate(src.recoveries, country, recoveriesStop).column
  {
    match Aggregate(src.cases, country, ToEnd)
    case Missing(_) => Fail(UnknownCountry(Confirmed, country))
    case Found(cases) =>
      match Aggregate(src.deaths, country, ToEnd)
      case Missing(_) => Fail(UnknownCountry(Deaths, country))
      case Found(deaths) =>
        match Aggregate(src.recoveries, country, recoveriesStop)
        case Missing(_) => Fail(UnknownCountry(Recoveries, country))
        case Found(recoveries) => Ok(Data(cases, deaths, recoveries))
  }

  // ---------------------------------------------------------------------
  // Order of the rows does not matter.

  lemma {:induction false} ColumnTotalAppend(a: seq<Row>, b: seq<Row>, country: string, j: nat)
    requires forall i :: 0 <= i < |a| ==> j < |a[i].obs|
    requires forall i :: 0 <= i < |b| ==> j < |b[i].obs|
    ensures ColumnTotal(a + b, country, j) == ColumnTotal(a, country, j) + ColumnTotal(b, country, j)
  {
    if a == [] {
      assert a + b == b;
    } else {
      assert (a + b)[1..] == a[1..] + b;
      ColumnTotalAppend(a[1..], b, country, j);
    }
  }

  /** Taking one row out of the middle removes exactly its own term. */
  lemma ColumnTotalRemove(b: seq<Row>, k: nat, country: string, j: nat)
    requires k < |b|
    requires forall i :: 0 <= i < |b| ==> j < |b[i].obs|
    ensures ColumnTotal(b, country, j)
         == (if b[k].country == country then b[k].obs[j] else 0) + ColumnTotal(b[..k] + b[k + 1..], country, j)
  {
    assert b == b[..k] + ([b[k]] + b[k + 1..]);
    ColumnTotalAppend(b[..k], [b[k]] + b[k + 1..], country, j);
    ColumnTotalAppend(b[..k], b[k + 1..], country, j);
    assert ([b[k]] + b[k + 1..])[1..] == b[k + 1..];
  }

  lemma MultisetRemove(a: seq<Row>, b: seq<Row>, k: nat)
    requires multiset(a) == multiset(b) && a != [] && k < |b| && b[k] == a[0]
    ensures multiset(a[1..]) == multiset(b[..k] + b[k + 1..])
  {
    assert b == b[..k] + [b[k]] + b[k + 1..];
    assert multiset(b) == multiset(b[..k]) + multiset{b[k]} + multiset(b[k + 1..]);
    assert multiset(b[..k] + b[k + 1..]) == multiset(b[..k]) + multiset(b[k + 1..]);
    assert a == [a[0]] + a[1..];
    assert multiset(a) == multiset{a[0]} + multiset(a[1..]);
    assert multiset(a[1..]) == multiset(a) - multiset{a[0]};
    assert multiset(b[..k]) + multiset(b[k + 1..]) == multiset(b) - multiset{b[k]};
  }

  lemma {:induction false} ColumnTotalPermutation(a: seq<Row>, b: seq<Row>, country: string, j: nat)
    requires multiset(a) == multiset(b)
    requires forall i :: 0 <= i < |a| ==> j < |a[i].obs|
    requires forall i :: 0 <= i < |b| ==> j < |b[i].obs|
    ensures ColumnTotal(a, country, j) == ColumnTotal(b, country, j)
  {
    if a == [] {
      assert |b| == |multiset(b)| == 0;
    } else {
      assert a[0] in multiset(b);
      var k :| 0 <= k < |b| && b[k] == a[0];
      MultisetRemove(a, b, k);
      var rest := b[..k] + b[k + 1..];
      assert forall i :: 0 <= i < |rest| ==> rest[i] == (if i < k then b[i] else b[i + 1]);
      ColumnTotalPermutation(a[1..], rest, country, j);
      ColumnTotalRemove(b, k, country, j);
    }
  }

  /** Summing the regions of a country in any order gives the same series. */
  lemma AggregatePermutation(t: Table, u: Table, country: string, stop: Stop)
    requires WellFormed(t)
    requires u.dates == t.dates && multiset(u.rows) == multiset(t.rows)
    ensures WellFormed(u)
    ensures Aggregate(u, country, stop) == Aggregate(t, country, stop)
  {
    forall i | 0 <= i < |u.rows|
      ensures |u.rows[i].meta| == MetaColumns && |u.rows[i].obs| == |u.dates|
    {
      assert u.rows[i] in multiset(t.rows);
    }
    assert Present(u, country) <==> Present(t, country) by {
      if Present(t, country) {
        var i :| 0 <= i < |t.rows| && t.rows[i].country == country;
        assert t.rows[i] in multiset(u.rows);
      }
      if Present(u, country) {
        var i :| 0 <= i < |u.rows| && u.rows[i].country == country;
        assert u.rows[i] in multiset(t.rows);
      }
    }
    if Present(t, country) {
      var k := DateColumns(|t.dates|, stop);
      var ru, rt := Aggregate(u, country, stop).column, Aggregate(t, country, stop).column;
      forall j | 0 <= j < k ensures ru.values[j] == rt.values[j] {
        ColumnTotalPermutation(t.rows, u.rows, country, j);
      }
    }
  }

  // ---------------------------------------------------------------------
  // Only the rows of the requested country contribute.

  function RowsOf(rows: seq<Row>, country: string): (r: seq<Row>)
    ensures forall i :: 0 <= i < |r| ==> r[i].country == country && r[i] in rows
  {
    if rows == [] then []
    else if rows[0].country == country then [rows[0]] + RowsOf(rows[1..], country)
    else RowsOf(rows[1..], country)
  }

  lemma {:induction false} RowsOfKeepsTotals(rows: seq<Row>, country: string, j: nat)
    requires forall i :: 0 <= i < |rows| ==> j < |rows[i].obs|
    ensures forall i :: 0 <= i < |RowsOf(rows, country)| ==> j < |RowsOf(rows, country)[i].obs|
    ensures ColumnTotal(RowsOf(rows, country), country, j) == ColumnTotal(rows, country, j)
  {
    if rows != [] {
      RowsOfKeepsTotals(rows[1..], country, j);
      var rest := RowsOf(rows[1..], country);
      if rows[0].country == country {
        assert ([rows[0]] + rest)[1..] == rest;
      }
    }
  }

  lemma {:induction false} RowsOfKeepsPresence(rows: seq<Row>, country: string)
    ensures (exists i :: 0 <= i < |RowsOf(rows, country)| && RowsOf(rows, country)[i].country == country)
        <==> (exists i :: 0 <= i < |rows| && rows[i].country == country)
  {
    if rows != [] {
      RowsOfKeepsPresence(rows[1..], country);
      var rest := RowsOf(rows[1..], country);
      if rows[0].country == country {
        assert RowsOf(rows, country)[0] == rows[0];
      } else {
        assert RowsOf(rows, country) == rest;
        if exists i :: 0 <= i < |rows| && rows[i].country == country {
          var i :| 0 <= i < |rows| && rows[i].country == country;
          assert rows[1..][i - 1] == rows[i];
        }
        if exists i :: 0 <= i < |rows[1..]| && rows[1..][i].country == country {
          var i :| 0 <= i < |rows[1..]| && rows[1..][i].country == country;
          assert rows[i + 1] == rows[1..][i];
        }
      }
    }
  }

  /** A country's series is computed from that country's rows alone: every
      other row may be removed without changing the result or the error. */
  lemma AggregateOnlyCountry(t: Table, country: string, stop: Stop)
    requires WellFormed(t)
    ensures WellFormed(Table(t.dates, RowsOf(t.rows, country)))
    ensures Aggregate(Table(t.dates, RowsOf(t.rows, country)), country, stop) == Aggregate(t, country, stop)
  {
    var u := Table(t.dates, RowsOf(t.rows, country));
    RowsOfKeepsPresence(t.rows, country);
    if Present(t, country) {
      var k := DateColumns(|t.dates|, stop);
      forall j | 0 <= j < k
        ensures Aggregate(u, country, stop).column.values[j] == Aggregate(t, country, stop).column.values[j]
      {
        RowsOfKeepsTotals(t.rows, country, j);
      }
    }
  }

  /** A country that owns exactly one row gets that row's counts back. */
  lemma AggregateSingleRow(t: Table, i: nat, stop: Stop)
    requires WellFormed(t) && i < |t.rows|
    requires forall i' :: 0 <= i' < |t.rows| && i' != i ==> t.rows[i'].country != t.rows[i].country
    ensures Aggregate(t, t.rows[i].country, stop)
         == Found(Column(t.dates[..DateColumns(|t.dates|, stop)], t.rows[i].obs[..DateColumns(|t.dates|, stop)]))
  {
    var c := t.rows[i].country;
    var k := DateColumns(|t.dates|, stop);
    forall j | 0 <= j < k ensures ColumnTotal(t.rows, c, j) == t.rows[i].obs[j] {
      assert t.rows == t.rows[..i] + ([t.rows[i]] + t.rows[i + 1..]);
      ColumnTotalAppend(t.rows[..i], [t.rows[i]] + t.rows[i + 1..], c, j);
      NoRowsNoTotal(t.rows[..i], c, j);
      NoRowsNoTotal(t.rows[i + 1..], c, j);
      assert ([t.rows[i]] + t.rows[i + 1..])[1..] == t.rows[i + 1..];
    }
  }

  lemma {:induction false} NoRowsNoTotal(rows: seq<Row>, country: string, j: nat)
    requires forall i :: 0 <= i < |rows| ==> j < |rows[i].obs| && rows[i].country != country
    ensures ColumnTotal(rows, country, j) == 0
  {
    if rows != [] {
      NoRowsNoTotal(rows[1..], country, j);
    }
  }

  /** `columns[3:stop]` with a finite stop keeps a prefix of `columns[3:]`. */
  lemma CutIsPrefix(t: Table, country: string, n: nat)
    requires WellFormed(t)
    ensures Aggregate(t, country, Before(n)).Found? == Aggregate(t, country, ToEnd).Found?
    ensures Aggregate(t, country, Before(n)).Found? ==>
      var cut, all := Aggregate(t, country, Before(n)).column, Aggregate(t, country, ToEnd).column;
      && |cut.values| == DateColumns(|t.dates|, Before(n))
      && cut.values == all.values[..|cut.values|]
      && cut.labels == all.labels[..|cut.values|]
  {
  }
}
