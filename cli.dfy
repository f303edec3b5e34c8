/** The command-line rules both scripts share once argparse has run: the
    metric flags, their default, the order metrics are drawn in, and the
    comma-separated country list. */
module Cli {
  import opened Tables

  /** The `--countries` default. */
  const DefaultCountries: string := "Germany"

  /** The `-c`, `-d` and `-r` flags. */
  datatype Flags = Flags(c: bool, d: bool, r: bool)

  predicate Wants(f: Flags, m: Metric) {
    match m
    case Confirmed => f.c
    case Deaths => f.d
    case Recoveries => f.r
  }

  /** `sum((confirmed_cases, deaths, recoveries))`. */
  function Count(f: Flags): nat {
    (if f.c then 1 else 0) + (if f.d then 1 else 0) + (if f.r then 1 else 0)
  }

  /** Position of a metric in the fixed drawing order. */
  function Rank(m: Metric): nat {
    match m
    case Confirmed => 0
    case Deaths => 1
    case Recoveries => 2
  }

  /** The metrics whose flag is set, in the order confirmed, deaths,
      recoveries. */
  function Selected(f: Flags): (ms: seq<Metric>)
    ensures |ms| == Count(f)
    ensures forall m :: m in ms <==> Wants(f, m)
    ensures forall i, j :: 0 <= i < j < |ms| ==> Rank(ms[i]) < Rank(ms[j])
  {
    (if f.c then [Confirmed] else []) + (if f.d then [Deaths] else []) + (if f.r then [Recoveries] else [])
  }

  /** No flag at all means every metric; otherwise the flags stay as given. */
  function Defaulted(f: Flags): (g: Flags)
    ensures Count(g) >= 1
    ensures Count(f) >= 1 ==> g == f
    ensures Count(f) == 0 ==> Selected(g) == [Confirmed, Deaths, Recoveries]
  {
    if !f.c && !f.d && !f.r then Flags(true, true, true) else f
  }

  /** The namespace argparse returns; `__main__` rewrites its flags. */
  class Args {
    var countries: string
    var c: bool
    var d: bool
    var r: bool

    constructor (countries: string, c: bool, d: bool, r: bool)
      ensures this.countries == countries && this.c == c && this.d == d && this.r == r
    {
      this.countries := countries;
      this.c := c;
      this.d := d;
      this.r := r;
    }

    function Selection(): Flags
      reads this
    {
      Flags(c, d, r)
    }

    /** `if not args.c and not args.d and not args.r: args.c = args.d = args.r = True`. */
    method ApplyDefaults()
      modifies this
      ensures Selection() == Defaulted(old(Selection()))
      ensures countries == old(countries)
    {
      if !c && !d && !r {
        c, d, r := true, true, true;
      }
    }
  }

  // ---------------------------------------------------------------------
  // `str.split(sep)` with an explicit separator and its inverse `sep.join`.

  /** Python's `s.split(sep)`: always at least one piece, empty pieces kept. */
  function Split(s: string, sep: char): (parts: seq<string>)
    ensures |parts| >= 1
    ensures forall k :: 0 <= k < |parts| ==> sep !in parts[k]
  {
    if s == [] then [""]
    else
      var rest := Split(s[1..], sep);
      if s[0] == sep then [""] + rest
      else [[s[0]] + rest[0]] + rest[1..]
  }

  /** Python's `sep.join(parts)`. */
  function Join(parts: seq<string>, sep: char): string
    requires |parts| >= 1
  {
    if |parts| == 1 then parts[0] else parts[0] + [sep] + Join(parts[1..], sep)
  }

  /** Joining the pieces of a split gives the original text back. */
  lemma {:induction false} JoinSplit(s: string, sep: char)
    ensures Join(Split(s, sep), sep) == s
  {
    if s != [] {
      var rest := Split(s[1..], sep);
      JoinSplit(s[1..], sep);
      if s[0] == sep {
        assert ([""] + rest)[1..] == rest;
      } else {
        var parts := [[s[0]] + rest[0]] + rest[1..];
        if |rest| > 1 {
          assert parts[1..] == rest[1..];
          assert Join(rest, sep) == rest[0] + [sep] + Join(rest[1..], sep);
        }
        assert s == [s[0]] + s[1..];
      }
    }
  }

  lemma {:induction false} SplitPrefix(x: string, tail: string, sep: char)
    requires sep !in x
    ensures Split(x + tail, sep) == [x + Split(tail, sep)[0]] + Split(tail, sep)[1..]
  {
    if x != [] {
      SplitPrefix(x[1..], tail, sep);
      assert (x + tail)[1..] == x[1..] + tail;
      assert (x + tail)[0] == x[0];
      assert [x[0]] + (x[1..] + Split(tail, sep)[0]) == x + Split(tail, sep)[0];
    } else {
      assert x + tail == tail;
      var p := Split(tail, sep);
      assert x + p[0] == p[0];
      assert p == [p[0]] + p[1..];
    }
  }

  /** Without `--countries` the batch is the one country `Germany`. */
  lemma DefaultIsOneCountry()
    ensures Split(DefaultCountries, ',') == [DefaultCountries]
  {
    SplitJoin([DefaultCountries], ',');
  }

  /** Splitting joined pieces that hold no separator gives the pieces back. */
  lemma {:induction false} SplitJoin(parts: seq<string>, sep: char)
    requires |parts| >= 1
    requires forall k :: 0 <= k < |parts| ==> sep !in parts[k]
    ensures Split(Join(parts, sep), sep) == parts
  {
    if |parts| == 1 {
      SplitPrefix(parts[0], [], sep);
      assert parts[0] + [] == parts[0];
    } else {
      var tail := Join(parts[1..], sep);
      SplitJoin(parts[1..], sep);
      SplitPrefix(parts[0], [sep] + tail, sep);
      assert parts[0] + [sep] + tail == parts[0] + ([sep] + tail);
      assert ([sep] + tail)[1..] == tail;
      assert Split([sep] + tail, sep) == [""] + parts[1..];
      assert parts[0] + "" == parts[0];
      assert parts == [parts[0]] + parts[1..];
    }
  }
}
