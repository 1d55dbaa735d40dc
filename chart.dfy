/** The series strings of `generate_chart`: the date axis joined by `|`,
    the two stored column-mean lists joined by `,`, and the two history
    averages repeated once per date and joined by `,`. How a JSON value is
    turned into text (`str` in the source) is a parameter `show`. */
module Chart {
  import opened Failures
  import opened Seqs
  import opened Aggregation

  /** `sep.join(xs)`: the pieces in order with one separator between neighbours. */
  function Join(xs: seq<string>, sep: char): (r: string)
    ensures |r| == Lengths(xs) + if |xs| == 0 then 0 else |xs| - 1
  {
    if |xs| == 0 then ""
    else if |xs| == 1 then xs[0]
    else xs[0] + [sep] + Join(xs[1..], sep)
  }

  /** `s.split(sep)`: the pieces between separators, one more than there
      are separators. */
  function Split(s: string, sep: char): (r: seq<string>)
    ensures |r| == Count(s, sep) + 1
  {
    if |s| == 0 then [""]
    else
      var rest := Split(s[1..], sep);
      if s[0] == sep then [""] + rest
      else [[s[0]] + rest[0]] + rest[1..]
  }

  /** The total length of the pieces. */
  function Lengths(xs: seq<string>): nat
  {
    if |xs| == 0 then 0 else |xs[0]| + Lengths(xs[1..])
  }

  /** The number of times `c` occurs in `s`. */
  function Count(s: string, c: char): nat
  {
    if |s| == 0 then 0 else (if s[0] == c then 1 else 0) + Count(s[1..], c)
  }

  /** The occurrences of `c` in all the pieces together. */
  function CountAll(xs: seq<string>, c: char): nat
  {
    if |xs| == 0 then 0 else Count(xs[0], c) + CountAll(xs[1..], c)
  }

  /** No piece contains the separator. */
  predicate Free(xs: seq<string>, sep: char)
  {
    forall k :: 0 <= k < |xs| ==> sep !in xs[k]
  }

  lemma {:induction false} CountAppend(a: string, b: string, c: char)
    ensures Count(a + b, c) == Count(a, c) + Count(b, c)
  {
    if |a| == 0 {
      assert a + b == b;
    } else {
      CountAppend(a[1..], b, c);
      assert (a + b)[1..] == a[1..] + b;
    }
  }

  lemma {:induction false} CountAbsent(s: string, c: char)
    requires c !in s
    ensures Count(s, c) == 0
  {
    if |s| > 0 {
      assert c !in s[1..] by {
        forall k | 0 <= k < |s[1..]| ensures s[1..][k] != c {
          assert s[1..][k] == s[k + 1];
        }
      }
      CountAbsent(s[1..], c);
    }
  }

  /** Splitting text that starts with a piece free of the separator keeps
      that piece at the front of the first part. */
  lemma {:induction false} SplitPlain(w: string, tail: string, sep: char)
    requires sep !in w
    ensures Split(w + tail, sep) == [w + Split(tail, sep)[0]] + Split(tail, sep)[1..]
  {
    if |w| == 0 {
      var parts := Split(tail, sep);
      assert w + tail == tail && w + parts[0] == parts[0];
      assert [parts[0]] + parts[1..] == parts;
    } else {
      assert sep !in w[1..] by {
        forall k | 0 <= k < |w[1..]| ensures w[1..][k] != sep {
          assert w[1..][k] == w[k + 1];
        }
      }
      SplitPlain(w[1..], tail, sep);
      assert (w + tail)[1..] == w[1..] + tail;
      assert [w[0]] + (w[1..] + Split(tail, sep)[0]) == w + Split(tail, sep)[0];
    }
  }

  /** Splitting at the separator undoes joining by it, for at least one
      piece and pieces free of the separator. */
  lemma {:induction false} SplitJoin(xs: seq<string>, sep: char)
    requires |xs| > 0 && Free(xs, sep)
    ensures Split(Join(xs, sep), sep) == xs
  {
    if |xs| == 1 {
      SplitPlain(xs[0], "", sep);
      assert xs[0] + "" == xs[0];
    } else {
      var rest := Join(xs[1..], sep);
      SplitJoin(xs[1..], sep);
      assert ([sep] + rest)[1..] == rest;
      assert Split([sep] + rest, sep) == [""] + xs[1..];
      SplitPlain(xs[0], [sep] + rest, sep);
      assert Join(xs, sep) == xs[0] + ([sep] + rest);
      assert xs[0] + "" == xs[0];
    }
  }

  /** A join of `n` pieces adds `n - 1` separators to those in the pieces. */
  lemma {:induction false} JoinCount(xs: seq<string>, sep: char)
    ensures Count(Join(xs, sep), sep) == (if |xs| == 0 then 0 else |xs| - 1) + CountAll(xs, sep)
  {
    if |xs| == 1 {
      assert xs[1..] == [];
    } else if |xs| > 1 {
      JoinCount(xs[1..], sep);
      CountAppend(xs[0] + [sep], Join(xs[1..], sep), sep);
      CountAppend(xs[0], [sep], sep);
      assert Count([sep], sep) == 1 by {
        assert [sep][1..] == [];
      }
    }
  }

  lemma {:induction false} CountAllFree(xs: seq<string>, sep: char)
    requires Free(xs, sep)
    ensures CountAll(xs, sep) == 0
  {
    if |xs| > 0 {
      CountAbsent(xs[0], sep);
      CountAllFree(xs[1..], sep);
    }
  }

  /** The five series strings of the chart. */
  datatype ChartSeries = ChartSeries(dates: string, var95: string, var99: string, avg95: string, avg99: string)

  /** `generate_chart` once the history, the date labels and the two stored
      lists are loaded: the averages come from the last history entry. */
  function Series(hist: seq<Entry>, dates: seq<string>, lst95: seq<Json>, lst99: seq<Json>, show: Json -> string)
    : (r: Result<ChartSeries>)
    ensures r.Ok? <==> |hist| > 0 && "var95" in hist[|hist| - 1] && "var99" in hist[|hist| - 1]
  {
    if |hist| == 0 then Err(LastOfEmptyList)
    else
      var last := hist[|hist| - 1];
      if "var95" !in last then Err(KeyMissing("var95"))
      else if "var99" !in last then Err(KeyMissing("var99"))
      else
        var avg95, avg99 := last["var95"], last["var99"];
        Ok(ChartSeries(
          Join(dates, '|'),
          Join(MapSeq(show, lst95), ','),
          Join(MapSeq(show, lst99), ','),
          Join(Repeat(show(avg95), |dates|), ','),
          Join(Repeat(show(avg99), |dates|), ',')))
  }

  /** The data part of the chart address: the four series separated by
      `|`, so three separators besides any inside the series. */
  function ChartData(c: ChartSeries): (r: string)
    ensures Count(r, '|') == 3 + Count(c.var95, '|') + Count(c.var99, '|') + Count(c.avg95, '|') + Count(c.avg99, '|')
  {
    var parts := [c.var95, c.var99, c.avg95, c.avg99];
    JoinCount(parts, '|');
    assert CountAll([c.avg99], '|') == Count(c.avg99, '|') by {
      assert [c.avg99][1..] == [];
    }
    assert CountAll([c.avg95, c.avg99], '|') == Count(c.avg95, '|') + Count(c.avg99, '|') by {
      assert [c.avg95, c.avg99][1..] == [c.avg99];
    }
    assert CountAll(parts[1..], '|') == Count(c.var99, '|') + Count(c.avg95, '|') + Count(c.avg99, '|') by {
      assert parts[1..][1..] == [c.avg95, c.avg99];
    }
    Join(parts, '|')
  }

  /** When the chart cannot be drawn, the index or the missing key is
      reported, in the order the source reads them. */
  lemma SeriesOkIff(hist: seq<Entry>, dates: seq<string>, lst95: seq<Json>, lst99: seq<Json>, show: Json -> string)
    ensures |hist| == 0 ==> Series(hist, dates, lst95, lst99, show) == Err(LastOfEmptyList)
    ensures |hist| > 0 && "var95" !in hist[|hist| - 1] ==> Series(hist, dates, lst95, lst99, show) == Err(KeyMissing("var95"))
    ensures |hist| > 0 && "var95" in hist[|hist| - 1] && "var99" !in hist[|hist| - 1] ==>
      Series(hist, dates, lst95, lst99, show) == Err(KeyMissing("var99"))
  {
  }

  /** Each average series holds one copy of the last entry's value per date:
      `|dates| - 1` commas between them, and splitting at the commas gives
      the copies back. */
  lemma AverageSeries(hist: seq<Entry>, dates: seq<string>, lst95: seq<Json>, lst99: seq<Json>, show: Json -> string)
    requires Series(hist, dates, lst95, lst99, show).Ok?
    ensures var c, last := Series(hist, dates, lst95, lst99, show).value, hist[|hist| - 1];
      (|dates| == 0 ==> c.avg95 == "" && c.avg99 == "") &&
      (|dates| > 0 && ',' !in show(last["var95"]) ==>
        Split(c.avg95, ',') == Repeat(show(last["var95"]), |dates|) && Count(c.avg95, ',') == |dates| - 1) &&
      (|dates| > 0 && ',' !in show(last["var99"]) ==>
        Split(c.avg99, ',') == Repeat(show(last["var99"]), |dates|) && Count(c.avg99, ',') == |dates| - 1)
  {
    var last := hist[|hist| - 1];
    var r95, r99 := Repeat(show(last["var95"]), |dates|), Repeat(show(last["var99"]), |dates|);
    if |dates| > 0 && ',' !in show(last["var95"]) {
      SplitJoin(r95, ',');
      JoinCount(r95, ',');
      CountAllFree(r95, ',');
    }
    if |dates| > 0 && ',' !in show(last["var99"]) {
      SplitJoin(r99, ',');
      JoinCount(r99, ',');
      CountAllFree(r99, ',');
    }
  }

  /** The date axis is the labels joined by `|`: it has `|dates| - 1`
      separators besides any inside the labels, and gives back the labels
      when none contains one. */
  lemma DateAxis(hist: seq<Entry>, dates: seq<string>, lst95: seq<Json>, lst99: seq<Json>, show: Json -> string)
    requires Series(hist, dates, lst95, lst99, show).Ok?
    ensures var c := Series(hist, dates, lst95, lst99, show).value;
      Count(c.dates, '|') == (if |dates| == 0 then 0 else |dates| - 1) + CountAll(dates, '|') &&
      (|dates| > 0 && Free(dates, '|') ==> Split(c.dates, '|') == dates && Count(c.dates, '|') == |dates| - 1)
  {
    JoinCount(dates, '|');
    if |dates| > 0 && Free(dates, '|') {
      SplitJoin(dates, '|');
      CountAllFree(dates, '|');
    }
  }

  /** The value series are the stored lists, value by value, joined by `,`. */
  lemma ValueSeries(hist: seq<Entry>, dates: seq<string>, lst95: seq<Json>, lst99: seq<Json>, show: Json -> string)
    requires Series(hist, dates, lst95, lst99, show).Ok?
    ensures var c := Series(hist, dates, lst95, lst99, show).value;
      (|lst95| > 0 && Free(MapSeq(show, lst95), ',') ==> Split(c.var95, ',') == MapSeq(show, lst95)) &&
      (|lst99| > 0 && Free(MapSeq(show, lst99), ',') ==> Split(c.var99, ',') == MapSeq(show, lst99))
  {
    if |lst95| > 0 && Free(MapSeq(show, lst95), ',') {
      SplitJoin(MapSeq(show, lst95), ',');
    }
    if |lst99| > 0 && Free(MapSeq(show, lst99), ',') {
      SplitJoin(MapSeq(show, lst99), ',');
    }
  }

  /** The chart data splits back into its four series when none holds a `|`. */
  lemma ChartDataSplits(c: ChartSeries)
    requires '|' !in c.var95 && '|' !in c.var99 && '|' !in c.avg95 && '|' !in c.avg99
    ensures Split(ChartData(c), '|') == [c.var95, c.var99, c.avg95, c.avg99]
  {
    SplitJoin([c.var95, c.var99, c.avg95, c.avg99], '|');
  }

  /** After a successful aggregation the chart can be drawn from what it
      wrote, and its average series repeat the two overall means. */
  lemma ChartAfterAggregate(store: map<string, Simulation.WorkerResult>, keys: seq<string>, history: seq<Entry>,
                            dates: seq<string>, show: Json -> string)
    requires Aggregate(store, keys, history).Ok?
    ensures var a := Aggregate(store, keys, history).value;
      var lst95, lst99 := MapSeq((x: real) => Num(x), a.lst95), MapSeq((x: real) => Num(x), a.lst99);
      Series(a.history, dates, lst95, lst99, show).Ok? &&
      Series(a.history, dates, lst95, lst99, show).value.avg95 == Join(Repeat(show(Num(a.var95)), |dates|), ',') &&
      Series(a.history, dates, lst95, lst99, show).value.avg99 == Join(Repeat(show(Num(a.var99)), |dates|), ',')
  {
    HistoryUpdate(store, keys, history);
  }
}
