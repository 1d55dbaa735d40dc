/** The coordinator's `calculate_averages`: the workers' quantile lists are
    read back by key, averaged column by column (the columns are those that
    `zip` forms, so the shortest list decides how many there are), the column
    means are averaged once more, and the last entry of the stored history
    has its two risk values replaced by those overall means. */
module Aggregation {
  import opened Failures
  import opened Seqs
  import opened Stats
  import opened Simulation

  /** A JSON value as the history file holds it. */
  datatype Json = Null | Bool(b: bool) | Num(n: real) | Str(s: string) | Arr(items: seq<Json>) | Obj(fields: map<string, Json>)

  /** One history entry: a JSON object. */
  type Entry = map<string, Json>

  /** What the coordinator produces: the two overall means it returns, the
      history it writes back, and the two column-mean lists it stores. */
  datatype Averages = Averages(var95: real, var99: real, history: seq<Entry>, lst95: seq<real>, lst99: seq<real>)

  /** The worker results stored under `keys`, in key order; the first key with
      nothing stored under it is reported. */
  function Load(store: map<string, WorkerResult>, keys: seq<string>): (r: Result<seq<WorkerResult>>)
    ensures r.Ok? <==> forall j :: 0 <= j < |keys| ==> keys[j] in store
    ensures r.Ok? ==> |r.value| == |keys| && forall j :: 0 <= j < |keys| ==> r.value[j] == store[keys[j]]
    ensures r.Err? ==> exists j :: (0 <= j < |keys| && keys[j] !in store && r.error == NoSuchKey(keys[j]) &&
      forall i :: 0 <= i < j ==> keys[i] in store)
  {
    if |keys| == 0 then Ok([])
    else
      var n := |keys|;
      var init := keys[..n - 1];
      assert forall j :: 0 <= j < n - 1 ==> init[j] == keys[j];
      match Load(store, init)
      case Err(e) => Err(e)
      case Ok(items) =>
        if keys[n - 1] in store then Ok(items + [store[keys[n - 1]]])
        else
          assert keys[n - 1] !in store && forall i :: 0 <= i < n - 1 ==> keys[i] in store;
          Err(NoSuchKey(keys[n - 1]))
  }

  /** What `zip(*rows)` yields columns for: the length of the shortest row. */
  function MinLen(rows: seq<seq<real>>): (n: nat)
    ensures forall r :: 0 <= r < |rows| ==> n <= |rows[r]|
    ensures |rows| > 0 ==> exists r :: 0 <= r < |rows| && n == |rows[r]|
    ensures |rows| == 0 ==> n == 0
  {
    if |rows| == 0 then 0
    else
      var rest := MinLen(rows[1..]);
      if |rows| == 1 || |rows[0]| <= rest then |rows[0]|
      else
        assert forall r :: 1 <= r < |rows| ==> rows[r] == rows[1..][r - 1];
        rest
  }

  /** Column `j` of `rows`: the `j`-th element of every row, in row order. */
  function Column(rows: seq<seq<real>>, j: nat): (r: seq<real>)
    ensures |r| == |rows|
    ensures forall k :: 0 <= k < |rows| && j < |rows[k]| ==> r[k] == rows[k][j]
  {
    MapSeq((row: seq<real>) => if j < |row| then row[j] else 0.0, rows)
  }

  /** `[mean(g) for g in zip(*rows)]`: one mean per column that `zip` forms. */
  function ColumnMeans(rows: seq<seq<real>>): (r: seq<real>)
    ensures |r| == MinLen(rows)
  {
    var n := MinLen(rows);
    seq(n, j requires 0 <= j < n => Mean(Column(rows, j)))
  }

  /** The history entry keeps every field other than the two risk values. */
  predicate OtherFieldsKept(before: Entry, after: Entry)
  {
    forall f :: f in before && f != "var95" && f != "var99" ==> f in after && after[f] == before[f]
  }

  /** The history entry with its two risk values replaced: it holds the two
      new values and keeps all its other fields. */
  function SetRisk(e: Entry, var95: real, var99: real): (r: Entry)
    ensures r.Keys == e.Keys + {"var95", "var99"}
    ensures "var95" in r && r["var95"] == Num(var95) && "var99" in r && r["var99"] == Num(var99)
    ensures OtherFieldsKept(e, r)
  {
    e["var95" := Num(var95)]["var99" := Num(var99)]
  }

  /** What follows the reading of the workers' lists: the two overall
      means, then the history rewrite. */
  function Finish(avg95: seq<real>, avg99: seq<real>, history: seq<Entry>): (r: Result<Averages>)
    ensures r.Ok? <==> |avg95| > 0 && |avg99| > 0 && |history| > 0
    ensures r.Err? ==> r.error == if |avg95| == 0 || |avg99| == 0 then MeanOfEmpty else PopFromEmptyList
    ensures r.Ok? ==> r.value.lst95 == avg95 && r.value.lst99 == avg99 && |r.value.history| == |history|
  {
    if |avg95| == 0 || |avg99| == 0 then Err(MeanOfEmpty)
    else if |history| == 0 then Err(PopFromEmptyList)
    else
      var s95, s99 := Mean(avg95), Mean(avg99);
      var n := |history|;
      Ok(Averages(s95, s99, history[..n - 1] + [SetRisk(history[n - 1], s95, s99)], avg95, avg99))
  }

  /** The whole of `calculate_averages` once the store and the history are given. */
  function Aggregate(store: map<string, WorkerResult>, keys: seq<string>, history: seq<Entry>): (r: Result<Averages>)
    ensures r.Ok? ==> (forall j :: 0 <= j < |keys| ==> keys[j] in store) && |keys| > 0 && |history| > 0
    ensures r.Ok? ==> |r.value.history| == |history|
  {
    match Load(store, keys)
    case Err(e) => Err(e)
    case Ok(items) =>
      Finish(ColumnMeans(MapSeq((w: WorkerResult) => w.var95, items)),
        ColumnMeans(MapSeq((w: WorkerResult) => w.var99, items)), history)
  }

  /** The coordinator: gathers the workers' lists key by key, averages them,
      and rewrites the last history entry by pop, assignment and append. */
  method CalculateAverages(store: map<string, WorkerResult>, keys: seq<string>, history: seq<Entry>)
    returns (r: Result<Averages>)
    ensures r == Aggregate(store, keys, history)
  {
    var rows95: seq<seq<real>> := [];
    var rows99: seq<seq<real>> := [];
    for i := 0 to |keys|
      invariant forall j :: 0 <= j < i ==> keys[j] in store
      invariant |rows95| == i && |rows99| == i
      invariant forall j :: 0 <= j < i ==> rows95[j] == store[keys[j]].var95 && rows99[j] == store[keys[j]].var99
    {
      if keys[i] !in store {
        LoadFirstMissing(store, keys, i);
        return Err(NoSuchKey(keys[i]));
      }
      var item := store[keys[i]];
      rows95 := rows95 + [item.var95];
      rows99 := rows99 + [item.var99];
    }
    var items := Load(store, keys).value;
    assert rows95 == MapSeq((w: WorkerResult) => w.var95, items);
    assert rows99 == MapSeq((w: WorkerResult) => w.var99, items);
    var avg95 := ColumnMeans(rows95);
    var avg99 := ColumnMeans(rows99);
    if |avg95| == 0 || |avg99| == 0 {
      return Err(MeanOfEmpty);
    }
    var sum95 := Mean(avg95);
    var sum99 := Mean(avg99);
    var item := history;
    if |item| == 0 {
      return Err(PopFromEmptyList);
    }
    var last := item[|item| - 1];
    item := item[..|item| - 1];
    last := last["var95" := Num(sum95)];
    last := last["var99" := Num(sum99)];
    item := item + [last];
    r := Ok(Averages(sum95, sum99, item, avg95, avg99));
  }

  /** The first key with nothing stored under it is the one reported. */
  lemma LoadFirstMissing(store: map<string, WorkerResult>, keys: seq<string>, i: nat)
    requires i < |keys| && keys[i] !in store && forall j :: 0 <= j < i ==> keys[j] in store
    ensures Load(store, keys) == Err(NoSuchKey(keys[i]))
  {
    var j :| 0 <= j < |keys| && keys[j] !in store && Load(store, keys).error == NoSuchKey(keys[j]) &&
      forall i' :: 0 <= i' < j ==> keys[i'] in store;
  }

  /** The rows of one risk level, one per key, when every key is stored. */
  function Rows95(store: map<string, WorkerResult>, keys: seq<string>): seq<seq<real>>
    requires forall j :: 0 <= j < |keys| ==> keys[j] in store
  {
    seq(|keys|, j requires 0 <= j < |keys| => store[keys[j]].var95)
  }

  function Rows99(store: map<string, WorkerResult>, keys: seq<string>): seq<seq<real>>
    requires forall j :: 0 <= j < |keys| ==> keys[j] in store
  {
    seq(|keys|, j requires 0 <= j < |keys| => store[keys[j]].var99)
  }

  /** With every key stored, the run averages exactly the stored lists. */
  lemma AggregateRows(store: map<string, WorkerResult>, keys: seq<string>)
    requires forall j :: 0 <= j < |keys| ==> keys[j] in store
    ensures var items := Load(store, keys).value;
      MapSeq((w: WorkerResult) => w.var95, items) == Rows95(store, keys) &&
      MapSeq((w: WorkerResult) => w.var99, items) == Rows99(store, keys)
  {
  }

  /** There are as many column means as the shortest row has elements, and
      mean `j` is the mean of the `j`-th elements of all rows. */
  lemma ColumnMeansSpec(rows: seq<seq<real>>)
    ensures |ColumnMeans(rows)| == MinLen(rows)
    ensures forall r :: 0 <= r < |rows| ==> |ColumnMeans(rows)| <= |rows[r]|
    ensures forall j :: 0 <= j < |ColumnMeans(rows)| ==>
      |rows| > 0 && ColumnMeans(rows)[j] == Mean(seq(|rows|, r requires 0 <= r < |rows| => rows[r][j]))
  {
    forall j | 0 <= j < MinLen(rows)
      ensures Column(rows, j) == seq(|rows|, r requires 0 <= r < |rows| => rows[r][j])
    {
    }
  }

  /** Column means are empty exactly when there is no row or some row is empty. */
  lemma ColumnMeansEmpty(rows: seq<seq<real>>)
    ensures |ColumnMeans(rows)| == 0 <==> |rows| == 0 || exists r :: 0 <= r < |rows| && |rows[r]| == 0
  {
  }

  /** The shortest length does not depend on the order of the rows. */
  lemma MinLenPermutation(a: seq<seq<real>>, b: seq<seq<real>>)
    requires multiset(a) == multiset(b)
    ensures MinLen(a) == MinLen(b)
  {
    assert |a| == |multiset(a)| == |b|;
    if |a| > 0 {
      var ra :| 0 <= ra < |a| && MinLen(a) == |a[ra]|;
      var rb :| 0 <= rb < |b| && MinLen(b) == |b[rb]|;
      assert a[ra] in multiset(b) && b[rb] in multiset(a);
      var kb :| 0 <= kb < |b| && b[kb] == a[ra];
      var ka :| 0 <= ka < |a| && a[ka] == b[rb];
    }
  }

  /** Column means do not depend on the order of the rows. */
  lemma ColumnMeansPermutation(a: seq<seq<real>>, b: seq<seq<real>>)
    requires multiset(a) == multiset(b)
    ensures ColumnMeans(a) == ColumnMeans(b)
  {
    MinLenPermutation(a, b);
    forall j | 0 <= j < MinLen(a)
      ensures ColumnMeans(a)[j] == ColumnMeans(b)[j]
    {
      var f := (row: seq<real>) => if j < |row| then row[j] else 0.0;
      MapSeqPermutation(f, a, b);
      MeanPermutation(Column(a, j), Column(b, j));
    }
  }

  /** Workers that all return the same list average to that list. */
  lemma ColumnMeansOfCopies(x: seq<real>, n: nat)
    requires n > 0
    ensures ColumnMeans(Repeat(x, n)) == x
  {
    var rows := Repeat(x, n);
    assert MinLen(rows) == |x|;
    forall j | 0 <= j < |x|
      ensures ColumnMeans(rows)[j] == x[j]
    {
      assert Column(rows, j) == Repeat(x[j], n);
      MeanRepeat(x[j], n);
    }
  }

  /** Column means stay within any bounds that every value respects. */
  lemma ColumnMeansBetween(rows: seq<seq<real>>, lo: real, hi: real)
    requires forall r, j :: 0 <= r < |rows| && 0 <= j < |rows[r]| ==> lo <= rows[r][j] <= hi
    ensures forall j :: 0 <= j < |ColumnMeans(rows)| ==> lo <= ColumnMeans(rows)[j] <= hi
  {
    forall j | 0 <= j < |ColumnMeans(rows)|
      ensures lo <= ColumnMeans(rows)[j] <= hi
    {
      MeanBetween(Column(rows, j), lo, hi);
    }
  }

  /** The run succeeds exactly when every key is stored, there is at least
      one key, no stored list is empty, and the history has an entry to pop. */
  lemma AggregateOkIff(store: map<string, WorkerResult>, keys: seq<string>, history: seq<Entry>)
    ensures Aggregate(store, keys, history).Ok? <==>
      (forall j :: 0 <= j < |keys| ==> keys[j] in store) && |keys| > 0 &&
      (forall j :: 0 <= j < |keys| ==> |store[keys[j]].var95| > 0 && |store[keys[j]].var99| > 0) &&
      |history| > 0
  {
    if forall j :: 0 <= j < |keys| ==> keys[j] in store {
      AggregateRows(store, keys);
      ColumnMeansEmpty(Rows95(store, keys));
      ColumnMeansEmpty(Rows99(store, keys));
    }
  }

  /** The errors, in the order the source raises them: a missing key, then
      `mean` of no columns, then `pop` from an empty history. */
  lemma AggregateErrors(store: map<string, WorkerResult>, keys: seq<string>, history: seq<Entry>)
    ensures forall i :: 0 <= i < |keys| && keys[i] !in store && (forall j :: 0 <= j < i ==> keys[j] in store) ==>
      Aggregate(store, keys, history) == Err(NoSuchKey(keys[i]))
    ensures ((forall j :: 0 <= j < |keys| ==> keys[j] in store) &&
      (|keys| == 0 || exists j :: 0 <= j < |keys| && (|store[keys[j]].var95| == 0 || |store[keys[j]].var99| == 0))) ==>
      Aggregate(store, keys, history) == Err(MeanOfEmpty)
  {
    forall i | 0 <= i < |keys| && keys[i] !in store && (forall j :: 0 <= j < i ==> keys[j] in store)
      ensures Aggregate(store, keys, history) == Err(NoSuchKey(keys[i]))
    {
      LoadFirstMissing(store, keys, i);
    }
    if forall j :: 0 <= j < |keys| ==> keys[j] in store {
      AggregateRows(store, keys);
      ColumnMeansEmpty(Rows95(store, keys));
      ColumnMeansEmpty(Rows99(store, keys));
    }
  }

  /** With no keys there are no columns, and `mean` of them fails. */
  lemma NoKeysFails(store: map<string, WorkerResult>, history: seq<Entry>)
    ensures Aggregate(store, [], history) == Err(MeanOfEmpty)
  {
    AggregateErrors(store, [], history);
  }

  /** An empty history fails at `pop` once the averages exist. */
  lemma EmptyHistoryFails(store: map<string, WorkerResult>, keys: seq<string>)
    requires (forall j :: 0 <= j < |keys| ==> keys[j] in store) && |keys| > 0
    requires forall j :: 0 <= j < |keys| ==> |store[keys[j]].var95| > 0 && |store[keys[j]].var99| > 0
    ensures Aggregate(store, keys, []) == Err(PopFromEmptyList)
  {
    AggregateRows(store, keys);
    ColumnMeansEmpty(Rows95(store, keys));
    ColumnMeansEmpty(Rows99(store, keys));
  }

  /** The history keeps its length; every entry but the last is unchanged;
      the last gets the two overall means and keeps all its other fields. */
  lemma HistoryUpdate(store: map<string, WorkerResult>, keys: seq<string>, history: seq<Entry>)
    requires Aggregate(store, keys, history).Ok?
    ensures |history| > 0
    ensures var a := Aggregate(store, keys, history).value;
      |a.history| == |history| &&
      (forall k :: 0 <= k < |history| - 1 ==> a.history[k] == history[k]) &&
      a.history[|history| - 1]["var95"] == Num(a.var95) && a.history[|history| - 1]["var99"] == Num(a.var99) &&
      a.history[|history| - 1].Keys == history[|history| - 1].Keys + {"var95", "var99"} &&
      OtherFieldsKept(history[|history| - 1], a.history[|history| - 1])
  {
    var items := Load(store, keys).value;
    var avg95 := ColumnMeans(MapSeq((w: WorkerResult) => w.var95, items));
    var avg99 := ColumnMeans(MapSeq((w: WorkerResult) => w.var99, items));
    assert Aggregate(store, keys, history) == Finish(avg95, avg99, history);
  }

  /** On success the stored lists are the column means, cut to the shortest
      worker list, and the returned values are their means. */
  lemma AggregateMeans(store: map<string, WorkerResult>, keys: seq<string>, history: seq<Entry>)
    requires Aggregate(store, keys, history).Ok?
    ensures forall j :: 0 <= j < |keys| ==> keys[j] in store
    ensures var a := Aggregate(store, keys, history).value;
      a.lst95 == ColumnMeans(Rows95(store, keys)) && a.lst99 == ColumnMeans(Rows99(store, keys)) &&
      |a.lst95| == MinLen(Rows95(store, keys)) && |a.lst99| == MinLen(Rows99(store, keys)) &&
      |a.lst95| > 0 && |a.lst99| > 0 &&
      a.var95 == Mean(a.lst95) && a.var99 == Mean(a.lst99)
  {
    AggregateRows(store, keys);
    ColumnMeansSpec(Rows95(store, keys));
    ColumnMeansSpec(Rows99(store, keys));
  }

  /** Reading the same keys in another order gives the same averages and
      the same history; a run fails in one order exactly when it fails in
      the other (the first missing key it reports may differ). */
  lemma AggregatePermutation(store: map<string, WorkerResult>, a: seq<string>, b: seq<string>, history: seq<Entry>)
    requires multiset(a) == multiset(b)
    ensures Aggregate(store, a, history).Ok? <==> Aggregate(store, b, history).Ok?
    ensures (forall j :: 0 <= j < |a| ==> a[j] in store) ==> Aggregate(store, a, history) == Aggregate(store, b, history)
  {
    assert forall k :: k in a <==> k in b by {
      forall k ensures k in a <==> k in b {
        assert k in a <==> k in multiset(a);
        assert k in b <==> k in multiset(b);
      }
    }
    if forall j :: 0 <= j < |a| ==> a[j] in store {
      assert forall j :: 0 <= j < |b| ==> b[j] in store by {
        forall j | 0 <= j < |b| ensures b[j] in store {
          assert b[j] in b;
          var i :| 0 <= i < |a| && a[i] == b[j];
        }
      }
      var fetch := (k: string) => if k in store then store[k] else WorkerResult([], [], []);
      var ia, ib := Load(store, a).value, Load(store, b).value;
      assert ia == MapSeq(fetch, a);
      assert ib == MapSeq(fetch, b);
      MapSeqPermutation(fetch, a, b);
      MapSeqPermutation((w: WorkerResult) => w.var95, ia, ib);
      MapSeqPermutation((w: WorkerResult) => w.var99, ia, ib);
      ColumnMeansPermutation(MapSeq((w: WorkerResult) => w.var95, ia), MapSeq((w: WorkerResult) => w.var95, ib));
      ColumnMeansPermutation(MapSeq((w: WorkerResult) => w.var99, ia), MapSeq((w: WorkerResult) => w.var99, ib));
    } else {
      var i :| 0 <= i < |a| && a[i] !in store;
      assert a[i] in b;
    }
  }

  /** If every value any worker reports lies in `[lo, hi]`, so do both overall means. */
  lemma AggregateBetween(store: map<string, WorkerResult>, keys: seq<string>, history: seq<Entry>, lo: real, hi: real)
    requires Aggregate(store, keys, history).Ok?
    requires forall k, j :: k in store && 0 <= j < |store[k].var95| ==> lo <= store[k].var95[j] <= hi
    requires forall k, j :: k in store && 0 <= j < |store[k].var99| ==> lo <= store[k].var99[j] <= hi
    ensures lo <= Aggregate(store, keys, history).value.var95 <= hi
    ensures lo <= Aggregate(store, keys, history).value.var99 <= hi
  {
    AggregateMeans(store, keys, history);
    var a := Aggregate(store, keys, history).value;
    ColumnMeansBetween(Rows95(store, keys), lo, hi);
    ColumnMeansBetween(Rows99(store, keys), lo, hi);
    MeanBetween(a.lst95, lo, hi);
    MeanBetween(a.lst99, lo, hi);
  }

  /** Workers that all stored the same lists yield those lists as the column
      means (the keys may repeat one worker's key). */
  lemma AggregateOfOneWorker(store: map<string, WorkerResult>, key: string, n: nat, history: seq<Entry>)
    requires key in store && n > 0
    requires |store[key].var95| > 0 && |store[key].var99| > 0 && |history| > 0
    ensures Aggregate(store, Repeat(key, n), history).Ok?
    ensures Aggregate(store, Repeat(key, n), history).value.lst95 == store[key].var95
    ensures Aggregate(store, Repeat(key, n), history).value.lst99 == store[key].var99
  {
    var keys := Repeat(key, n);
    AggregateOkIff(store, keys, history);
    AggregateMeans(store, keys, history);
    assert Rows95(store, keys) == Repeat(store[key].var95, n);
    assert Rows99(store, keys) == Repeat(store[key].var99, n);
    ColumnMeansOfCopies(store[key].var95, n);
    ColumnMeansOfCopies(store[key].var99, n);
  }

  /** Two workers whose lists have three and four entries. */
  function UnevenRows(): seq<seq<real>>
  {
    [[1.0, 2.0, 3.0], [3.0, 4.0, 5.0, 6.0]]
  }

  /** `zip` drops the fourth entry of the longer list instead of failing. */
  lemma UnevenRowsTruncate()
    ensures ColumnMeans(UnevenRows()) == [2.0, 3.0, 4.0]
  {
    var rows := UnevenRows();
    assert MinLen(rows) == 3 by {
      assert MinLen(rows[1..]) == 4;
    }
    forall j | 0 <= j < 3
      ensures Column(rows, j) == [rows[0][j], rows[1][j]]
    {
    }
    ColumnMeansSpec(rows);
  }
}
