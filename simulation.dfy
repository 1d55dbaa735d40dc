/** The worker's `process_data`: for every index past the look-back whose
    chosen signal flag is set, the percentage changes of the preceding window
    are summarised, a set of Gaussian samples is sorted in descending order,
    and the samples at the 95% and 99% positions are recorded.

    The Gaussian generator is an input: `draws[i]` is the list of samples it
    yields when index `i` is simulated, so `|draws[i]|` is the shot count. */
module Simulation {
  import opened Failures
  import opened Stats
  import opened Sorting

  /** The stored series: closing prices, buy and sell flags, date labels. */
  datatype Payload = Payload(close: seq<real>, buy: seq<int>, sell: seq<int>, dates: seq<string>)

  datatype Quantiles = Quantiles(var95: real, var99: real)

  /** What a worker stores under its fresh key. */
  datatype WorkerResult = WorkerResult(var95: seq<real>, var99: seq<real>, dates: seq<string>)

  datatype Lists = Lists(var95: seq<real>, var99: seq<real>)

  /** Whether index `i` is simulated for signal type `t`. Only the flag list
      that `t` names is read; any other `t` selects nothing. */
  function Flag(t: string, p: Payload, i: nat): (r: Result<bool>)
    ensures r.Err? <==> (t == "buy" && i >= |p.buy|) || (t == "sell" && i >= |p.sell|)
    ensures r.Err? ==> r.error == FlagIndexOutOfRange(i)
    ensures r == Ok(true) <==>
      (t == "buy" && i < |p.buy| && p.buy[i] == 1) || (t == "sell" && i < |p.sell| && p.sell[i] == 1)
  {
    if t == "buy" then
      (if i < |p.buy| then Ok(p.buy[i] == 1) else Err(FlagIndexOutOfRange(i)))
    else if t == "sell" then
      (if i < |p.sell| then Ok(p.sell[i] == 1) else Err(FlagIndexOutOfRange(i)))
    else Ok(false)
  }

  /** Consecutive percentage changes of a window, left to right: one fewer
      than there are prices, or the division by zero that stops them. */
  function Changes(w: seq<real>): (r: Result<seq<real>>)
    ensures r.Err? ==> r.error == ZeroDivision
    ensures r.Ok? ==> |r.value| == if |w| == 0 then 0 else |w| - 1
  {
    if |w| < 2 then Ok([])
    else if w[0] == 0.0 then Err(ZeroDivision)
    else
      match Changes(w[1..])
      case Err(e) => Err(e)
      case Ok(rest) => Ok([(w[1] - w[0]) / w[0]] + rest)
  }

  /** The changes are defined unless a divisor is zero; there is one fewer
      than the window has prices, and change `k` is the relative move from
      price `k` to price `k + 1`. */
  lemma {:induction false} ChangesSpec(w: seq<real>)
    ensures Changes(w).Ok? <==> forall k :: 0 <= k < |w| - 1 ==> w[k] != 0.0
    ensures Changes(w).Err? ==> Changes(w).error == ZeroDivision
    ensures Changes(w).Ok? ==> |Changes(w).value| == if |w| == 0 then 0 else |w| - 1
    ensures Changes(w).Ok? ==> forall k :: 0 <= k < |Changes(w).value| ==>
      Changes(w).value[k] == (w[k + 1] - w[k]) / w[k]
  {
    if |w| >= 2 && w[0] != 0.0 {
      ChangesSpec(w[1..]);
      var rest := Changes(w[1..]);
      if rest.Ok? {
        assert Changes(w).value == [(w[1] - w[0]) / w[0]] + rest.value;
      }
    }
  }

  /** Position of the 95% sample among `n`: the integer part of `n * 0.95`,
      computed exactly. */
  function Index95(n: nat): (r: nat)
    ensures 100 * r <= 95 * n < 100 * r + 100
  {
    (95 * n) / 100
  }

  /** Position of the 99% sample among `n`: the integer part of `n * 0.99`,
      computed exactly. */
  function Index99(n: nat): (r: nat)
    ensures 100 * r <= 99 * n < 100 * r + 100
  {
    (99 * n) / 100
  }

  /** For at least one sample both positions are in range, the 95% one first. */
  lemma QuantileIndices(n: nat)
    requires n >= 1
    ensures 0 <= Index95(n) <= Index99(n) < n
  {
  }

  /** Sorts the samples in descending order and picks the two quantiles. */
  function Pick(samples: seq<real>): (r: Result<Quantiles>)
    ensures r.Err? <==> |samples| == 0
    ensures r.Err? ==> r.error == SampleIndexOutOfRange
    ensures r.Ok? ==> r.value.var95 >= r.value.var99
    ensures r.Err? ==> r.error in {ZeroDivision, MeanOfEmpty, StdevNeedsTwo, SampleIndexOutOfRange}
    ensures r.Ok? ==> r.value.var95 in multiset(samples) && r.value.var99 in multiset(samples)
  {
    if |samples| == 0 then Err(SampleIndexOutOfRange)
    else
      var sorted := SortDescending(samples);
      var n := |samples|;
      SortedPicks(sorted);
      Ok(Quantiles(sorted[Index95(n)], sorted[Index99(n)]))
  }

  /** In a descending sequence the 95% pick is in range and at least the 99% pick. */
  lemma SortedPicks(sorted: seq<real>)
    requires |sorted| >= 1 && SortedDesc(sorted)
    ensures Index95(|sorted|) <= Index99(|sorted|) < |sorted|
    ensures sorted[Index95(|sorted|)] >= sorted[Index99(|sorted|)]
    ensures sorted[Index95(|sorted|)] in multiset(sorted) && sorted[Index99(|sorted|)] in multiset(sorted)
  {
    QuantileIndices(|sorted|);
  }

  /** Any descending arrangement `t` of the samples yields the same picks:
      the result does not depend on how the samples are sorted. */
  lemma PickFromAnyDescending(samples: seq<real>, t: seq<real>)
    requires |samples| > 0 && SortedDesc(t) && multiset(t) == multiset(samples)
    ensures |t| == |samples| && Index99(|t|) < |t|
    ensures Pick(samples) == Ok(Quantiles(t[Index95(|t|)], t[Index99(|t|)]))
  {
    assert |t| == |multiset(t)| == |samples|;
    SortedUnique(SortDescending(samples), t);
  }

  /** The picks depend only on which samples were drawn, not on their order. */
  lemma PickPermutation(a: seq<real>, b: seq<real>)
    requires multiset(a) == multiset(b)
    ensures Pick(a) == Pick(b)
  {
    assert |a| == |multiset(a)| == |multiset(b)| == |b|;
    if |a| > 0 {
      PickFromAnyDescending(b, SortDescending(a));
    }
  }

  /** The simulation at a triggered index `i`: window, changes, mean and
      standard deviation, then the sample quantiles. */
  function Evaluate(p: Payload, draws: seq<seq<real>>, m: nat, i: nat): (r: Result<Quantiles>)
    requires m <= i < |p.close| && |draws| == |p.close|
    ensures r.Ok? ==> r.value.var95 >= r.value.var99
  {
    match Changes(p.close[i - m..i])
    case Err(e) => Err(e)
    case Ok(pct) =>
      match Describe(pct)
      case Err(e) => Err(e)
      case Ok(_) => Pick(draws[i])
  }

  /** One iteration of the loop over `i`: nothing for an index that is not
      triggered, the two quantiles for one that is, or the error raised. */
  function Step(t: string, p: Payload, draws: seq<seq<real>>, m: nat, i: nat): (r: Result<Option<Quantiles>>)
    requires m <= i < |p.close| && |draws| == |p.close|
    ensures r.Ok? <==> Flag(t, p, i).Ok? && (Flag(t, p, i).value ==> Evaluate(p, draws, m, i).Ok?)
    ensures r.Ok? ==> (r.value.Some? <==> Flag(t, p, i) == Ok(true))
  {
    Gate(Flag(t, p, i), Evaluate(p, draws, m, i))
  }

  /** The flag test of an iteration, then its simulation if the flag is set. */
  function Gate(flag: Result<bool>, outcome: Result<Quantiles>): (r: Result<Option<Quantiles>>)
    ensures r.Ok? <==> flag.Ok? && (flag.value ==> outcome.Ok?)
    ensures r.Ok? ==> (r.value.None? <==> !flag.value)
    ensures r.Ok? && flag.value ==> r.value == Some(outcome.value)
    ensures r.Err? ==> r.error == if flag.Err? then flag.error else outcome.error
  {
    match flag
    case Err(e) => Err(e)
    case Ok(hit) =>
      if !hit then Ok(None)
      else
        match outcome
        case Err(e) => Err(e)
        case Ok(q) => Ok(Some(q))
  }

  datatype Option<+T> = None | Some(value: T)

  /** What one iteration of the loop yields. */
  type Outcome = Result<Option<Quantiles>>

  /** The iterations of the loop, in order: entry `j` is the outcome at
      index `m + j`; there are none once `m` passes the last price. */
  function Steps(t: string, p: Payload, draws: seq<seq<real>>, m: nat): (r: seq<Outcome>)
    requires |draws| == |p.close|
    ensures |r| == if m <= |p.close| then |p.close| - m else 0
  {
    var n := if m <= |p.close| then |p.close| - m else 0;
    seq(n, j requires 0 <= j < n => Step(t, p, draws, m, m + j))
  }

  /** One more iteration on top of the lists built so far; an earlier error wins. */
  function Extend(acc: Result<Lists>, step: Outcome): (r: Result<Lists>)
    ensures r.Ok? <==> acc.Ok? && step.Ok?
    ensures r.Ok? ==> var grown := if step.value.Some? then 1 else 0;
      |r.value.var95| == |acc.value.var95| + grown && |r.value.var99| == |acc.value.var99| + grown
  {
    match acc
    case Err(e) => Err(e)
    case Ok(l) =>
      match step
      case Err(e) => Err(e)
      case Ok(None) => Ok(l)
      case Ok(Some(q)) => Ok(Lists(l.var95 + [q.var95], l.var99 + [q.var99]))
  }

  /** The loop run over a sequence of iterations: the two lists it appends
      to, or the first error raised. */
  function Fold(steps: seq<Outcome>): (r: Result<Lists>)
    ensures r.Ok? ==> |r.value.var95| == |r.value.var99| <= |steps|
  {
    if |steps| == 0 then Ok(Lists([], []))
    else Extend(Fold(steps[..|steps| - 1]), steps[|steps| - 1])
  }

  /** The positions of the iterations that recorded a pair of quantiles. */
  function Hits(steps: seq<Outcome>): seq<nat>
  {
    if |steps| == 0 then []
    else
      var last := steps[|steps| - 1];
      Hits(steps[..|steps| - 1]) + (if last.Ok? && last.value.Some? then [|steps| - 1] else [])
  }

  /** The triggered indices in `[m, hi)`, ascending. */
  function Triggered(t: string, p: Payload, m: nat, hi: nat): (r: seq<nat>)
    ensures |r| <= if hi <= m then 0 else hi - m
    ensures forall k :: 0 <= k < |r| ==> m <= r[k] < hi
    decreases hi
  {
    if hi <= m then []
    else Triggered(t, p, m, hi - 1) + (if Flag(t, p, hi - 1) == Ok(true) then [hi - 1] else [])
  }

  /** `data['dates'][minhistory:]`: empty once `m` passes the end. */
  function Tail(dates: seq<string>, m: nat): (r: seq<string>)
    ensures |r| == if m <= |dates| then |dates| - m else 0
    ensures forall k :: 0 <= k < |r| ==> r[k] == dates[m + k]
  {
    if m <= |dates| then dates[m..] else []
  }

  /** The whole of `process_data` once the payload is loaded. */
  function Run(t: string, p: Payload, draws: seq<seq<real>>, m: nat): (r: Result<WorkerResult>)
    requires |draws| == |p.close|
    ensures r.Ok? ==> |r.value.var95| == |r.value.var99| <= |p.close|
    ensures r.Ok? ==> r.value.dates == Tail(p.dates, m)
  {
    match Fold(Steps(t, p, draws, m))
    case Err(e) => Err(e)
    case Ok(acc) => Ok(WorkerResult(acc.var95, acc.var99, Tail(p.dates, m)))
  }

  /** The body of the loop at a triggered index `i`: the window, its
      percentage changes, their mean and standard deviation, the samples
      sorted in descending order and the two picks. */
  method SimulateAt(p: Payload, draws: seq<seq<real>>, m: nat, i: nat) returns (r: Result<Quantiles>)
    requires m <= i < |p.close| && |draws| == |p.close|
    ensures r == Evaluate(p, draws, m, i)
  {
    var closeData := p.close[i - m..i];
    var pctChange :- Changes(closeData);
    var moments :- Describe(pctChange);
    var simulated := draws[i];
    simulated := SortDescending(simulated);
    if |simulated| == 0 {
      return Err(SampleIndexOutOfRange);
    }
    QuantileIndices(|simulated|);
    var var95 := simulated[Index95(|simulated|)];
    var var99 := simulated[Index99(|simulated|)];
    r := Ok(Quantiles(var95, var99));
  }

  /** The worker loop over `i` in `[m, |close|)`, appending to the two
      quantile lists as it goes. */
  method ProcessData(t: string, p: Payload, draws: seq<seq<real>>, m: nat) returns (r: Result<WorkerResult>)
    requires |draws| == |p.close|
    ensures r == Run(t, p, draws, m)
  {
    ghost var steps := Steps(t, p, draws, m);
    var var95List: seq<real> := [];
    var var99List: seq<real> := [];
    var i := m;
    while i < |p.close|
      invariant m <= i && (i <= |p.close| || i == m)
      invariant Fold(steps[..i - m]) == Ok(Lists(var95List, var99List))
    {
      FoldNext(t, p, draws, m, i, Lists(var95List, var99List));
      var triggered: bool;
      if t == "buy" {
        if i >= |p.buy| {
          return Err(FlagIndexOutOfRange(i));
        }
        triggered := p.buy[i] == 1;
      } else if t == "sell" {
        if i >= |p.sell| {
          return Err(FlagIndexOutOfRange(i));
        }
        triggered := p.sell[i] == 1;
      } else {
        triggered := false;
      }
      assert Flag(t, p, i) == Ok(triggered);
      if triggered {
        var q :- SimulateAt(p, draws, m, i);
        var95List := var95List + [q.var95];
        var99List := var99List + [q.var99];
      }
      i := i + 1;
    }
    assert steps[..i - m] == steps;
    r := Ok(WorkerResult(var95List, var99List, Tail(p.dates, m)));
  }

  /** The loop after the iteration at `i`, on top of the lists `l` of the
      earlier ones: a failed flag test or simulation is the error of the
      whole run, an unset flag keeps the lists, and a simulation appends
      its two quantiles. */
  lemma FoldNext(t: string, p: Payload, draws: seq<seq<real>>, m: nat, i: nat, l: Lists)
    requires m <= i < |p.close| && |draws| == |p.close|
    requires Fold(Steps(t, p, draws, m)[..i - m]) == Ok(l)
    ensures var next, flag := Fold(Steps(t, p, draws, m)[..i - m + 1]), Flag(t, p, i);
      (flag.Err? ==> Run(t, p, draws, m) == Err(flag.error)) &&
      (flag == Ok(false) ==> next == Ok(l)) &&
      (flag == Ok(true) && Evaluate(p, draws, m, i).Err? ==> Run(t, p, draws, m) == Err(Evaluate(p, draws, m, i).error)) &&
      (flag == Ok(true) && Evaluate(p, draws, m, i).Ok? ==>
        var q := Evaluate(p, draws, m, i).value; next == Ok(Lists(l.var95 + [q.var95], l.var99 + [q.var99])))
  {
    var steps := Steps(t, p, draws, m);
    StepAt(t, p, draws, m, i);
    assert steps[..i - m + 1][..i - m] == steps[..i - m];
    FoldPrefixError(steps, i - m + 1);
  }

  /** Entry `i - m` of the iterations is the iteration at index `i`. */
  lemma StepAt(t: string, p: Payload, draws: seq<seq<real>>, m: nat, i: nat)
    requires m <= i < |p.close| && |draws| == |p.close|
    ensures |Steps(t, p, draws, m)| == |p.close| - m
    ensures Steps(t, p, draws, m)[i - m] == Step(t, p, draws, m, i)
    ensures Step(t, p, draws, m, i) == Gate(Flag(t, p, i), Evaluate(p, draws, m, i))
  {
    assert m + (i - m) == i;
  }

  lemma ExtendOk(acc: Result<Lists>, step: Outcome)
    requires Extend(acc, step).Ok?
    ensures acc.Ok? && step.Ok?
    ensures step.value.None? ==> Extend(acc, step) == acc
    ensures step.value.Some? ==>
      (var q := step.value.value; Extend(acc, step) == Ok(Lists(acc.value.var95 + [q.var95], acc.value.var99 + [q.var99])))
  {
  }

  /** The loop completes exactly when no iteration raises. */
  lemma {:induction false} FoldOkIff(steps: seq<Outcome>)
    ensures Fold(steps).Ok? <==> forall j :: 0 <= j < |steps| ==> steps[j].Ok?
  {
    if |steps| > 0 {
      FoldOkIff(steps[..|steps| - 1]);
    }
  }

  /** A failed loop carries the error of its first failing iteration. */
  lemma {:induction false} FoldFirstError(steps: seq<Outcome>)
    requires Fold(steps).Err?
    ensures exists j :: (0 <= j < |steps| && steps[j] == Err(Fold(steps).error) &&
      forall i :: 0 <= i < j ==> steps[i].Ok?)
  {
    var n := |steps|;
    var init := steps[..n - 1];
    assert forall i :: 0 <= i < n - 1 ==> steps[i] == init[i];
    if Fold(init).Err? {
      FoldFirstError(init);
      var j :| 0 <= j < |init| && init[j] == Err(Fold(init).error) && forall i :: 0 <= i < j ==> init[i].Ok?;
      assert Fold(steps) == Fold(init);
    } else {
      FoldOkIff(init);
      assert steps[n - 1] == Err(Fold(steps).error);
    }
  }

  /** Once the loop has failed, later iterations do not change its result. */
  lemma {:induction false} FoldPrefixError(steps: seq<Outcome>, n: nat)
    requires n <= |steps|
    ensures Fold(steps[..n]).Err? ==> Fold(steps) == Fold(steps[..n])
    decreases |steps|
  {
    if n < |steps| {
      var init := steps[..|steps| - 1];
      assert init[..n] == steps[..n];
      FoldPrefixError(init, n);
    } else {
      assert steps[..n] == steps;
    }
  }

  /** A completed loop holds, in order, the quantiles of the iterations that recorded some. */
  lemma {:induction false} FoldLists(steps: seq<Outcome>)
    requires Fold(steps).Ok?
    ensures var l, h := Fold(steps).value, Hits(steps);
      |l.var95| == |h| && |l.var99| == |h| &&
      forall k :: 0 <= k < |h| ==> h[k] < |steps| && steps[h[k]] == Ok(Some(Quantiles(l.var95[k], l.var99[k])))
  {
    if |steps| > 0 {
      var init, last := steps[..|steps| - 1], steps[|steps| - 1];
      ExtendOk(Fold(init), last);
      FoldLists(init);
      var l, h := Fold(steps).value, Hits(steps);
      var l0, h0 := Fold(init).value, Hits(init);
      forall k | 0 <= k < |h0| ensures h0[k] < |steps| - 1 && steps[h0[k]] == init[h0[k]] {
      }
      if last.value.Some? {
        assert h == h0 + [|steps| - 1];
        assert l == Lists(l0.var95 + [last.value.value.var95], l0.var99 + [last.value.value.var99]);
      } else {
        assert h == h0 && l == l0;
      }
    }
  }

  /** Iterations that each complete, and record quantiles exactly when the
      flag at their index is set, record them at the triggered indices. */
  lemma {:induction false} HitsAreTriggered(t: string, p: Payload, m: nat, steps: seq<Outcome>)
    requires forall j :: 0 <= j < |steps| ==>
      steps[j].Ok? && (steps[j].value.Some? <==> Flag(t, p, m + j) == Ok(true))
    ensures var h, tr := Hits(steps), Triggered(t, p, m, m + |steps|);
      |h| == |tr| && forall k :: 0 <= k < |tr| ==> tr[k] == m + h[k]
  {
    if |steps| > 0 {
      var n := |steps|;
      HitsAreTriggered(t, p, m, steps[..n - 1]);
      assert steps[n - 1].value.Some? <==> Flag(t, p, m + n - 1) == Ok(true);
    }
  }

  /** An index is simulated exactly when it lies in `[m, hi)` and the flag
      list that `t` names holds 1 there; the indices come in ascending order. */
  lemma TriggeredSelects(t: string, p: Payload, m: nat, hi: nat)
    ensures forall i :: i in Triggered(t, p, m, hi) <==>
      m <= i < hi &&
      ((t == "buy" && i < |p.buy| && p.buy[i] == 1) || (t == "sell" && i < |p.sell| && p.sell[i] == 1))
    ensures forall a, b :: 0 <= a < b < |Triggered(t, p, m, hi)| ==>
      Triggered(t, p, m, hi)[a] < Triggered(t, p, m, hi)[b]
  {
    TriggeredMembers(t, p, m, hi);
    TriggeredAscending(t, p, m, hi);
  }

  lemma {:induction false} TriggeredMembers(t: string, p: Payload, m: nat, hi: nat)
    ensures forall i :: i in Triggered(t, p, m, hi) <==> m <= i < hi && Flag(t, p, i) == Ok(true)
    decreases hi
  {
    if hi > m {
      TriggeredMembers(t, p, m, hi - 1);
    }
  }

  lemma {:induction false} TriggeredAscending(t: string, p: Payload, m: nat, hi: nat)
    ensures forall a, b :: 0 <= a < b < |Triggered(t, p, m, hi)| ==>
      Triggered(t, p, m, hi)[a] < Triggered(t, p, m, hi)[b]
    decreases hi
  {
    if hi > m {
      TriggeredAscending(t, p, m, hi - 1);
    }
  }

  lemma {:induction false} NothingTriggered(t: string, p: Payload, m: nat, hi: nat)
    requires t != "buy" && t != "sell"
    ensures Triggered(t, p, m, hi) == []
    decreases hi
  {
    if hi > m {
      NothingTriggered(t, p, m, hi - 1);
    }
  }

  /** `process_data` succeeds exactly when no iteration raises. */
  lemma RunSucceedsIff(t: string, p: Payload, draws: seq<seq<real>>, m: nat)
    requires |draws| == |p.close|
    ensures Run(t, p, draws, m).Ok? <==> forall i :: m <= i < |p.close| ==> Step(t, p, draws, m, i).Ok?
  {
    var steps := Steps(t, p, draws, m);
    FoldOkIff(steps);
    forall i | m <= i < |p.close|
      ensures steps[i - m] == Step(t, p, draws, m, i)
    {
      StepAt(t, p, draws, m, i);
    }
  }

  /** A failing run raises the error of its first failing iteration. */
  lemma RunFailsAtFirst(t: string, p: Payload, draws: seq<seq<real>>, m: nat)
    requires |draws| == |p.close| && Run(t, p, draws, m).Err?
    ensures exists i :: (m <= i < |p.close| && Step(t, p, draws, m, i) == Err(Run(t, p, draws, m).error) &&
      forall j :: m <= j < i ==> Step(t, p, draws, m, j).Ok?)
  {
    var steps := Steps(t, p, draws, m);
    FoldFirstError(steps);
    var j :| 0 <= j < |steps| && steps[j] == Err(Fold(steps).error) && forall i :: 0 <= i < j ==> steps[i].Ok?;
    forall i | m <= i < m + j
      ensures Step(t, p, draws, m, i).Ok?
    {
      StepAt(t, p, draws, m, i);
    }
    StepAt(t, p, draws, m, m + j);
  }

  /** A successful run holds one pair of quantiles per triggered index, in
      index order, and the date labels from `m` on, whatever the flags say. */
  lemma RunOutputs(t: string, p: Payload, draws: seq<seq<real>>, m: nat)
    requires |draws| == |p.close| && Run(t, p, draws, m).Ok?
    ensures var res, tr := Run(t, p, draws, m).value, Triggered(t, p, m, |p.close|);
      |res.var95| == |tr| && |res.var99| == |tr| &&
      (forall k :: 0 <= k < |tr| ==>
        m <= tr[k] < |p.close| && Evaluate(p, draws, m, tr[k]) == Ok(Quantiles(res.var95[k], res.var99[k]))) &&
      res.dates == Tail(p.dates, m) &&
      |res.dates| == (if m <= |p.dates| then |p.dates| - m else 0)
  {
    var steps := Steps(t, p, draws, m);
    var res, tr := Run(t, p, draws, m).value, Triggered(t, p, m, |p.close|);
    FoldLists(steps);
    if m <= |p.close| {
      RunHits(t, p, draws, m);
      forall k | 0 <= k < |tr|
        ensures m <= tr[k] < |p.close| && Evaluate(p, draws, m, tr[k]) == Ok(Quantiles(res.var95[k], res.var99[k]))
      {
        RecordedStep(t, p, draws, m, tr[k], Quantiles(res.var95[k], res.var99[k]));
      }
    }
  }

  /** In a completed run, the iterations that record quantiles are those at the triggered indices. */
  lemma RunHits(t: string, p: Payload, draws: seq<seq<real>>, m: nat)
    requires |draws| == |p.close| && m <= |p.close| && Fold(Steps(t, p, draws, m)).Ok?
    ensures var h, tr := Hits(Steps(t, p, draws, m)), Triggered(t, p, m, |p.close|);
      |h| == |tr| && forall k :: 0 <= k < |tr| ==> tr[k] == m + h[k]
  {
    var steps := Steps(t, p, draws, m);
    StepsRecordFlags(t, p, draws, m);
    HitsAreTriggered(t, p, m, steps);
  }

  /** In a completed run every iteration completes, and it records quantiles
      exactly when the flag at its index is set. */
  lemma StepsRecordFlags(t: string, p: Payload, draws: seq<seq<real>>, m: nat)
    requires |draws| == |p.close| && m <= |p.close| && Fold(Steps(t, p, draws, m)).Ok?
    ensures var steps := Steps(t, p, draws, m);
      forall j :: 0 <= j < |steps| ==> steps[j].Ok? && (steps[j].value.Some? <==> Flag(t, p, m + j) == Ok(true))
  {
    var steps := Steps(t, p, draws, m);
    FoldOkIff(steps);
    forall j | 0 <= j < |steps|
      ensures steps[j].Ok? && (steps[j].value.Some? <==> Flag(t, p, m + j) == Ok(true))
    {
      StepFlag(t, p, draws, m, j);
    }
  }

  /** Entry `j` of the iterations, once it completes, records quantiles
      exactly when the flag at index `m + j` is set. */
  lemma StepFlag(t: string, p: Payload, draws: seq<seq<real>>, m: nat, j: nat)
    requires |draws| == |p.close| && m + j < |p.close| && Steps(t, p, draws, m)[j].Ok?
    ensures Steps(t, p, draws, m)[j].value.Some? <==> Flag(t, p, m + j) == Ok(true)
  {
    var i := m + j;
    StepAt(t, p, draws, m, i);
    assert i - m == j;
    assert Steps(t, p, draws, m)[j] == Step(t, p, draws, m, i);
  }

  /** An iteration that recorded a pair of quantiles computed them from its window. */
  lemma RecordedStep(t: string, p: Payload, draws: seq<seq<real>>, m: nat, i: nat, q: Quantiles)
    requires |draws| == |p.close| && m <= i < |p.close| && Steps(t, p, draws, m)[i - m] == Ok(Some(q))
    ensures Evaluate(p, draws, m, i) == Ok(q)
  {
    StepAt(t, p, draws, m, i);
  }

  /** Every recorded 95% value is at least the 99% value beside it. */
  lemma RunQuantilesOrdered(t: string, p: Payload, draws: seq<seq<real>>, m: nat)
    requires |draws| == |p.close| && Run(t, p, draws, m).Ok?
    ensures var res := Run(t, p, draws, m).value;
      |res.var95| == |res.var99| && forall k :: 0 <= k < |res.var95| ==> res.var95[k] >= res.var99[k]
  {
    RunOutputs(t, p, draws, m);
  }

  /** The window before index `i` has `m` prices, and its changes divide by
      each of them but the last. */
  lemma WindowChanges(p: Payload, m: nat, i: nat)
    requires m <= i < |p.close|
    ensures var c := Changes(p.close[i - m..i]);
      (c.Ok? <==> forall k :: i - m <= k < i - 1 ==> p.close[k] != 0.0) &&
      (c.Ok? ==> |c.value| == if m == 0 then 0 else m - 1)
  {
    var w := p.close[i - m..i];
    assert |w| == m;
    ChangesSpec(w);
    if forall k :: i - m <= k < i - 1 ==> p.close[k] != 0.0 {
      forall k | 0 <= k < |w| - 1 ensures w[k] != 0.0 {
        assert w[k] == p.close[i - m + k];
      }
    } else {
      var k :| i - m <= k < i - 1 && p.close[k] == 0.0;
      assert w[k - (i - m)] == 0.0;
    }
  }

  /** When a triggered index can be simulated: the window of `m` prices
      gives `m - 1` changes, `stdev` needs two of them, no divisor may be
      zero, and at least one sample is needed for the quantile index. */
  lemma EvaluateSucceedsIff(p: Payload, draws: seq<seq<real>>, m: nat, i: nat)
    requires m <= i < |p.close| && |draws| == |p.close|
    ensures Evaluate(p, draws, m, i).Ok? <==>
      m >= 3 && (forall k :: i - m <= k < i - 1 ==> p.close[k] != 0.0) && |draws[i]| > 0
    ensures m <= 1 ==> Evaluate(p, draws, m, i) == Err(MeanOfEmpty)
    ensures m == 2 ==> Evaluate(p, draws, m, i) == Err(if p.close[i - 2] == 0.0 then ZeroDivision else StdevNeedsTwo)
    ensures m >= 3 && |draws[i]| == 0 && (forall k :: i - m <= k < i - 1 ==> p.close[k] != 0.0) ==>
      Evaluate(p, draws, m, i) == Err(SampleIndexOutOfRange)
  {
    WindowChanges(p, m, i);
    EvaluateStages(p, draws, m, i);
    if m == 2 {
      assert (forall k :: i - m <= k < i - 1 ==> p.close[k] != 0.0) <==> p.close[i - 2] != 0.0;
    }
  }

  /** Which stage of the simulation decides its outcome. */
  lemma EvaluateStages(p: Payload, draws: seq<seq<real>>, m: nat, i: nat)
    requires m <= i < |p.close| && |draws| == |p.close|
    ensures var c := Changes(p.close[i - m..i]);
      Evaluate(p, draws, m, i) ==
        if c.Err? then Err(ZeroDivision)
        else if |c.value| == 0 then Err(MeanOfEmpty)
        else if |c.value| == 1 then Err(StdevNeedsTwo)
        else Pick(draws[i])
  {
    ChangesSpec(p.close[i - m..i]);
  }

  /** Both recorded quantiles are samples drawn at the index simulated. */
  lemma EvaluatePicksSamples(p: Payload, draws: seq<seq<real>>, m: nat, i: nat)
    requires m <= i < |p.close| && |draws| == |p.close| && Evaluate(p, draws, m, i).Ok?
    ensures var q := Evaluate(p, draws, m, i).value;
      q.var95 in multiset(draws[i]) && q.var99 in multiset(draws[i])
  {
    EvaluateStages(p, draws, m, i);
  }

  /** With a look-back under three, any triggered index makes the run fail:
      its window has fewer than two changes for `stdev`. */
  lemma ShortWindowFails(t: string, p: Payload, draws: seq<seq<real>>, m: nat, i: nat)
    requires |draws| == |p.close| && m < 3
    requires m <= i < |p.close| && Flag(t, p, i) == Ok(true)
    ensures Run(t, p, draws, m).Err?
  {
    EvaluateSucceedsIff(p, draws, m, i);
    assert Step(t, p, draws, m, i).Err?;
    RunSucceedsIff(t, p, draws, m);
  }

  /** A signal type other than "buy" or "sell" selects no index. */
  lemma OtherSignalSelectsNothing(t: string, p: Payload, draws: seq<seq<real>>, m: nat)
    requires |draws| == |p.close| && t != "buy" && t != "sell"
    ensures Run(t, p, draws, m) == Ok(WorkerResult([], [], Tail(p.dates, m)))
  {
    RunSucceedsIff(t, p, draws, m);
    RunOutputs(t, p, draws, m);
    NothingTriggered(t, p, m, |p.close|);
  }

  /** The price series of the look-back-two example. */
  function Example(): Payload
  {
    Payload([100.0, 102.0, 101.0, 105.0, 103.0], [0, 0, 1, 0, 1], [0, 0, 0, 0, 0], ["d0", "d1", "d2", "d3", "d4"])
  }

  lemma ExampleFirstStep(draws: seq<seq<real>>)
    requires |draws| == 5
    ensures Step("buy", Example(), draws, 2, 2) == Err(StdevNeedsTwo)
  {
    EvaluateSucceedsIff(Example(), draws, 2, 2);
  }

  /** Five prices with buy flags at indices 2 and 4 and a look-back of two:
      the first triggered window yields a single change, so `stdev` fails. */
  lemma TwoPriceWindowFails(draws: seq<seq<real>>)
    requires |draws| == 5
    ensures Run("buy", Example(), draws, 2) == Err(StdevNeedsTwo)
  {
    var steps := Steps("buy", Example(), draws, 2);
    ExampleFirstStep(draws);
    StepAt("buy", Example(), draws, 2, 2);
    FoldPrefixError(steps, 1);
    assert steps[..1][..0] == [];
  }

  /** With no flag set, no quantiles are recorded but every date label from
      the look-back on is returned. */
  lemma UntriggeredKeepsDates(draws: seq<seq<real>>)
    requires |draws| == 3
    ensures Run("buy", Payload([100.0, 102.0, 101.0], [0, 0, 0], [], ["d0", "d1", "d2"]), draws, 1) ==
      Ok(WorkerResult([], [], ["d1", "d2"]))
  {
    var p := Payload([100.0, 102.0, 101.0], [0, 0, 0], [], ["d0", "d1", "d2"]);
    forall i | 1 <= i < 3 ensures Step("buy", p, draws, 1, i) == Ok(None) {
    }
    RunSucceedsIff("buy", p, draws, 1);
    RunOutputs("buy", p, draws, 1);
    TriggeredMembers("buy", p, 1, 3);
    assert p.dates[1..] == ["d1", "d2"];
  }
}
