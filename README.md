# Value-at-risk simulation: a verified model of the data handling in `ec2.py`

`ec2.py` is the coordinator and worker script of a Monte-Carlo value-at-risk
service. Around its storage, HTTP and CGI plumbing it has three pieces of data
handling, and this project models and proves properties of them.

- **The worker's `process_data`** (module `Simulation`).
  - For every index `i` from the look-back `minhistory` to the end of the
    closing prices whose chosen signal flag (`buy` or `sell`) is 1, it takes
    the window of the `minhistory` preceding prices.
  - It computes their consecutive percentage changes and summarises them by
    `mean` and `stdev`.
  - It sorts a list of Gaussian samples in descending order and records the
    samples at positions `int(n*0.95)` and `int(n*0.99)`.
  - It returns the two lists together with the date labels from `minhistory` on.
  - `ProcessData` is the loop, proved equal to the function `Run`.
  - `Run` folds the per-index outcomes (`Steps`, `Fold`), and the lemmas about
    it state the selection, the lengths, the errors and the ordering.
- **The coordinator's `calculate_averages`** (module `Aggregation`).
  - It reads the workers' results by key and takes column-wise means, where the
    columns are those `zip(*...)` forms, so the shortest list decides.
  - It takes the mean of those means.
  - It pops the last history entry, overwrites its `var95` and `var99` and
    appends it back.
  - `CalculateAverages` is the loop and the pop, assign and append sequence,
    proved equal to the function `Aggregate`.
- **The series strings of `generate_chart`** (module `Chart`).
  - The date labels are joined by `|`.
  - The stored column means are joined by `,`.
  - The last history entry's two averages are repeated once per date.
  - `Join` models Python's `str.join`. `Split` models `str.split` and is its
    inverse: `SplitJoin` proves the round trip.

Supporting modules:

| module | contents |
|---|---|
| `Failures` | Python's exceptions as `Error` values and a `Result` type |
| `Seqs` | sums, repetition, mapping, and permutation lemmas |
| `Stats` | `mean` and sample variance over `real`, and when `stdev` fails |
| `Sorting` | the descending sort, specified by order and by multiset equality, with a uniqueness lemma |

Outside inputs become parameters:

- The storage reads are parameters: the payload, the map of worker results
  keyed by name, the history list, the date labels and the stored lists.
- The Gaussian generator is a parameter. `draws[i]` is the list of samples it
  returns when index `i` is simulated, so its length is the shot count.
- Python's `str` of a JSON value is a parameter `show`.

Each failure the source can raise is a distinct `Error`:

| error | raised by |
|---|---|
| `ZeroDivision` | a zero price in a window |
| `MeanOfEmpty` | `mean` of nothing |
| `StdevNeedsTwo` | `stdev` of one value |
| `FlagIndexOutOfRange` | a flag list shorter than the prices |
| `SampleIndexOutOfRange` | zero shots |
| `NoSuchKey` | a key with nothing stored under it |
| `PopFromEmptyList` | popping an empty history |
| `LastOfEmptyList` | `hist[-1]` of an empty history |
| `KeyMissing` | a history entry without `var95` or `var99` |

## Behaviour worth noting

- `zip` truncates. Worker lists of different lengths do not make the
  aggregation fail: `zip(*...)` at ec2.py:72-73 keeps as many columns as the
  shortest list has entries. `UnevenRowsTruncate` shows lists of three and
  four entries giving three means.
- A look-back of two fails in `stdev`. With two prices per window the code
  computes a single change, and `stdev` raises, so a series with
  `minhistory = 2` and a set flag yields no quantiles at all.
  `TwoPriceWindowFails` shows this on a five-price series, and
  `ShortWindowFails` states the general case.
- The dates are not filtered. They are `dates[minhistory:]` whatever the flags
  say (ec2.py:57), so their number can differ from the number of quantiles.
  `RunOutputs` and `UntriggeredKeepsDates` state this.

## Model

| member | source | states |
|---|---|---|
| `Simulation.ProcessData` | ec2.py:33-57 | the loop over `[minhistory, len(close))` returns exactly what `Run` specifies, the first error included |
| `Simulation.SimulateAt` | ec2.py:35-49 | the body of one triggered iteration (window, changes, mean and stdev, sort, two picks) returns exactly `Evaluate` at that index |
| `Simulation.Run` | ec2.py:21-61 | a successful `process_data` returns two quantile lists of equal length, at most one entry per price, and `dates[minhistory:]`; `RunSucceedsIff`, `RunFailsAtFirst` and `RunOutputs` state when it succeeds, which error it raises and what the lists hold |
| `Simulation.Flag` | ec2.py:34-37 | the flag test raises IndexError (`FlagIndexOutOfRange(i)`) iff the named flag list is too short, and yields true iff `t` is "buy" with `buy[i] == 1` or "sell" with `sell[i] == 1` |
| `Simulation.Changes` | ec2.py:41 | the change list has one entry fewer than the window has prices, and the only error is ZeroDivision; `ChangesSpec` gives the rest |
| `Simulation.Index95` | ec2.py:48 | the 95% position is the integer part of `n*0.95`: `100*r <= 95*n < 100*r + 100` |
| `Simulation.Index99` | ec2.py:49 | the 99% position is the integer part of `n*0.99`: `100*r <= 99*n < 100*r + 100` |
| `Simulation.Evaluate` | ec2.py:35-49 | a triggered iteration that completes records a var95 at least its var99; its only errors are ZeroDivision, the two `statistics` errors and the empty-sample index; `EvaluateStages` and `EvaluateSucceedsIff` say which arises when |
| `Simulation.EvaluatePicksSamples` | ec2.py:45-49 | both recorded values are among the samples drawn at that index |
| `Simulation.Gate` | ec2.py:34-39 | an iteration completes iff its flag test completes and, when the flag is set, its simulation does; it records quantiles exactly when the flag is set, those of the simulation, and otherwise raises the first error met |
| `Simulation.Step` | ec2.py:33-51 | iteration `i` completes iff the flag test does and, when set, the simulation at `i` does; a completed iteration records quantiles exactly when the flag is set |
| `Simulation.Steps` | ec2.py:33 | there is one iteration per index in `range(minhistory, len(close))`, none when `minhistory` is past the end; `StepAt` gives each of them |
| `Simulation.Extend` | ec2.py:50-51 | an iteration on top of the lists so far completes iff both do, and grows each list by one entry exactly when it records quantiles; `ExtendOk` gives the appended values |
| `Simulation.Fold` | ec2.py:30-51 | a completed loop has two lists of equal length, at most one entry per iteration; `FoldLists` gives their contents |
| `Simulation.FoldNext` | ec2.py:33-51 | on top of the lists of the earlier iterations, a failing flag test or simulation at `i` is the error of the whole run, an unset flag keeps the lists, and a simulation appends its two quantiles |
| `Simulation.Triggered` | ec2.py:33-39 | the selected indices number at most `hi - minhistory` and lie in `[minhistory, hi)`; `TriggeredSelects` says which they are |
| `Simulation.ChangesSpec` | ec2.py:41 | the change list exists unless some divisor `w[k]`, `k < len(w)-1`, is zero, which raises ZeroDivision; it has `len(w)-1` entries and entry `k` is `(w[k+1]-w[k])/w[k]` |
| `Simulation.WindowChanges` | ec2.py:35-41 | the window before `i` has `minhistory` prices and gives `minhistory-1` changes, failing exactly when a price in `close[i-m..i-1)` is zero |
| `Simulation.QuantileIndices` | ec2.py:48-49 | for at least one sample, `0 <= int(n*0.95) <= int(n*0.99) < n` |
| `Simulation.SortedPicks` | ec2.py:47-49 | in a descending list the sample at the 95% position is in range and at least the one at the 99% position, and both are among the samples |
| `Simulation.Pick` | ec2.py:47-49 | an empty sample list fails indexing; otherwise var95 >= var99 and both values are among the samples |
| `Simulation.PickFromAnyDescending` | ec2.py:47-49 | any descending arrangement of the samples gives the same two picks |
| `Simulation.PickPermutation` | ec2.py:45-49 | the picks depend only on the multiset of samples, not their order |
| `Simulation.EvaluateStages` | ec2.py:41-49 | a triggered iteration fails at the changes with ZeroDivision, at `mean` with no changes, at `stdev` with one, and otherwise picks from the samples |
| `Simulation.EvaluateSucceedsIff` | ec2.py:35-49 | an iteration succeeds iff `minhistory >= 3`, no divisor in its window is zero and there is at least one sample; it names the error for look-backs 0, 1 and 2 and for zero shots |
| `Simulation.StepAt` | ec2.py:33-51 | iteration `i - m` of the loop is the flag test at `i` followed, when set, by the simulation at `i` |
| `Simulation.FoldOkIff` | ec2.py:33-51 | the loop completes iff every iteration completes |
| `Simulation.FoldFirstError` | ec2.py:33-51 | a failed loop reports the error of its first failing iteration, all earlier ones having completed |
| `Simulation.FoldPrefixError` | ec2.py:33-51 | once a prefix of iterations has failed, later iterations do not change the result |
| `Simulation.FoldLists` | ec2.py:50-51 | a completed loop's two lists hold, in order, one pair per iteration that recorded quantiles, that iteration's pair |
| `Simulation.HitsAreTriggered` | ec2.py:33-39 | the iterations that record quantiles are those at the triggered indices, in the same order |
| `Simulation.TriggeredSelects` | ec2.py:33-39 | index `i` is selected iff `minhistory <= i < hi` and (`t == "buy"` and `buy[i] == 1`, or `t == "sell"` and `sell[i] == 1`); selected indices ascend |
| `Simulation.TriggeredMembers` | ec2.py:33-39 | the selected indices are those in range whose flag test yields true |
| `Simulation.TriggeredAscending` | ec2.py:33-39 | selected indices lie in range and strictly ascend |
| `Simulation.NothingTriggered` | ec2.py:34-39 | a signal type other than "buy" and "sell" selects no index |
| `Simulation.Tail` | ec2.py:57 | `dates[minhistory:]` has `len(dates)-minhistory` labels (none past the end), label `k` being `dates[minhistory+k]` |
| `Simulation.RunSucceedsIff` | ec2.py:33-51 | `process_data` succeeds iff every index in `[minhistory, len(close))` passes the flag test and, when triggered, the simulation |
| `Simulation.RunFailsAtFirst` | ec2.py:33-51 | a failing run raises the error of the first failing index |
| `Simulation.RunOutputs` | ec2.py:33-57 | a successful run has one var95 and one var99 per triggered index, in index order, each computed from that index's window and samples, and `dates[minhistory:]` whatever the flags |
| `Simulation.RunHits` | ec2.py:33-51 | in a completed run the recording iterations sit exactly at the triggered indices |
| `Simulation.StepsRecordFlags` | ec2.py:33-51 | in a completed run every iteration completes and records quantiles exactly when the flag at its index is set |
| `Simulation.StepFlag` | ec2.py:34-39 | a completed iteration `j` records quantiles exactly when the flag at index `minhistory + j` is set |
| `Simulation.RecordedStep` | ec2.py:35-51 | a recorded pair was computed from the window and samples of its index |
| `Simulation.RunQuantilesOrdered` | ec2.py:47-51 | every recorded var95 is at least the var99 beside it |
| `Simulation.ShortWindowFails` | ec2.py:41-43 | with `minhistory < 3`, any triggered index makes the run fail |
| `Simulation.OtherSignalSelectsNothing` | ec2.py:33-57 | any other signal type gives empty quantile lists and the unfiltered dates |
| `Simulation.ExampleFirstStep` | ec2.py:41-43 | in the five-price example with look-back two, the first triggered index fails in `stdev` |
| `Simulation.TwoPriceWindowFails` | ec2.py:33-43 | the five-price example with look-back two and buy flags at 2 and 4 fails with the `stdev` error |
| `Simulation.UntriggeredKeepsDates` | ec2.py:33-57 | with no flag set, the quantile lists are empty while two date labels are returned |
| `Sorting.Insert` | ec2.py:47 | inserting into a descending list keeps it descending and adds exactly the one element |
| `Sorting.SortDescending` | ec2.py:47 | `sort(reverse=True)` yields a descending arrangement of the same multiset of samples |
| `Sorting.HeadIsMax` | ec2.py:47 | the first element of a descending list is at least every element |
| `Sorting.SortedUnique` | ec2.py:47 | two descending arrangements of the same multiset are equal |
| `Sorting.DropHead` | ec2.py:47 | the tail of a descending list is descending and holds every element but the head |
| `Stats.Mean` | ec2.py:42-75 | the mean of a non-empty list is the value whose `len(xs)` copies sum to the list's sum; `MeanBetween`, `MeanRepeat` and `MeanPermutation` state its bounds and symmetries |
| `Stats.SampleVariance` | ec2.py:43 | the sample variance of at least two values is non-negative |
| `Stats.Describe` | ec2.py:42-43 | mean and stdev exist iff there are at least two values; no value fails in `mean` (MeanOfEmpty), one value fails in `stdev` (StdevNeedsTwo); a result holds the mean and the sample variance of the values, the variance non-negative |
| `Stats.MeanBetween` | ec2.py:72-75 | a mean lies within any bounds every value respects |
| `Stats.MeanRepeat` | ec2.py:72-73 | the mean of copies of one value is that value |
| `Stats.MeanPermutation` | ec2.py:72-73 | a mean does not depend on the order of the values |
| `Seqs.SumPermutation` | ec2.py:72-75 | a sum does not depend on the order of the values |
| `Seqs.MapSeqPermutation` | ec2.py:66-73 | mapping a permuted list gives a permutation of the mapped list |
| `Aggregation.Load` | ec2.py:66-70 | reading the keys in order succeeds iff every key is stored, giving the stored results in key order; otherwise it reports the first missing key |
| `Aggregation.LoadFirstMissing` | ec2.py:66-68 | the first key with nothing stored is the one reported |
| `Aggregation.MinLen` | ec2.py:72 | the number of `zip` columns is at most every row's length and equals some row's length (0 with no rows) |
| `Aggregation.Column` | ec2.py:72-73 | a `zip` column has one entry per row, entry `k` being row `k`'s entry at that position |
| `Aggregation.ColumnMeans` | ec2.py:72-73 | there is one column mean per column `zip` forms, as many as the shortest row has entries; `ColumnMeansSpec` gives each mean |
| `Aggregation.Finish` | ec2.py:74-82 | the overall means and the history rewrite succeed iff both column-mean lists and the history are non-empty; otherwise `mean` fails first, then `pop`; a result stores the column means and keeps the history's length |
| `Aggregation.Aggregate` | ec2.py:63-89 | a successful `calculate_averages` had every key stored, at least one key and a history entry, and keeps the history's length; `AggregateOkIff`, `AggregateErrors`, `HistoryUpdate` and `AggregateMeans` state the rest |
| `Aggregation.AggregateRows` | ec2.py:66-73 | with every key stored, the rows averaged are the stored var95 and var99 lists in key order |
| `Aggregation.ColumnMeansSpec` | ec2.py:72-73 | there are as many column means as the shortest row has entries, none more than any row has, and mean `j` is the mean of the `j`-th entries of all rows |
| `Aggregation.ColumnMeansEmpty` | ec2.py:72-74 | there are no column means iff there is no row or some row is empty |
| `Aggregation.MinLenPermutation` | ec2.py:72 | the number of columns does not depend on the order of the rows |
| `Aggregation.ColumnMeansPermutation` | ec2.py:72-73 | the column means do not depend on the order of the rows |
| `Aggregation.ColumnMeansOfCopies` | ec2.py:72-73 | identical rows average to that row |
| `Aggregation.ColumnMeansBetween` | ec2.py:72-73 | column means stay within any bounds every value respects |
| `Aggregation.UnevenRowsTruncate` | ec2.py:72 | lists of three and four entries give three column means; the fourth entry is dropped |
| `Aggregation.SetRisk` | ec2.py:79-81 | the rewritten entry maps var95 and var99 to the new means, gains no key besides those two and keeps every other field |
| `Aggregation.CalculateAverages` | ec2.py:63-89 | the key loop and the pop, assign and append sequence return exactly `Aggregate`, errors included |
| `Aggregation.AggregateOkIff` | ec2.py:66-82 | the aggregation succeeds iff every key is stored, there is a key, no stored list is empty and the history has an entry |
| `Aggregation.AggregateErrors` | ec2.py:66-75 | the first missing key is reported; with all keys stored, no keys or an empty list fails in `mean` |
| `Aggregation.NoKeysFails` | ec2.py:72-74 | an empty key list fails in `mean` |
| `Aggregation.EmptyHistoryFails` | ec2.py:77-79 | an empty history fails at `pop()` once the means exist |
| `Aggregation.HistoryUpdate` | ec2.py:77-82 | the history keeps its length and all entries but the last; the last gets var95 and var99 set to the two overall means, gains no other key and keeps its other fields |
| `Aggregation.AggregateMeans` | ec2.py:72-75 | the stored lists are the column means of the workers' lists, as long as the shortest of them and non-empty, and the returned values are their means |
| `Aggregation.AggregatePermutation` | ec2.py:66-75 | reading the same keys in another order fails in one order iff in the other, and with all keys stored gives the same result |
| `Aggregation.AggregateBetween` | ec2.py:72-75 | if every worker value lies in `[lo, hi]`, both overall means do |
| `Aggregation.AggregateOfOneWorker` | ec2.py:66-73 | repeating one worker's key n times yields that worker's lists as the column means |
| `Chart.Join` | ec2.py:99-103 | `sep.join(xs)` is as long as the pieces together plus one separator between each pair of neighbours; `SplitJoin` undoes it |
| `Chart.Split` | ec2.py:99-103 | splitting gives one more piece than there are separators; it is the inverse of `Join` in `SplitJoin` |
| `Chart.Series` | ec2.py:96-103 | the series exist iff the history has a last entry holding var95 and var99 |
| `Chart.ChartData` | ec2.py:107 | the `chd` data part holds three `|` separators besides any inside the four series |
| `Chart.CountAppend` | ec2.py:99 | occurrences in a concatenation add up |
| `Chart.SplitPlain` | ec2.py:99 | a separator-free prefix stays at the front of the first piece |
| `Chart.SplitJoin` | ec2.py:99-103 | splitting at the separator undoes `sep.join(xs)` for a non-empty list of separator-free pieces |
| `Chart.JoinCount` | ec2.py:99-103 | `sep.join(xs)` holds `len(xs)-1` separators (none for no pieces) besides those inside the pieces |
| `Chart.CountAllFree` | ec2.py:99 | pieces free of the separator contain none |
| `Chart.SeriesOkIff` | ec2.py:96-97 | without a last history entry `hist[-1]` fails; a last entry without var95, then one without var99, raises KeyError for that key |
| `Chart.AverageSeries` | ec2.py:101-103 | each average series is empty when there are no dates; given at least one date and a shown average without a comma, it holds `len(dates)-1` commas and splitting it gives `len(dates)` copies of the last entry's value |
| `Chart.DateAxis` | ec2.py:99 | the date axis has `len(dates)-1` separators (none for no dates) besides those in the labels; given at least one date and no label holding a `|`, it splits back into the labels |
| `Chart.ValueSeries` | ec2.py:100-102 | given at least one stored value and no shown value holding a comma, each value series splits back into the stored list's texts |
| `Chart.ChartDataSplits` | ec2.py:107 | the chart data splits back into its four series when none holds a `|` |
| `Chart.ChartAfterAggregate` | ec2.py:80-97 | after a successful aggregation the chart can be drawn from the written history and its average series repeat the two overall means |

## Left out

- S3 storage (`s3_client`, `use_s3`, the bucket and key names): foreign I/O. Everything read from it is a parameter. The writes are not modelled, but what they store is returned: `WorkerResult` is the object the worker stores (ec2.py:54-59), and `Averages.history`, `Averages.lst95` and `Averages.lst99` are what the HISTORY, LST95 and LST99 writes store (ec2.py:84-87).
- `random.gauss` and the `Decimal(str(...))` conversion: nondeterminism and float formatting. The samples are the input `draws[i]`.
- The value of `mean` and `stdev` as IEEE floats: means are exact `real` averages. For `stdev` only its failure condition (fewer than two values) is modelled, through a non-negative sample variance. The square root is not modelled.
- `Simulation.Index95`, `Simulation.Index99`: these compute `int(n*0.95)` and `int(n*0.99)` exactly as `(95*n)/100` and `(99*n)/100`, while the source multiplies in IEEE doubles. The two agree for every shot count below 10^13. There the rounding error of the double product is below 0.002, while an exact product that is not an integer lies at least 0.01 below the next integer. An exact product that is an integer is met exactly, because the doubles nearest 0.95 and 0.99 err by less than half a unit in the last place of the product. For larger counts the double product may round across an integer.
- Serialising the worker's lists with `json.dumps`: the samples are `Decimal` values, which the standard `json` module does not serialise. I/O is out of scope, so the model treats them as real numbers, and `Aggregation` reads them back from the store as numbers.
- `uuid.uuid4()` key generation: nondeterministic.
- The `__main__` block is concurrency, network and time, with nothing to verify about data handling. It covers:
  - the CGI form;
  - the HTTP dispatch to the workers through a thread pool;
  - the wall-clock cost formula and its output.
- Negative `minhistory` or `shots` are not modelled: both are `nat`. Python's negative slicing and `range` on them are left out.
- `Json` has an object constructor, but nothing in the model reads nested objects: history entries are flat maps from field name to value.
- JSON values of the wrong shape are not modelled: the history is a list of objects, the stored lists are lists of numbers and the flags are numbers. Python's `TypeError` paths are left out.
- The fixed parameters of the chart address and its `use_s3` write: constant text. Only the series strings and the `chd` data part are modelled.
