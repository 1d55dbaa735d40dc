/** The exceptions the worker and coordinator code can raise, and a result
    type that carries either a value or one of them. */
module Failures {

  /** One constructor per way the code of `ec2.py` raises. */
  datatype Error =
    | ZeroDivision              // a percentage change divides by a zero close price
    | MeanOfEmpty               // `mean` of an empty list (statistics.StatisticsError)
    | StdevNeedsTwo             // `stdev` of fewer than two values (statistics.StatisticsError)
    | FlagIndexOutOfRange(i: nat)  // `buy[i]` / `sell[i]` past the end of the flag list
    | SampleIndexOutOfRange     // the quantile index into an empty sample list
    | PopFromEmptyList          // `pop()` on an empty history list
    | LastOfEmptyList           // `hist[-1]` on an empty history list
    | KeyMissing(key: string)   // a dictionary lookup of an absent key (KeyError)
    | NoSuchKey(key: string)    // an object-store read of an absent key

  datatype Result<+T> = Ok(value: T) | Err(error: Error) {

    predicate IsFailure() {
      Err?
    }

    function PropagateFailure<U>(): Result<U>
      requires Err?
    {
      Err(error)
    }

    function Extract(): T
      requires Ok?
    {
      value
    }
  }
}
