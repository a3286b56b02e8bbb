/** The exceptions the backtest can raise inside its core, and the result
    type that carries either a value or one of them. */
module Failures {

  /** The Python exception kinds the core can raise. */
  datatype PyError =
    | IndexError          // a positional row lookup outside the table
    | ZeroDivisionError   // a division by a zero holding period or a zero span

  datatype Result<+T> = Ok(value: T) | Err(error: PyError) {
    predicate IsFailure() { Err? }

    function PropagateFailure<U>(): Result<U>
      requires Err?
    {
      Err(error)
    }

    function Extract(): T
      requires Ok?
    {
      value
    }
  }
}
