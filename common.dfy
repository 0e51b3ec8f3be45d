/** Shared vocabulary of the model: tickers, trading dates, optional values and results. */
module Common {

  /** A stock symbol, as stored in every table's `ticker` column. */
  type Ticker = string

  /** A trading date. Dates are compared in calendar order, so a day number is enough. */
  type Date = int

  /** A nullable column or a value that may be missing. */
  datatype Option<+T> = None | Some(value: T)

  /** The outcome of an operation that may raise. */
  datatype Result<+T, +E> = Ok(value: T) | Err(error: E)

  function Min(a: real, b: real): real
  {
    if a <= b then a else b
  }

  function Max(a: real, b: real): real
  {
    if a >= b then a else b
  }
}
