/**
 * The candle table that every stage of the backtester reads, and the small
 * value types the stages share.
 */
module Series {

  datatype Option<+T> = None | Some(value: T)

  /** The outcome of an operation that the source can abort with an exception. */
  datatype Result<+T, +E> = Ok(value: T) | Err(error: E)

  /** The columns a candle table may carry. */
  datatype Column = OpenTime | Open | High | Low | Close | Volume

  /** One OHLCV row. Prices are exact reals: the strategy only compares and subtracts them. */
  datatype Candle = Candle(openTime: int, open: real, high: real, low: real, close: real, volume: real)

  /**
   * A candle table: the set of columns present, and the rows in index order
   * (row i carries the index label i). A field of a row whose column is
   * absent is never read.
   */
  datatype Frame = Frame(columns: set<Column>, rows: seq<Candle>)

  /** Both detectors need the high and the low column. */
  predicate HasHighLow(frame: Frame)
  {
    High in frame.columns && Low in frame.columns
  }

  /** A per-row structural label: a BOS or FVG label, or none. */
  datatype Label = Bullish | Bearish | Unlabelled

  /** A label together with its magnitude (a break strength or a gap size). */
  datatype Break = Break(tag: Label, size: real)

  const NoBreak := Break(Unlabelled, 0.0)

  /** The side of a trade. */
  datatype Direction = Long | Short
}
