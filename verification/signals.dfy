/**
 * Turning the per-row bos / fvg annotations of a candle table into the
 * ordered list of trade signals the simulator consumes.
 */
module Signals {
  import opened Series
  import opened Structure

  /** Which detector a signal comes from. */
  datatype SignalKind = BOS | FVG

  /**
   * A trade signal: the row's close as entry price, the side, the detector,
   * the traded symbol, the row index, and the break strength or gap size.
   */
  datatype Signal = Signal(price: real, direction: Direction, kind: SignalKind, symbol: string, index: int, magnitude: real)

  /** The only symbol the backtester trades. */
  const Symbol: string := "BTCUSDT"

  /** A candle table with the four annotation columns the detectors add. */
  datatype Table = Table(frame: Frame, bos: seq<Label>, bosStrength: seq<real>, fvg: seq<Label>, fvgGap: seq<real>)

  predicate WellFormed(t: Table)
  {
    |t.bos| == |t.frame.rows| && |t.bosStrength| == |t.frame.rows| &&
    |t.fvg| == |t.frame.rows| && |t.fvgGap| == |t.frame.rows|
  }

  /** The table both detectors produce from a frame. */
  function Annotate(frame: Frame): (t: Table)
    ensures WellFormed(t) && t.frame == frame
    ensures forall i :: 0 <= i < |frame.rows| ==>
              t.bos[i] == BosAt(frame, i).tag && t.bosStrength[i] == BosAt(frame, i).size &&
              t.fvg[i] == FvgAt(frame, i).tag && t.fvgGap[i] == FvgAt(frame, i).size
  {
    var n := |frame.rows|;
    Table(frame,
          seq(n, i requires 0 <= i < n => BosAt(frame, i).tag),
          seq(n, i requires 0 <= i < n => BosAt(frame, i).size),
          seq(n, i requires 0 <= i < n => FvgAt(frame, i).tag),
          seq(n, i requires 0 <= i < n => FvgAt(frame, i).size))
  }

  /** The side a structural label trades: long for bullish, short otherwise. */
  function DirectionOf(l: Label): Direction
  {
    if l == Bullish then Long else Short
  }

  function BosSignal(t: Table, i: nat): Signal
    requires WellFormed(t) && i < |t.frame.rows|
  {
    Signal(t.frame.rows[i].close, DirectionOf(t.bos[i]), BOS, Symbol, i, t.bosStrength[i])
  }

  function FvgSignal(t: Table, i: nat): Signal
    requires WellFormed(t) && i < |t.frame.rows|
  {
    Signal(t.frame.rows[i].close, DirectionOf(t.fvg[i]), FVG, Symbol, i, t.fvgGap[i])
  }

  /** The signals of row i: its BOS signal, if any, then its FVG signal, if any. */
  function RowSignals(t: Table, i: nat): seq<Signal>
    requires WellFormed(t) && i < |t.frame.rows|
  {
    (if t.bos[i] != Unlabelled then [BosSignal(t, i)] else []) +
    (if t.fvg[i] != Unlabelled then [FvgSignal(t, i)] else [])
  }

  /** The signals of rows 0..k-1, in row order. */
  function SignalsBefore(t: Table, k: nat): seq<Signal>
    requires WellFormed(t) && k <= |t.frame.rows|
  {
    if k == 0 then [] else SignalsBefore(t, k - 1) + RowSignals(t, k - 1)
  }

  /** Row i carries a BOS or an FVG label. */
  predicate Labelled(t: Table, i: nat)
    requires WellFormed(t) && i < |t.frame.rows|
  {
    t.bos[i] != Unlabelled || t.fvg[i] != Unlabelled
  }

  /** Reading the close of a labelled row fails when the close column is missing. */
  datatype SignalError = MissingColumn(column: Column)

  /** What signal extraction hands on: the signals and the annotated table. */
  datatype Extraction = Extraction(signals: seq<Signal>, table: Table)

  /** The result of extraction when there is no data: no signals, an empty table. */
  const EmptyExtraction := Extraction([], Table(Frame({}, []), [], [], [], []))

  /**
   * Signal extraction on the table the data source returned (None when it
   * returned nothing). A table without rows or without columns gives no signals.
   */
  function ExtractSignals(data: Option<Frame>): Result<Extraction, SignalError>
  {
    if data.None? || data.value.rows == [] || data.value.columns == {} then Ok(EmptyExtraction)
    else
      var t := Annotate(data.value);
      if Close !in data.value.columns && exists i :: 0 <= i < |t.frame.rows| && Labelled(t, i) then
        Err(MissingColumn(Close))
      else
        Ok(Extraction(SignalsBefore(t, |t.frame.rows|), t))
  }

  /**
   * get_signals after the data has been loaded: annotate the table with both
   * detectors, then turn its labels into signals.
   */
  method GetSignals(data: Option<Frame>) returns (r: Result<Extraction, SignalError>)
    ensures r == ExtractSignals(data)
    ensures data.None? || data.value.rows == [] ==> r == Ok(EmptyExtraction)
  {
    if data.None? || data.value.rows == [] || data.value.columns == {} {
      return Ok(EmptyExtraction);
    }
    var frame := data.value;
    var bos, strength := DetectBreakOfStructure(frame);
    var fvg, gap := DetectFairValueGaps(frame);
    var t := Table(frame, bos, strength, fvg, gap);
    assert t.bos == Annotate(frame).bos && t.bosStrength == Annotate(frame).bosStrength;
    assert t.fvg == Annotate(frame).fvg && t.fvgGap == Annotate(frame).fvgGap;
    var signals := CollectSignals(t);
    return match signals
      case Ok(s) => Ok(Extraction(s, t))
      case Err(e) => Err(e);
  }

  /**
   * The row walk of get_signals: for each row in order, a BOS signal when the
   * row has a BOS label, then an FVG signal when it has an FVG label. Reading
   * the close of a labelled row fails when that column is missing.
   */
  method CollectSignals(t: Table) returns (r: Result<seq<Signal>, SignalError>)
    requires WellFormed(t)
    ensures Close in t.frame.columns || (forall i :: 0 <= i < |t.frame.rows| ==> !Labelled(t, i)) ==>
              r == Ok(SignalsBefore(t, |t.frame.rows|))
    ensures Close !in t.frame.columns && (exists i :: 0 <= i < |t.frame.rows| && Labelled(t, i)) ==>
              r == Err(MissingColumn(Close))
  {
    var frame := t.frame;
    var signals: seq<Signal> := [];
    for i := 0 to |frame.rows|
      invariant signals == SignalsBefore(t, i)
      invariant Close !in frame.columns ==> forall k :: 0 <= k < i ==> !Labelled(t, k)
    {
      if t.bos[i] == Bullish || t.bos[i] == Bearish {
        if Close !in frame.columns {
          assert Labelled(t, i);
          return Err(MissingColumn(Close));
        }
        var signal := Signal(frame.rows[i].close, if t.bos[i] == Bullish then Long else Short, BOS, Symbol, i, t.bosStrength[i]);
        signals := signals + [signal];
      }
      if t.fvg[i] == Bullish || t.fvg[i] == Bearish {
        if Close !in frame.columns {
          assert Labelled(t, i);
          return Err(MissingColumn(Close));
        }
        var signal := Signal(frame.rows[i].close, if t.fvg[i] == Bullish then Long else Short, FVG, Symbol, i, t.fvgGap[i]);
        signals := signals + [signal];
      }
    }
    return Ok(signals);
  }

  // ---------------------------------------------------------------------------
  // Properties of the signal list
  // ---------------------------------------------------------------------------

  /** The number of labelled cells among the first k of a column. */
  function CountLabelled(labels: seq<Label>, k: nat): nat
    requires k <= |labels|
  {
    if k == 0 then 0 else CountLabelled(labels, k - 1) + (if labels[k - 1] != Unlabelled then 1 else 0)
  }

  /** One signal per BOS-labelled row plus one per FVG-labelled row. */
  lemma {:induction false} SignalCount(t: Table, k: nat)
    requires WellFormed(t) && k <= |t.frame.rows|
    ensures |SignalsBefore(t, k)| == CountLabelled(t.bos, k) + CountLabelled(t.fvg, k)
  {
    if k > 0 {
      SignalCount(t, k - 1);
    }
  }

  /**
   * A signal describes a labelled row of the table: its index is the row, its
   * price the row's close, its symbol BTCUSDT, and its side, kind and
   * magnitude those of the row's BOS (resp. FVG) label.
   */
  predicate Describes(t: Table, s: Signal)
    requires WellFormed(t)
  {
    0 <= s.index < |t.frame.rows| &&
    s.price == t.frame.rows[s.index].close && s.symbol == Symbol &&
    (s.kind == BOS ==>
       t.bos[s.index] != Unlabelled && (s.direction == Long <==> t.bos[s.index] == Bullish) &&
       s.magnitude == t.bosStrength[s.index]) &&
    (s.kind == FVG ==>
       t.fvg[s.index] != Unlabelled && (s.direction == Long <==> t.fvg[s.index] == Bullish) &&
       s.magnitude == t.fvgGap[s.index])
  }

  /** Every signal of rows 0..k-1 describes a labelled row before k. */
  lemma {:induction false} SignalsDescribeRows(t: Table, k: nat)
    requires WellFormed(t) && k <= |t.frame.rows|
    ensures forall p :: 0 <= p < |SignalsBefore(t, k)| ==>
              Describes(t, SignalsBefore(t, k)[p]) && SignalsBefore(t, k)[p].index < k
  {
    if k > 0 {
      SignalsDescribeRows(t, k - 1);
    }
  }

  /** Signal a may precede signal b: an earlier row, or the BOS and FVG signals of one row. */
  predicate InOrder(a: Signal, b: Signal)
  {
    a.index < b.index || (a.index == b.index && a.kind == BOS && b.kind == FVG)
  }

  /**
   * Signals come in row order, and two signals of one row are its BOS signal
   * followed by its FVG signal.
   */
  lemma {:induction false} SignalsOrdered(t: Table, k: nat)
    requires WellFormed(t) && k <= |t.frame.rows|
    ensures forall p, q :: 0 <= p < q < |SignalsBefore(t, k)| ==> InOrder(SignalsBefore(t, k)[p], SignalsBefore(t, k)[q])
  {
    if k > 0 {
      SignalsOrdered(t, k - 1);
      SignalsDescribeRows(t, k - 1);
      var before: seq<Signal> := SignalsBefore(t, k - 1);
      var all: seq<Signal> := SignalsBefore(t, k);
      assert all == before + RowSignals(t, k - 1);
      forall p, q | 0 <= p < q < |all|
        ensures InOrder(all[p], all[q])
      {
        if q >= |before| && p < |before| {
          assert before[p].index < k - 1;
        }
      }
    }
  }

  /** Every labelled row before k has its signal in the list. */
  lemma {:induction false} LabelledRowsSignal(t: Table, k: nat)
    requires WellFormed(t) && k <= |t.frame.rows|
    ensures forall i :: 0 <= i < k && t.bos[i] != Unlabelled ==> BosSignal(t, i) in SignalsBefore(t, k)
    ensures forall i :: 0 <= i < k && t.fvg[i] != Unlabelled ==> FvgSignal(t, i) in SignalsBefore(t, k)
  {
    if k > 0 {
      LabelledRowsSignal(t, k - 1);
      var before, all := SignalsBefore(t, k - 1), SignalsBefore(t, k);
      assert all == before + RowSignals(t, k - 1);
      forall i | 0 <= i < k && t.bos[i] != Unlabelled
        ensures BosSignal(t, i) in all
      {
        if i < k - 1 {
          assert BosSignal(t, i) in before;
        } else {
          assert BosSignal(t, i) in RowSignals(t, k - 1);
        }
      }
      forall i | 0 <= i < k && t.fvg[i] != Unlabelled
        ensures FvgSignal(t, i) in all
      {
        if i < k - 1 {
          assert FvgSignal(t, i) in before;
        } else {
          assert FvgSignal(t, i) in RowSignals(t, k - 1);
        }
      }
    }
  }

  /**
   * On an extracted table every signal names a row of the table, and there are
   * signals only when the table has both the high and the low column.
   */
  lemma ExtractedSignalsAreTradeable(data: Option<Frame>)
    requires ExtractSignals(data).Ok?
    ensures var x := ExtractSignals(data).value;
            forall p :: 0 <= p < |x.signals| ==> 0 <= x.signals[p].index < |x.table.frame.rows|
    ensures var x := ExtractSignals(data).value;
            x.signals != [] ==> HasHighLow(x.table.frame)
  {
    var x := ExtractSignals(data).value;
    if x != EmptyExtraction {
      var t := x.table;
      SignalsDescribeRows(t, |t.frame.rows|);
      if x.signals != [] {
        assert Describes(t, x.signals[0]);
      }
    }
  }
}
