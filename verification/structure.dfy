/**
 * Break-of-structure (BOS) and fair-value-gap (FVG) detection over a candle
 * table. Each detector is one forward scan that appends a label and a
 * magnitude per row; both fail soft on a table without high/low columns or
 * too short for their window.
 */
module Structure {
  import opened Series

  // ---------------------------------------------------------------------------
  // Break of structure: specification
  // ---------------------------------------------------------------------------

  /** The running extrema the BOS scan keeps. */
  datatype Swing = Swing(high: real, low: real)

  /**
   * The label and strength a candle gets against the swing points seen before
   * it. A new high is tested first, so a candle breaking both sides is bullish.
   */
  function Classify(swing: Swing, c: Candle): (b: Break)
    ensures b.size > 0.0 <==> b.tag != Unlabelled
    ensures b.tag == Unlabelled ==> b.size == 0.0
  {
    if c.high > swing.high then Break(Bullish, c.high - swing.high)
    else if c.low < swing.low then Break(Bearish, swing.low - c.low)
    else NoBreak
  }

  /** The swing points after candle c: only the side that broke moves. */
  function Advance(swing: Swing, c: Candle): Swing
  {
    if c.high > swing.high then Swing(c.high, swing.low)
    else if c.low < swing.low then Swing(swing.high, c.low)
    else swing
  }

  /** The swing points once rows 0..i have been scanned; seeded from row 0. */
  function SwingThrough(rows: seq<Candle>, i: nat): Swing
    requires i < |rows|
  {
    if i == 0 then Swing(rows[0].high, rows[0].low)
    else Advance(SwingThrough(rows, i - 1), rows[i])
  }

  /** The label and strength of row i when the high and low columns exist. */
  function BreakAt(rows: seq<Candle>, i: nat): Break
    requires i < |rows|
  {
    if i == 0 then NoBreak else Classify(SwingThrough(rows, i - 1), rows[i])
  }

  /** The bos / bos_strength cell of row i, including the fail-soft case. */
  function BosAt(frame: Frame, i: nat): Break
    requires i < |frame.rows|
  {
    if HasHighLow(frame) then BreakAt(frame.rows, i) else NoBreak
  }

  /** Row i makes a high strictly above every earlier row's high. */
  predicate NewHigh(rows: seq<Candle>, i: nat)
    requires i < |rows|
  {
    forall k :: 0 <= k < i ==> rows[k].high < rows[i].high
  }

  // ---------------------------------------------------------------------------
  // Break of structure: the scan
  // ---------------------------------------------------------------------------

  /**
   * The BOS detector. Returns the bos and bos_strength columns, one cell per
   * row; the input table is a value and is not changed.
   */
  method DetectBreakOfStructure(frame: Frame) returns (bos: seq<Label>, strength: seq<real>)
    ensures |bos| == |frame.rows| && |strength| == |frame.rows|
    ensures forall i :: 0 <= i < |bos| ==> bos[i] == BosAt(frame, i).tag && strength[i] == BosAt(frame, i).size
    ensures !HasHighLow(frame) || |frame.rows| < 2 ==>
              forall i :: 0 <= i < |bos| ==> bos[i] == Unlabelled && strength[i] == 0.0
  {
    var n := |frame.rows|;
    if !HasHighLow(frame) {
      bos, strength := seq(n, _ => Unlabelled), seq(n, _ => 0.0);
      return;
    }
    if n < 2 {
      bos, strength := seq(n, _ => Unlabelled), seq(n, _ => 0.0);
      return;
    }
    bos, strength := [Unlabelled], [0.0];
    var swingHigh, swingLow := frame.rows[0].high, frame.rows[0].low;
    for i := 1 to n
      invariant |bos| == i && |strength| == i
      invariant Swing(swingHigh, swingLow) == SwingThrough(frame.rows, i - 1)
      invariant forall k :: 0 <= k < i ==> bos[k] == BreakAt(frame.rows, k).tag && strength[k] == BreakAt(frame.rows, k).size
    {
      var high, low := frame.rows[i].high, frame.rows[i].low;
      if high > swingHigh {
        bos, strength := bos + [Bullish], strength + [high - swingHigh];
        swingHigh := high;
      } else if low < swingLow {
        bos, strength := bos + [Bearish], strength + [swingLow - low];
        swingLow := low;
      } else {
        bos, strength := bos + [Unlabelled], strength + [0.0];
      }
    }
  }

  // ---------------------------------------------------------------------------
  // Break of structure: properties
  // ---------------------------------------------------------------------------

  /** After rows 0..i the swing high is the largest high among them. */
  lemma {:induction false} SwingHighIsRunningMax(rows: seq<Candle>, i: nat)
    requires i < |rows|
    ensures forall k :: 0 <= k <= i ==> rows[k].high <= SwingThrough(rows, i).high
    ensures exists k :: 0 <= k <= i && rows[k].high == SwingThrough(rows, i).high
  {
    if i == 0 {
      assert rows[0].high == SwingThrough(rows, 0).high;
    } else {
      SwingHighIsRunningMax(rows, i - 1);
      var k :| 0 <= k <= i - 1 && rows[k].high == SwingThrough(rows, i - 1).high;
      if rows[i].high > SwingThrough(rows, i - 1).high {
        assert rows[i].high == SwingThrough(rows, i).high;
      } else {
        assert rows[k].high == SwingThrough(rows, i).high;
      }
    }
  }

  /** A row is a new high exactly when it clears the swing high of the rows before it. */
  lemma NewHighIffAboveSwing(rows: seq<Candle>, i: nat)
    requires 1 <= i < |rows|
    ensures NewHigh(rows, i) <==> rows[i].high > SwingThrough(rows, i - 1).high
  {
    SwingHighIsRunningMax(rows, i - 1);
    var k :| 0 <= k <= i - 1 && rows[k].high == SwingThrough(rows, i - 1).high;
    if NewHigh(rows, i) {
      assert rows[k].high < rows[i].high;
    }
  }

  /**
   * Row i (i >= 1) is bullish exactly when it is a new high, with strength its
   * excess over the previous highest high; it is bearish exactly when it is not
   * a new high and undercuts the swing low; every label carries a positive
   * strength and an unlabelled row strength 0.
   */
  lemma BreakAtCharacterised(rows: seq<Candle>, i: nat)
    requires 1 <= i < |rows|
    ensures BreakAt(rows, i).tag == Bullish <==> NewHigh(rows, i)
    ensures BreakAt(rows, i).tag == Bullish ==>
              BreakAt(rows, i).size == rows[i].high - SwingThrough(rows, i - 1).high
    ensures BreakAt(rows, i).tag == Bearish <==>
              !NewHigh(rows, i) && rows[i].low < SwingThrough(rows, i - 1).low
    ensures BreakAt(rows, i).tag == Bearish ==>
              BreakAt(rows, i).size == SwingThrough(rows, i - 1).low - rows[i].low
    ensures BreakAt(rows, i).size > 0.0 <==> BreakAt(rows, i).tag != Unlabelled
  {
    NewHighIffAboveSwing(rows, i);
  }

  /**
   * The swing low after rows 0..i is the lowest low among row 0 and the rows
   * 1..i that were not new highs: a new-high row never moves the swing low,
   * even when it also undercuts it.
   */
  lemma {:induction false} SwingLowIsMinOffNewHighs(rows: seq<Candle>, i: nat)
    requires i < |rows|
    ensures SwingThrough(rows, i).low <= rows[0].low
    ensures forall k :: 1 <= k <= i && !NewHigh(rows, k) ==> SwingThrough(rows, i).low <= rows[k].low
    ensures SwingThrough(rows, i).low == rows[0].low ||
            exists k :: 1 <= k <= i && !NewHigh(rows, k) && SwingThrough(rows, i).low == rows[k].low
  {
    if i > 0 {
      SwingLowIsMinOffNewHighs(rows, i - 1);
      NewHighIffAboveSwing(rows, i);
      var prev := SwingThrough(rows, i - 1);
      if rows[i].high > prev.high {
        assert NewHigh(rows, i);
        assert SwingThrough(rows, i).low == prev.low;
      } else {
        assert !NewHigh(rows, i);
        if rows[i].low < prev.low {
          assert SwingThrough(rows, i).low == rows[i].low;
        } else {
          assert SwingThrough(rows, i).low == prev.low;
        }
      }
    }
  }

  /** The swing high never falls and the swing low never rises along the scan. */
  lemma {:induction false} SwingsAreMonotone(rows: seq<Candle>, j: nat, i: nat)
    requires j <= i < |rows|
    ensures SwingThrough(rows, j).high <= SwingThrough(rows, i).high
    ensures SwingThrough(rows, i).low <= SwingThrough(rows, j).low
    decreases i - j
  {
    if j < i {
      SwingsAreMonotone(rows, j, i - 1);
    }
  }

  /**
   * A bullish row strictly raises the swing high and leaves the swing low; a
   * bearish row strictly lowers the swing low and leaves the swing high.
   * In particular an outside bar (a new high that also undercuts the swing
   * low) is labelled bullish and the swing low stays where it was.
   */
  lemma BreaksMoveOneSwing(rows: seq<Candle>, i: nat)
    requires 1 <= i < |rows|
    ensures BreakAt(rows, i).tag == Bullish ==>
              SwingThrough(rows, i).high > SwingThrough(rows, i - 1).high &&
              SwingThrough(rows, i).low == SwingThrough(rows, i - 1).low
    ensures BreakAt(rows, i).tag == Bearish ==>
              SwingThrough(rows, i).low < SwingThrough(rows, i - 1).low &&
              SwingThrough(rows, i).high == SwingThrough(rows, i - 1).high
    ensures BreakAt(rows, i).tag == Unlabelled ==> SwingThrough(rows, i) == SwingThrough(rows, i - 1)
    ensures NewHigh(rows, i) && rows[i].low < SwingThrough(rows, i - 1).low ==>
              BreakAt(rows, i).tag == Bullish && SwingThrough(rows, i).low == SwingThrough(rows, i - 1).low
  {
    BreakAtCharacterised(rows, i);
  }

  /**
   * When the highs rise strictly from row to row, every row after the first
   * is a bullish break whose strength is its rise over the row before.
   */
  lemma RisingHighsAreAllBullish(rows: seq<Candle>, i: nat)
    requires 1 <= i < |rows|
    requires forall k :: 1 <= k < |rows| ==> rows[k - 1].high < rows[k].high
    ensures BreakAt(rows, i) == Break(Bullish, rows[i].high - rows[i - 1].high)
  {
    RisingHighsIncrease(rows, i);
    SwingHighIsRunningMax(rows, i - 1);
    var k :| 0 <= k <= i - 1 && rows[k].high == SwingThrough(rows, i - 1).high;
    if k < i - 1 {
      RisingHighsIncrease(rows, i - 1);
    }
  }

  /** Under strictly rising highs, every earlier high lies below row i's. */
  lemma {:induction false} RisingHighsIncrease(rows: seq<Candle>, i: nat)
    requires i < |rows|
    requires forall k :: 1 <= k < |rows| ==> rows[k - 1].high < rows[k].high
    ensures forall k :: 0 <= k < i ==> rows[k].high < rows[i].high
  {
    if i > 0 {
      RisingHighsIncrease(rows, i - 1);
    }
  }

  // ---------------------------------------------------------------------------
  // Fair value gaps
  // ---------------------------------------------------------------------------

  /**
   * The gap between the candles either side of a middle candle: bullish when
   * the later low clears the earlier high, else bearish when the later high
   * stays under the earlier low. The middle candle takes no part.
   */
  function GapBetween(prev: Candle, next: Candle): (b: Break)
    ensures b.size > 0.0 <==> b.tag != Unlabelled
    ensures b.tag == Unlabelled ==> b.size == 0.0
  {
    if next.low > prev.high then Break(Bullish, next.low - prev.high)
    else if next.high < prev.low then Break(Bearish, prev.low - next.high)
    else NoBreak
  }

  /** The fvg / fvg_gap cell of row i: the first and last rows have no window. */
  function FvgAt(frame: Frame, i: nat): Break
    requires i < |frame.rows|
  {
    if !HasHighLow(frame) || i == 0 || i == |frame.rows| - 1 then NoBreak
    else GapBetween(frame.rows[i - 1], frame.rows[i + 1])
  }

  /**
   * The FVG detector. Returns the fvg and fvg_gap columns, one cell per row;
   * the input table is a value and is not changed.
   */
  method DetectFairValueGaps(frame: Frame) returns (fvg: seq<Label>, gap: seq<real>)
    ensures |fvg| == |frame.rows| && |gap| == |frame.rows|
    ensures forall i :: 0 <= i < |fvg| ==> fvg[i] == FvgAt(frame, i).tag && gap[i] == FvgAt(frame, i).size
    ensures !HasHighLow(frame) || |frame.rows| < 3 ==>
              forall i :: 0 <= i < |fvg| ==> fvg[i] == Unlabelled && gap[i] == 0.0
    ensures |fvg| > 0 ==> fvg[0] == Unlabelled && gap[0] == 0.0 && fvg[|fvg| - 1] == Unlabelled && gap[|gap| - 1] == 0.0
  {
    var n := |frame.rows|;
    if !HasHighLow(frame) {
      fvg, gap := seq(n, _ => Unlabelled), seq(n, _ => 0.0);
      return;
    }
    if n < 3 {
      fvg, gap := seq(n, _ => Unlabelled), seq(n, _ => 0.0);
      return;
    }
    fvg, gap := [Unlabelled], [0.0];
    for i := 1 to n - 1
      invariant |fvg| == i && |gap| == i
      invariant forall k :: 0 <= k < i ==> fvg[k] == FvgAt(frame, k).tag && gap[k] == FvgAt(frame, k).size
    {
      var prevHigh, prevLow := frame.rows[i - 1].high, frame.rows[i - 1].low;
      var nextLow, nextHigh := frame.rows[i + 1].low, frame.rows[i + 1].high;
      if nextLow > prevHigh {
        fvg, gap := fvg + [Bullish], gap + [nextLow - prevHigh];
      } else if nextHigh < prevLow {
        fvg, gap := fvg + [Bearish], gap + [prevLow - nextHigh];
      } else {
        fvg, gap := fvg + [Unlabelled], gap + [0.0];
      }
    }
    fvg, gap := fvg + [Unlabelled], gap + [0.0];
  }

  /**
   * The FVG cell of an interior row depends on the high and low of its two
   * neighbours only: two tables that agree on those get the same cell, whatever
   * row i itself and every other row hold.
   */
  lemma FvgDependsOnNeighboursOnly(f: Frame, g: Frame, i: nat)
    requires 1 <= i && i + 1 < |f.rows| && |f.rows| == |g.rows|
    requires HasHighLow(f) == HasHighLow(g)
    requires f.rows[i - 1].high == g.rows[i - 1].high && f.rows[i - 1].low == g.rows[i - 1].low
    requires f.rows[i + 1].high == g.rows[i + 1].high && f.rows[i + 1].low == g.rows[i + 1].low
    ensures FvgAt(f, i) == FvgAt(g, i)
  {
  }

  /**
   * When every low sits at one level that no high goes under, no three-candle
   * window forms a gap.
   */
  lemma FlatLowsLeaveNoGaps(frame: Frame, level: real, i: nat)
    requires i < |frame.rows|
    requires forall k :: 0 <= k < |frame.rows| ==> frame.rows[k].low == level && level <= frame.rows[k].high
    ensures FvgAt(frame, i) == NoBreak
  {
  }
}
