/**
 * Trade simulation: each signal becomes a trade with fixed stop-loss and
 * take-profit levels, resolved by scanning a few following candles, and the
 * results are tallied into a summary.
 */
module Executor {
  import opened Series
  import opened Signals

  /** Distance from entry to the stop, in price units. */
  const StopLossPips: int := 10
  /** Distance from entry to the target, in price units. */
  const TakeProfitPips: int := 20
  /** Candles scanned after the entry row when the caller gives no lookahead. */
  const DefaultLookahead: int := 3

  datatype Outcome = TP | SL

  datatype Levels = Levels(stop: real, target: real)

  /**
   * Why a simulation aborts: a direction that is neither long nor short, or a
   * candle lookup at a row or column the table does not have.
   */
  datatype TradeError = InvalidDirection(given: string) | LookupFailed(row: int)

  // ---------------------------------------------------------------------------
  // Direction parsing
  // ---------------------------------------------------------------------------

  function LowerChar(c: char): char
  {
    if 'A' <= c <= 'Z' then (c as int + 32) as char else c
  }

  /** s lower-cases to word (ASCII letters are folded, other characters kept). */
  predicate LowersTo(s: string, word: string)
  {
    |s| == |word| && forall i :: 0 <= i < |s| ==> LowerChar(s[i]) == word[i]
  }

  /** The direction a caller names, compared case-insensitively. */
  function ParseDirection(s: string): (r: Result<Direction, TradeError>)
    ensures r.Ok? <==> LowersTo(s, "long") || LowersTo(s, "short")
    ensures r.Ok? ==> (r.value == Long <==> LowersTo(s, "long"))
    ensures r.Err? ==> r.error == InvalidDirection(s)
  {
    if LowersTo(s, "long") then Ok(Long) else if LowersTo(s, "short") then Ok(Short) else Err(InvalidDirection(s))
  }

  /** The direction string a signal carries. */
  function Name(d: Direction): string
  {
    if d == Long then "long" else "short"
  }

  /** A signal's own direction string parses back to its direction. */
  lemma ParseOwnName(d: Direction)
    ensures ParseDirection(Name(d)) == Ok(d)
  {
    assert LowersTo(Name(d), Name(d));
  }

  // ---------------------------------------------------------------------------
  // Trade levels and the candle scan
  // ---------------------------------------------------------------------------

  /**
   * The stop and target of a trade: the stop 10 units against the trade, the
   * target 20 units in its favour.
   */
  function LevelsFor(d: Direction, price: real): (lv: Levels)
    ensures d == Long ==> lv.stop < price < lv.target
    ensures d == Short ==> lv.target < price < lv.stop
    ensures lv.stop - price == (if d == Long then -1.0 else 1.0) * (StopLossPips as real)
    ensures lv.target - price == -2.0 * (lv.stop - price)
  {
    if d == Long then Levels(price - StopLossPips as real, price + TakeProfitPips as real)
    else Levels(price + StopLossPips as real, price - TakeProfitPips as real)
  }

  /** The candle's range reaches the stop. */
  predicate StopTouched(d: Direction, lv: Levels, c: Candle)
  {
    if d == Long then c.low <= lv.stop else c.high >= lv.stop
  }

  /** The candle's range reaches the target. */
  predicate TargetTouched(d: Direction, lv: Levels, c: Candle)
  {
    if d == Long then c.high >= lv.target else c.low <= lv.target
  }

  /**
   * Resolves a trade over rows i..last: the first candle touching a level
   * decides, the stop winning within a candle; no touch is a loss.
   */
  function ScanFrom(rows: seq<Candle>, i: nat, last: int, d: Direction, lv: Levels): Outcome
    requires last < |rows|
    decreases last + 1 - i
  {
    if i > last then SL
    else if StopTouched(d, lv, rows[i]) then SL
    else if TargetTouched(d, lv, rows[i]) then TP
    else ScanFrom(rows, i + 1, last, d, lv)
  }

  function Min(a: int, b: int): int
  {
    if a <= b then a else b
  }

  /** The last row a trade opened at row index looks at. */
  function WindowEnd(frame: Frame, index: int, lookahead: int): int
  {
    Min(index + lookahead, |frame.rows| - 1)
  }

  /** The result of simulating one trade, or the error that aborts it. */
  function TradeResult(frame: Frame, index: int, price: real, direction: string, lookahead: int): Result<Outcome, TradeError>
  {
    match ParseDirection(direction)
    case Err(e) => Err(e)
    case Ok(d) =>
      var last := WindowEnd(frame, index, lookahead);
      if index + 1 > last then Ok(SL)
      else if index + 1 < 0 || !HasHighLow(frame) then Err(LookupFailed(index + 1))
      else Ok(ScanFrom(frame.rows, index + 1, last, d, LevelsFor(d, price)))
  }

  /**
   * simulate_trade: validate the direction, derive the levels, then walk the
   * candles index+1 .. min(index+lookahead, N-1), stopping at the first that
   * touches the stop (checked first) or the target. The default is SL.
   */
  method SimulateTrade(frame: Frame, index: int, price: real, direction: string, lookahead: int)
    returns (r: Result<Outcome, TradeError>)
    ensures r == TradeResult(frame, index, price, direction, lookahead)
  {
    var parsed := ParseDirection(direction);
    if parsed.Err? {
      return Err(parsed.error);
    }
    var d := parsed.value;
    var lv := LevelsFor(d, price);
    var result := SL;
    var last := Min(index + lookahead, |frame.rows| - 1);
    var i := index + 1;
    while i <= last
      invariant index + 1 <= i
      invariant i > index + 1 ==> 0 <= index + 1 && HasHighLow(frame)
      invariant 0 <= i && index + 1 <= last ==> ScanFrom(frame.rows, index + 1, last, d, lv) == ScanFrom(frame.rows, i, last, d, lv)
      invariant result == SL
      decreases last + 1 - i
    {
      if i < 0 || !HasHighLow(frame) {
        return Err(LookupFailed(i));
      }
      var high, low := frame.rows[i].high, frame.rows[i].low;
      if d == Long {
        if low <= lv.stop {
          result := SL;
          break;
        }
        if high >= lv.target {
          result := TP;
          break;
        }
      } else {
        if high >= lv.stop {
          result := SL;
          break;
        }
        if low <= lv.target {
          result := TP;
          break;
        }
      }
      i := i + 1;
    }
    return Ok(result);
  }

  // ---------------------------------------------------------------------------
  // Properties of a single trade
  // ---------------------------------------------------------------------------

  /**
   * The scan over rows i..last ends in TP exactly when some candle in it
   * reaches the target and no candle up to and including that one reaches
   * the stop.
   */
  lemma {:induction false} ScanWinsIff(rows: seq<Candle>, i: nat, last: int, d: Direction, lv: Levels)
    requires last < |rows|
    ensures ScanFrom(rows, i, last, d, lv) == TP <==>
              exists k :: i <= k <= last && TargetTouched(d, lv, rows[k]) &&
                          forall j :: i <= j <= k ==> !StopTouched(d, lv, rows[j])
    decreases last + 1 - i
  {
    if i <= last && !StopTouched(d, lv, rows[i]) {
      if TargetTouched(d, lv, rows[i]) {
        assert forall j :: i <= j <= i ==> !StopTouched(d, lv, rows[j]);
      } else {
        ScanWinsIff(rows, i + 1, last, d, lv);
        if ScanFrom(rows, i, last, d, lv) == TP {
          var k :| i + 1 <= k <= last && TargetTouched(d, lv, rows[k]) &&
                   forall j :: i + 1 <= j <= k ==> !StopTouched(d, lv, rows[j]);
          assert forall j :: i <= j <= k ==> !StopTouched(d, lv, rows[j]);
        }
      }
    }
  }

  /**
   * A trade fails with InvalidDirection exactly when its direction does not
   * lower-case to "long" or "short", whatever the table and the entry row.
   */
  lemma UnknownDirectionRejected(frame: Frame, index: int, price: real, direction: string, lookahead: int)
    ensures var r := TradeResult(frame, index, price, direction, lookahead);
            r.Err? && r.error.InvalidDirection? <==> !LowersTo(direction, "long") && !LowersTo(direction, "short")
  {
  }

  /**
   * For a valid direction and an entry row of the table, the simulation never
   * fails when the table has high and low columns, and:
   * it is a win exactly when a candle in the window reaches the target with no
   * candle up to it reaching the stop; an empty window, or a window where no
   * level is touched, is a loss; a first candle touching the stop is a loss
   * whatever else it touches.
   */
  lemma TradeCharacterised(frame: Frame, index: nat, price: real, direction: string, lookahead: int)
    requires ParseDirection(direction).Ok? && HasHighLow(frame)
    ensures var r := TradeResult(frame, index, price, direction, lookahead);
            var d := ParseDirection(direction).value;
            var lv := LevelsFor(d, price);
            var last := WindowEnd(frame, index, lookahead);
            r.Ok? &&
            (r.value == TP <==>
               exists k :: index + 1 <= k <= last && TargetTouched(d, lv, frame.rows[k]) &&
                           forall j :: index + 1 <= j <= k ==> !StopTouched(d, lv, frame.rows[j])) &&
            ((forall k :: index + 1 <= k <= last ==>
                !StopTouched(d, lv, frame.rows[k]) && !TargetTouched(d, lv, frame.rows[k])) ==> r.value == SL) &&
            (index + 1 <= last && StopTouched(d, lv, frame.rows[index + 1]) ==> r.value == SL)
  {
    var d := ParseDirection(direction).value;
    var last := WindowEnd(frame, index, lookahead);
    ScanWinsIff(frame.rows, index + 1, last, d, LevelsFor(d, price));
  }

  // ---------------------------------------------------------------------------
  // Running every signal and tallying
  // ---------------------------------------------------------------------------

  /** The simulation of one signal, with the default lookahead. */
  function SignalResult(frame: Frame, s: Signal): Result<Outcome, TradeError>
  {
    TradeResult(frame, s.index, s.price, Name(s.direction), DefaultLookahead)
  }

  /** The outcomes of the first k signals in order, or the first error met. */
  function OutcomesUpTo(frame: Frame, signals: seq<Signal>, k: nat): Result<seq<Outcome>, TradeError>
    requires k <= |signals|
  {
    if k == 0 then Ok([])
    else
      match OutcomesUpTo(frame, signals, k - 1)
      case Err(e) => Err(e)
      case Ok(os) =>
        match SignalResult(frame, signals[k - 1])
        case Err(e) => Err(e)
        case Ok(o) => Ok(os + [o])
  }

  /** The outcomes of all the signals in order, or the first error met. */
  function Outcomes(frame: Frame, signals: seq<Signal>): Result<seq<Outcome>, TradeError>
  {
    OutcomesUpTo(frame, signals, |signals|)
  }

  function Count(os: seq<Outcome>, o: Outcome): nat
  {
    if os == [] then 0 else (if os[0] == o then 1 else 0) + Count(os[1..], o)
  }

  /** The summary run returns: TP and SL counts, their total and the net pips. */
  datatype Summary = Summary(tp: int, sl: int, total: int, netPips: int)

  function Summarize(os: seq<Outcome>): Summary
  {
    var tp := Count(os, TP);
    var sl := Count(os, SL);
    Summary(tp, sl, tp + sl, tp * TakeProfitPips - sl * StopLossPips)
  }

  /** The result of run: the summary of all outcomes, or the first error. */
  function RunResult(frame: Frame, signals: seq<Signal>): Result<Summary, TradeError>
  {
    match Outcomes(frame, signals)
    case Err(e) => Err(e)
    case Ok(os) => Ok(Summarize(os))
  }

  /** Once the first k signals fail, the whole run fails with the same error. */
  lemma {:induction false} FirstErrorAborts(frame: Frame, signals: seq<Signal>, k: nat)
    requires k <= |signals| && OutcomesUpTo(frame, signals, k).Err?
    ensures Outcomes(frame, signals) == OutcomesUpTo(frame, signals, k)
    decreases |signals| - k
  {
    if k < |signals| {
      FirstErrorAborts(frame, signals, k + 1);
    }
  }

  /** Appending an outcome adds one to its own count and nothing to the other. */
  lemma {:induction false} CountStep(os: seq<Outcome>, o: Outcome)
    ensures Count(os + [o], TP) == Count(os, TP) + (if o == TP then 1 else 0)
    ensures Count(os + [o], SL) == Count(os, SL) + (if o == SL then 1 else 0)
  {
    if os != [] {
      assert (os + [o])[1..] == os[1..] + [o];
      CountStep(os[1..], o);
    }
  }

  /**
   * run: simulate every signal in order and count TP results and the rest
   * as SL; an error from a simulation aborts the run.
   */
  method Run(signals: seq<Signal>, frame: Frame) returns (r: Result<Summary, TradeError>)
    ensures r == RunResult(frame, signals)
  {
    var tpCount, slCount := 0, 0;
    ghost var os: seq<Outcome> := [];
    for k := 0 to |signals|
      invariant OutcomesUpTo(frame, signals, k) == Ok(os)
      invariant tpCount == Count(os, TP) && slCount == Count(os, SL)
    {
      var sig := signals[k];
      var result := SimulateTrade(frame, sig.index, sig.price, Name(sig.direction), DefaultLookahead);
      if result.Err? {
        FirstErrorAborts(frame, signals, k + 1);
        assert RunResult(frame, signals) == Err(result.error);
        return Err(result.error);
      }
      var outcome := result.value;
      CountStep(os, outcome);
      os := os + [outcome];
      if outcome == TP {
        tpCount := tpCount + 1;
      } else {
        slCount := slCount + 1;
      }
    }
    assert RunResult(frame, signals) == Ok(Summarize(os));
    var total := tpCount + slCount;
    var netPips := tpCount * TakeProfitPips - slCount * StopLossPips;
    return Ok(Summary(tpCount, slCount, total, netPips));
  }

  // ---------------------------------------------------------------------------
  // Properties of the tally
  // ---------------------------------------------------------------------------

  /** Every outcome is counted once, as a TP or as an SL. */
  lemma {:induction false} CountsPartition(os: seq<Outcome>)
    ensures Count(os, TP) + Count(os, SL) == |os|
  {
    if os != [] {
      CountsPartition(os[1..]);
    }
  }

  /** A successful run of the first k signals yields one outcome per signal. */
  lemma {:induction false} OutcomesPerSignal(frame: Frame, signals: seq<Signal>, k: nat)
    requires k <= |signals| && OutcomesUpTo(frame, signals, k).Ok?
    ensures |OutcomesUpTo(frame, signals, k).value| == k
  {
    if k > 0 {
      OutcomesPerSignal(frame, signals, k - 1);
    }
  }

  /**
   * A successful run counts every signal exactly once, and its net pips are
   * 20 per win less 10 per loss.
   */
  lemma RunAccounts(frame: Frame, signals: seq<Signal>)
    requires RunResult(frame, signals).Ok?
    ensures var s := RunResult(frame, signals).value;
            s.total == s.tp + s.sl == |signals| && 0 <= s.tp && 0 <= s.sl &&
            s.netPips == 20 * s.tp - 10 * s.sl
  {
    OutcomesPerSignal(frame, signals, |signals|);
    CountsPartition(Outcomes(frame, signals).value);
  }

  /**
   * The first k signals, when their rows lie in a table with high and low
   * columns, simulate without error.
   */
  lemma {:induction false} OutcomesSucceed(frame: Frame, signals: seq<Signal>, k: nat)
    requires k <= |signals|
    requires forall p :: 0 <= p < |signals| ==> 0 <= signals[p].index
    requires signals != [] ==> HasHighLow(frame)
    ensures OutcomesUpTo(frame, signals, k).Ok?
  {
    if k > 0 {
      OutcomesSucceed(frame, signals, k - 1);
      var s := signals[k - 1];
      ParseOwnName(s.direction);
      TradeCharacterised(frame, s.index, s.price, Name(s.direction), DefaultLookahead);
    }
  }

  /**
   * End to end: whatever signal extraction returns runs to a summary without
   * error, and that summary counts every extracted signal once.
   */
  lemma ExtractedSignalsRun(data: Option<Frame>)
    requires ExtractSignals(data).Ok?
    ensures var x := ExtractSignals(data).value;
            RunResult(x.table.frame, x.signals).Ok? &&
            RunResult(x.table.frame, x.signals).value.total == |x.signals|
  {
    var x := ExtractSignals(data).value;
    ExtractedSignalsAreTradeable(data);
    OutcomesSucceed(x.table.frame, x.signals, |x.signals|);
    RunAccounts(x.table.frame, x.signals);
  }

  // ---------------------------------------------------------------------------
  // Percentages of the summary
  // ---------------------------------------------------------------------------

  datatype Shares = Shares(tpPct: real, slPct: real)

  /** The TP and SL percentages of a summary, 0 for both when it has no trades. */
  function Percentages(s: Summary): (p: Shares)
    ensures s.total == 0 ==> p == Shares(0.0, 0.0)
    ensures s.total != 0 ==> p.tpPct * (s.total as real) == (s.tp as real) * 100.0 &&
                             p.slPct * (s.total as real) == (s.sl as real) * 100.0
  {
    if s.total != 0 then
      Shares((s.tp as real) / (s.total as real) * 100.0, (s.sl as real) / (s.total as real) * 100.0)
    else Shares(0.0, 0.0)
  }

  /** Multiplying by the same positive factor preserves order and equality. */
  lemma ScaleCancels(x: real, y: real, t: real)
    requires t > 0.0
    ensures x * t == y * t ==> x == y
    ensures x * t <= y * t ==> x <= y
  {
    if x > y {
      assert x * t > y * t;
    }
  }

  /**
   * For a summary whose total is its TP count plus its SL count and is
   * positive, the two percentages lie in 0..100 and add up to 100.
   */
  lemma SharesOfTrades(s: Summary)
    requires 0 <= s.tp && 0 <= s.sl && s.total == s.tp + s.sl > 0
    ensures var p := Percentages(s);
            0.0 <= p.tpPct <= 100.0 && 0.0 <= p.slPct <= 100.0 && p.tpPct + p.slPct == 100.0
  {
    var p := Percentages(s);
    var t, tp, sl := s.total as real, s.tp as real, s.sl as real;
    calc {
      (p.tpPct + p.slPct) * t;
      p.tpPct * t + p.slPct * t;
      tp * 100.0 + sl * 100.0;
      100.0 * t;
    }
    ScaleCancels(p.tpPct + p.slPct, 100.0, t);
    ScaleCancels(p.tpPct, 100.0, t);
    ScaleCancels(p.slPct, 100.0, t);
    ScaleCancels(0.0, p.tpPct, t);
    ScaleCancels(0.0, p.slPct, t);
  }

  /**
   * For the summary of a run with at least one trade the two percentages lie
   * in 0..100 and add up to 100.
   */
  lemma RunPercentages(frame: Frame, signals: seq<Signal>)
    requires RunResult(frame, signals).Ok? && signals != []
    ensures var p := Percentages(RunResult(frame, signals).value);
            0.0 <= p.tpPct <= 100.0 && 0.0 <= p.slPct <= 100.0 && p.tpPct + p.slPct == 100.0
  {
    RunAccounts(frame, signals);
    SharesOfTrades(RunResult(frame, signals).value);
  }
}
