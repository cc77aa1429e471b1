/** The indicators a simulated bar is judged by (data/indicators.py). */
module Indicators {
  import opened Construction
  import opened Rounding
  import opened Wrappers

  datatype Bars = Bars(opens: seq<real>, highs: seq<real>, lows: seq<real>, closes: seq<real>) {
    predicate SameLength() { |opens| == |highs| == |lows| == |closes| }

    /** Bars `lo` to `hi - 1`. */
    function Slice(lo: nat, hi: nat): Bars
      requires SameLength() && lo <= hi <= |closes|
    {
      Bars(opens[lo..hi], highs[lo..hi], lows[lo..hi], closes[lo..hi])
    }
  }

  // ---------------------------------------------------------------- exponential averages

  /** The recursive exponential average, started at the first value. */
  function Ewm(xs: seq<real>, alpha: real, k: nat): real
    requires k < |xs|
  {
    if k == 0 then xs[0] else Times(1.0 - alpha, Ewm(xs, alpha, k - 1)) + Times(alpha, xs[k])
  }

  function Ema(xs: seq<real>, span: nat, k: nat): real
    requires k < |xs|
  {
    Ewm(xs, 2.0 / (span as real + 1.0), k)
  }

  function Gains(xs: seq<real>): seq<real> {
    seq(if |xs| == 0 then 0 else |xs| - 1, j requires 0 <= j < |xs| - 1 => Max(xs[j + 1] - xs[j], 0.0))
  }

  function Losses(xs: seq<real>): seq<real> {
    seq(if |xs| == 0 then 0 else |xs| - 1, j requires 0 <= j < |xs| - 1 => -Min(xs[j + 1] - xs[j], 0.0))
  }

  function RsiOf(gain: real, loss: real): real {
    if loss == 0.0 || 1.0 + gain / loss == 0.0 then 100.0 else 100.0 - 100.0 / (1.0 + gain / loss)
  }

  /** The first bar, and every bar without losses so far, reads 100. */
  function Rsi(xs: seq<real>, period: nat, k: nat): real
    requires k < |xs| && period >= 1
  {
    if k == 0 then 100.0
    else RsiOf(Ewm(Gains(xs), 1.0 / period as real, k - 1), Ewm(Losses(xs), 1.0 / period as real, k - 1))
  }

  function TrueRanges(b: Bars): seq<real>
    requires b.SameLength()
  {
    seq(|b.closes|, j requires 0 <= j < |b.closes| =>
      if j == 0 then b.highs[0] - b.lows[0]
      else Max(b.highs[j] - b.lows[j], Max(Abs(b.highs[j] - b.closes[j - 1]), Abs(b.lows[j] - b.closes[j - 1]))))
  }

  function Atr(b: Bars, period: nat, k: nat): real
    requires b.SameLength() && k < |b.closes| && period >= 1
  {
    Ewm(TrueRanges(b), 1.0 / period as real, k)
  }

  function MacdLine(xs: seq<real>): seq<real> {
    seq(|xs|, j requires 0 <= j < |xs| => Ema(xs, 12, j) - Ema(xs, 26, j))
  }

  function MacdHistogram(xs: seq<real>, k: nat): real
    requires k < |xs|
  {
    MacdLine(xs)[k] - Ema(MacdLine(xs), 9, k)
  }

  // ---------------------------------------------------------------- structure

  function MaxOf(xs: seq<real>): real
    requires xs != []
  {
    if |xs| == 1 then xs[0] else Max(MaxOf(xs[..|xs| - 1]), xs[|xs| - 1])
  }

  function MinOf(xs: seq<real>): real
    requires xs != []
  {
    if |xs| == 1 then xs[0] else Min(MinOf(xs[..|xs| - 1]), xs[|xs| - 1])
  }

  datatype Bos = Bos(bullish: bool, bearish: bool, swingHigh: Option<real>, swingLow: Option<real>)

  /** Break of structure against the 20 bars before the last one. */
  function DetectBos(win: Bars, atr: real): Bos
    requires win.SameLength()
  {
    var n := |win.closes|;
    if n < 21 || atr <= 0.0 then Bos(false, false, None, None)
    else
      var high, low, last := MaxOf(win.highs[n - 21..n - 1]), MinOf(win.lows[n - 21..n - 1]), win.closes[n - 1];
      Bos(last - high > 0.2 * atr, low - last > 0.2 * atr, Some(Price5(high)), Some(Price5(low)))
  }

  function LastOf<T>(xs: seq<T>, n: nat): seq<T> { if |xs| <= n then xs else xs[|xs| - n..] }

  function MinGap(atr: real): real { if atr > 0.0 then atr * 0.05 else 0.0 }

  predicate BullGapAt(win: Bars, atr: real, i: nat)
    requires win.SameLength() && 2 <= i < |win.closes|
  {
    win.lows[i] > win.highs[i - 2] && win.lows[i] - win.highs[i - 2] >= MinGap(atr)
    && win.closes[|win.closes| - 1] >= win.highs[i - 2]
  }

  predicate BearGapAt(win: Bars, atr: real, i: nat)
    requires win.SameLength() && 2 <= i < |win.closes|
  {
    win.highs[i] < win.lows[i - 2] && win.lows[i - 2] - win.highs[i] >= MinGap(atr)
    && win.closes[|win.closes| - 1] <= win.lows[i - 2]
  }

  function BullGap(win: Bars, atr: real, i: nat): seq<Fvg>
    requires win.SameLength() && 2 <= i < |win.closes|
  {
    if BullGapAt(win, atr, i) then [Fvg(Some(Price5(win.lows[i])), Some(Price5(win.highs[i - 2])))] else []
  }

  function BearGap(win: Bars, atr: real, i: nat): seq<Fvg>
    requires win.SameLength() && 2 <= i < |win.closes|
  {
    if BearGapAt(win, atr, i) then [Fvg(Some(Price5(win.lows[i - 2])), Some(Price5(win.highs[i])))] else []
  }

  /** The gaps completed at bars `start` to `i - 1`, oldest first. */
  function BullGaps(win: Bars, atr: real, start: nat, i: nat): seq<Fvg>
    requires win.SameLength() && 2 <= start <= i <= |win.closes|
  {
    if i == start then []
    else
      BullGaps(win, atr, start, i - 1) + BullGap(win, atr, i - 1)
  }

  function BearGaps(win: Bars, atr: real, start: nat, i: nat): seq<Fvg>
    requires win.SameLength() && 2 <= start <= i <= |win.closes|
  {
    if i == start then []
    else
      BearGaps(win, atr, start, i - 1) + BearGap(win, atr, i - 1)
  }

  datatype Gaps = Gaps(bullish: seq<Fvg>, bearish: seq<Fvg>, hasBullish: bool, hasBearish: bool)

  function FirstGapBar(n: nat): nat { if n < 22 then 2 else n - 20 }

  function GapsOf(win: Bars, atr: real): Gaps
    requires win.SameLength()
  {
    var n := |win.closes|;
    if n < 3 then Gaps([], [], false, false)
    else
      var bull, bear := BullGaps(win, atr, FirstGapBar(n), n), BearGaps(win, atr, FirstGapBar(n), n);
      Gaps(LastOf(bull, 3), LastOf(bear, 3), bull != [], bear != [])
  }

  lemma NextGap(win: Bars, atr: real, start: nat, i: nat)
    requires win.SameLength() && 2 <= start <= i < |win.closes|
    ensures BullGaps(win, atr, start, i + 1) == BullGaps(win, atr, start, i) + BullGap(win, atr, i)
    ensures BearGaps(win, atr, start, i + 1) == BearGaps(win, atr, start, i) + BearGap(win, atr, i)
  {
    hide BullGap, BearGap;
  }

  lemma NoGaps(win: Bars, atr: real, start: nat)
    requires win.SameLength() && 2 <= start <= |win.closes|
    ensures BullGaps(win, atr, start, start) == [] && BearGaps(win, atr, start, start) == []
  {
  }

  method DetectFvg(win: Bars, atr: real) returns (gaps: Gaps)
    requires win.SameLength()
    ensures gaps == GapsOf(win, atr)
  {
    var n := |win.closes|;
    if n < 3 {
      return Gaps([], [], false, false);
    }
    hide BullGaps, BearGaps, BullGap, BearGap, LastOf;
    var bull: seq<Fvg>, bear: seq<Fvg> := [], [];
    var minSize := if atr > 0.0 then atr * 0.05 else 0.0;
    var price := win.closes[n - 1];
    var start := if 2 > n - 20 then 2 else n - 20;
    NoGaps(win, atr, start);
    for i := start to n
      invariant bull == BullGaps(win, atr, start, i)
      invariant bear == BearGaps(win, atr, start, i)
    {
      NextGap(win, atr, start, i);
      var up, down := GapsClosedBy(win, atr, minSize, price, i);
      bull, bear := bull + up, bear + down;
    }
    return Gaps(LastOf(bull, 3), LastOf(bear, 3), |bull| > 0, |bear| > 0);
  }

  /** The gap that bar `i` closes on either side, if one does. */
  method GapsClosedBy(win: Bars, atr: real, minSize: real, price: real, i: nat) returns (bull: seq<Fvg>, bear: seq<Fvg>)
    requires win.SameLength() && 2 <= i < |win.closes|
    requires minSize == (if atr > 0.0 then atr * 0.05 else 0.0) && price == win.closes[|win.closes| - 1]
    ensures bull == BullGap(win, atr, i) && bear == BearGap(win, atr, i)
  {
    hide Price5;
    bull, bear := [], [];
    var hPrev, lPrev, h, l := win.highs[i - 2], win.lows[i - 2], win.highs[i], win.lows[i];
    if l > hPrev && l - hPrev >= minSize {
      if price >= hPrev {
        bull := [Fvg(Some(Price5(l)), Some(Price5(hPrev)))];
      }
    }
    if h < lPrev && lPrev - h >= minSize {
      if price <= lPrev {
        bear := [Fvg(Some(Price5(lPrev)), Some(Price5(h)))];
      }
    }
  }

  const SWING := 5

  /** The swing highs among bars `SWING` to `i - 1`: highs not exceeded within five bars either way. */
  function HighsUpTo(highs: seq<real>, i: nat): seq<real>
    requires i == 0 || i + SWING <= |highs|
  {
    if i <= SWING then []
    else HighsUpTo(highs, i - 1) + Peak(highs, i - 1)
  }

  function LowsUpTo(lows: seq<real>, i: nat): seq<real>
    requires i == 0 || i + SWING <= |lows|
  {
    if i <= SWING then []
    else LowsUpTo(lows, i - 1) + Trough(lows, i - 1)
  }

  function Peak(highs: seq<real>, i: nat): seq<real>
    requires SWING <= i && i + SWING < |highs|
  {
    if IsPeak(highs, i) then [highs[i]] else []
  }

  function Trough(lows: seq<real>, i: nat): seq<real>
    requires SWING <= i && i + SWING < |lows|
  {
    if IsTrough(lows, i) then [lows[i]] else []
  }

  predicate IsPeak(highs: seq<real>, i: nat)
    requires SWING <= i && i + SWING < |highs|
  {
    highs[i] == MaxOf(highs[i - SWING..i + SWING + 1])
  }

  predicate IsTrough(lows: seq<real>, i: nat)
    requires SWING <= i && i + SWING < |lows|
  {
    lows[i] == MinOf(lows[i - SWING..i + SWING + 1])
  }

  datatype Swings = Swings(highs: seq<real>, lows: seq<real>)

  function SwingsOf(win: Bars): Swings
    requires win.SameLength()
  {
    var n := if |win.closes| < SWING then 0 else |win.closes| - SWING;
    Swings(LastOf(HighsUpTo(win.highs, n), 5), LastOf(LowsUpTo(win.lows, n), 5))
  }

  lemma NextSwing(xs: seq<real>, i: nat)
    requires SWING <= i && i + SWING < |xs|
    ensures HighsUpTo(xs, i + 1) == if xs[i] == MaxOf(xs[i - SWING..i + SWING + 1]) then HighsUpTo(xs, i) + [xs[i]] else HighsUpTo(xs, i)
    ensures LowsUpTo(xs, i + 1) == if xs[i] == MinOf(xs[i - SWING..i + SWING + 1]) then LowsUpTo(xs, i) + [xs[i]] else LowsUpTo(xs, i)
  {
    hide MaxOf, MinOf;
  }

  /** The first bars are too close to the edge to be swings. */
  lemma NoSwings(xs: seq<real>)
    ensures forall i :: 0 <= i <= SWING && (i == 0 || i + SWING <= |xs|) ==> HighsUpTo(xs, i) == LowsUpTo(xs, i) == []
  {
  }

  method FindSwings(win: Bars) returns (swings: Swings)
    requires win.SameLength()
    ensures swings == SwingsOf(win)
  {
    hide MaxOf, MinOf, HighsUpTo, LowsUpTo, LastOf;
    NoSwings(win.highs);
    NoSwings(win.lows);
    var highs: seq<real>, lows: seq<real> := [], [];
    var n := |win.closes|;
    var i := SWING;
    while i < n - SWING
      invariant SWING <= i && (i <= n - SWING || i == SWING)
      invariant n >= 2 * SWING ==> highs == HighsUpTo(win.highs, i) && lows == LowsUpTo(win.lows, i)
      invariant n < 2 * SWING ==> highs == lows == []
    {
      NextSwing(win.highs, i);
      NextSwing(win.lows, i);
      if win.highs[i] == MaxOf(win.highs[i - SWING..i + SWING + 1]) {
        highs := highs + [win.highs[i]];
      }
      if win.lows[i] == MinOf(win.lows[i - SWING..i + SWING + 1]) {
        lows := lows + [win.lows[i]];
      }
      i := i + 1;
    }
    return Swings(LastOf(highs, 5), LastOf(lows, 5));
  }

  function Somes(xs: seq<real>): seq<Option<real>> { seq(|xs|, j requires 0 <= j < |xs| => Some(xs[j])) }

  /** What trade construction reads of a window. */
  function StructureOf(win: Bars, atr: real): Structure
    requires win.SameLength()
  {
    Structure(Somes(SwingsOf(win).lows), Somes(SwingsOf(win).highs), GapsOf(win, atr).bullish, GapsOf(win, atr).bearish)
  }
}
