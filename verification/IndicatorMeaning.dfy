/** What the indicators of a simulated bar are, read off the prices (data/indicators.py): the
    recurrences of the averages without their divisions, and the levels of structure by what no
    other bar exceeds. */
module IndicatorMeaning {
  import opened Construction
  import opened ConstructionProperties
  import opened IndicatorProperties
  import opened Indicators
  import opened Rounding
  import opened Wrappers

  // ---------------------------------------------------------------- averages

  /** An EMA starts at the first price; `span + 1` times each value is `span - 1` times the one
      before plus twice the price. */
  lemma EmaRecurrence(xs: seq<real>, span: nat, k: nat)
    requires k < |xs|
    ensures Ema(xs, span, 0) == xs[0]
    ensures k > 0 ==> Times(span as real + 1.0, Ema(xs, span, k)) == Times(span as real - 1.0, Ema(xs, span, k - 1)) + 2.0 * xs[k]
  {
    if k > 0 {
      var p, alpha, was := span as real + 1.0, 2.0 / (span as real + 1.0), Ema(xs, span, k - 1);
      assert alpha * p == 2.0;
      Weighted(p, alpha, 2.0, was, xs[k]);
    }
  }

  lemma Weighted(p: real, alpha: real, share: real, was: real, x: real)
    requires alpha * p == share
    ensures Times(p, Times(1.0 - alpha, was) + Times(alpha, x)) == Times(p - share, was) + Times(share, x)
  {
    assert p * (1.0 - alpha) == p - share;
    assert p * ((1.0 - alpha) * was) == (p * (1.0 - alpha)) * was;
    assert p * (alpha * x) == (p * alpha) * x;
  }

  /** Wilder smoothing starts at the first value and moves by one `period`-th towards each new one. */
  lemma WilderRecurrence(xs: seq<real>, period: nat, k: nat)
    requires k < |xs| && period >= 1
    ensures Ewm(xs, 1.0 / period as real, 0) == xs[0]
    ensures k > 0 ==>
      var was, now := Ewm(xs, 1.0 / period as real, k - 1), Ewm(xs, 1.0 / period as real, k);
      Times(period as real, now - was) == xs[k] - was
  {
    if k > 0 {
      var p, alpha, was := period as real, 1.0 / period as real, Ewm(xs, 1.0 / period as real, k - 1);
      assert alpha * p == 1.0;
      Weighted(p, alpha, 1.0, was, xs[k]);
      MoveFrom(p, Ewm(xs, alpha, k), was, xs[k]);
    }
  }

  lemma MoveFrom(p: real, now: real, was: real, x: real)
    requires Times(p, now) == Times(p - 1.0, was) + Times(1.0, x)
    ensures Times(p, now - was) == x - was
  {
    assert p * (now - was) == p * now - p * was;
    assert (p - 1.0) * was == p * was - was;
  }

  /** The ATR smooths, in Wilder's way, what each bar spans together with the close before it. */
  lemma AtrMeaning(b: Bars, period: nat, k: nat)
    requires b.SameLength() && k < |b.closes| && period >= 1 && b.lows[k] <= b.highs[k]
    ensures k == 0 ==> Atr(b, period, k) == b.highs[0] - b.lows[0]
    ensures k > 0 ==>
      var was, range := Atr(b, period, k - 1), Max(b.highs[k], b.closes[k - 1]) - Min(b.lows[k], b.closes[k - 1]);
      Times(period as real, Atr(b, period, k) - was) == range - was
  {
    WilderRecurrence(TrueRanges(b), period, k);
    hide Ewm;
  }

  /** Each change of price is a gain or a loss, never both. */
  lemma ChangeMeaning(xs: seq<real>, j: nat)
    requires j + 1 < |xs|
    ensures |Gains(xs)| == |Losses(xs)| == |xs| - 1
    ensures Gains(xs)[j] - Losses(xs)[j] == xs[j + 1] - xs[j]
    ensures Gains(xs)[j] >= 0.0 && Losses(xs)[j] >= 0.0 && (Gains(xs)[j] == 0.0 || Losses(xs)[j] == 0.0)
  {
  }

  /** RSI is the smoothed gain in percent of smoothed gain and loss together, and 100 at the first
      bar and where there was no loss. */
  lemma RsiMeaning(xs: seq<real>, period: nat, k: nat)
    requires k < |xs| && period >= 1
    ensures k == 0 ==> Rsi(xs, period, k) == 100.0
    ensures k > 0 ==>
      var gain, loss := Ewm(Gains(xs), 1.0 / period as real, k - 1), Ewm(Losses(xs), 1.0 / period as real, k - 1);
      if loss == 0.0 then Rsi(xs, period, k) == 100.0 else Times(Rsi(xs, period, k), gain + loss) == 100.0 * gain
  {
    if k > 0 {
      var gain, loss := Ewm(Gains(xs), 1.0 / period as real, k - 1), Ewm(Losses(xs), 1.0 / period as real, k - 1);
      EwmNonNegative(Gains(xs), period, k - 1);
      EwmNonNegative(Losses(xs), period, k - 1);
      assert Rsi(xs, period, k) == RsiOf(gain, loss);
      hide Ewm, Gains, Losses, Rsi, RsiOf, Times;
      RsiOfMeaning(gain, loss);
    }
  }

  lemma RsiOfMeaning(gain: real, loss: real)
    requires gain >= 0.0 && loss >= 0.0
    ensures if loss == 0.0 then RsiOf(gain, loss) == 100.0 else Times(RsiOf(gain, loss), gain + loss) == 100.0 * gain
  {
    if loss > 0.0 {
      DivMonotone(0.0, gain, loss);
      var rs := gain / loss;
      assert rs * loss == gain;
      var share := 100.0 / (1.0 + rs);
      assert share * (1.0 + rs) == 100.0;
      assert (1.0 + rs) * loss == gain + loss;
      assert share * (gain + loss) == share * (1.0 + rs) * loss;
    }
  }

  /** The MACD histogram is how far the gap between EMA 12 and EMA 26 lies above its own EMA 9. */
  lemma MacdMeaning(xs: seq<real>, k: nat)
    requires k < |xs|
    ensures MacdHistogram(xs, 0) == 0.0
    ensures k > 0 ==>
      var line, before := Ema(xs, 12, k) - Ema(xs, 26, k), Ema(xs, 12, k - 1) - Ema(xs, 26, k - 1);
      10.0 * (line - MacdHistogram(xs, k)) == 8.0 * (before - MacdHistogram(xs, k - 1)) + 2.0 * line
  {
    EmaRecurrence(MacdLine(xs), 9, k);
    hide Ewm, Ema;
  }

  // ---------------------------------------------------------------- structure

  /** Bar `j` of a window is bar `lo + j` of the series, price by price. */
  lemma WindowMeaning(b: Bars, lo: nat, hi: nat, j: nat)
    requires b.SameLength() && lo <= hi <= |b.closes| && j < hi - lo
    ensures var win := b.Slice(lo, hi);
            && win.SameLength() && |win.closes| == hi - lo
            && win.opens[j] == b.opens[lo + j] && win.highs[j] == b.highs[lo + j]
            && win.lows[j] == b.lows[lo + j] && win.closes[j] == b.closes[lo + j]
  {
  }

  lemma {:induction false} MinMeaning(xs: seq<real>)
    requires xs != []
    ensures MinOf(xs) in xs && forall j :: 0 <= j < |xs| ==> MinOf(xs) <= xs[j]
  {
    if |xs| > 1 {
      MinMeaning(xs[..|xs| - 1]);
      assert xs == xs[..|xs| - 1] + [xs[|xs| - 1]];
    }
  }

  /** A break of structure: with 21 bars and a positive ATR, the last close is more than a fifth of
      an ATR beyond all of the 20 highs, or lows, before it; the levels reported are the outermost
      of these, rounded. */
  lemma BosMeaning(win: Bars, atr: real)
    requires win.SameLength()
    ensures var n, bos := |win.closes|, DetectBos(win, atr);
            if n < 21 || atr <= 0.0 then bos == Bos(false, false, None, None)
            else
              && (bos.bullish <==> forall j :: n - 21 <= j < n - 1 ==> win.closes[n - 1] > win.highs[j] + 0.2 * atr)
              && (bos.bearish <==> forall j :: n - 21 <= j < n - 1 ==> win.closes[n - 1] < win.lows[j] - 0.2 * atr)
              && (exists h :: h in win.highs[n - 21..n - 1] && bos.swingHigh == Some(Price5(h))
                    && forall j :: n - 21 <= j < n - 1 ==> win.highs[j] <= h)
              && (exists l :: l in win.lows[n - 21..n - 1] && bos.swingLow == Some(Price5(l))
                    && forall j :: n - 21 <= j < n - 1 ==> l <= win.lows[j])
  {
    var n := |win.closes|;
    if n >= 21 && atr > 0.0 {
      var highs, lows := win.highs[n - 21..n - 1], win.lows[n - 21..n - 1];
      MaxMeaning(highs);
      MinMeaning(lows);
      hide Price5, MaxOf, MinOf;
      assert forall j :: n - 21 <= j < n - 1 ==> win.highs[j] == highs[j - (n - 21)] && win.lows[j] == lows[j - (n - 21)];
      var h :| 0 <= h < 20 && highs[h] == MaxOf(highs);
      var l :| 0 <= l < 20 && lows[l] == MinOf(lows);
      assert win.highs[h + n - 21] == MaxOf(highs) && win.lows[l + n - 21] == MinOf(lows);
    }
  }

  /** The flagged positions from `lo` on, in order. */
  function Flagged(flags: seq<bool>, lo: nat): seq<nat> {
    if |flags| <= lo then []
    else Flagged(flags[..|flags| - 1], lo) + if flags[|flags| - 1] then [|flags| - 1] else []
  }

  /** `ks` are the last `m` flagged positions from `lo` on, or all of them if there are fewer. */
  ghost predicate LastFlagged(ks: seq<nat>, flags: seq<bool>, lo: nat, m: nat) {
    && |ks| <= m
    && (forall j :: 0 <= j < |ks| ==> lo <= ks[j] < |flags| && flags[ks[j]])
    && (forall i, j :: 0 <= i < j < |ks| ==> ks[i] < ks[j])
    && (forall i :: lo <= i < |flags| && flags[i] && i !in ks ==> |ks| == m && forall j :: 0 <= j < |ks| ==> i < ks[j])
  }

  lemma {:induction false} FlaggedAll(flags: seq<bool>, lo: nat)
    ensures LastFlagged(Flagged(flags, lo), flags, lo, |Flagged(flags, lo)|)
    ensures forall i :: lo <= i < |flags| && flags[i] ==> i in Flagged(flags, lo)
  {
    if |flags| > lo {
      var front, n := flags[..|flags| - 1], |flags| - 1;
      FlaggedAll(front, lo);
      forall i | lo <= i < |flags| && flags[i] ensures i in Flagged(flags, lo) {
        if i < n { assert front[i]; }
      }
    }
  }

  lemma LastOfFlagged(flags: seq<bool>, lo: nat, m: nat)
    ensures LastFlagged(LastOf(Flagged(flags, lo), m), flags, lo, m)
  {
    FlaggedAll(flags, lo);
    LastAreLast(Flagged(flags, lo), flags, lo, m);
  }

  lemma LastAreLast(all: seq<nat>, flags: seq<bool>, lo: nat, m: nat)
    requires LastFlagged(all, flags, lo, |all|) && forall i :: lo <= i < |flags| && flags[i] ==> i in all
    ensures LastFlagged(LastOf(all, m), flags, lo, m)
  {
    var ks := LastOf(all, m);
    if |all| > m {
      var d := |all| - m;
      assert forall j :: 0 <= j < m ==> ks[j] == all[d + j];
      forall q | d <= q < |all| ensures all[q] in ks {
        assert ks[q - d] == all[q];
      }
      forall i | lo <= i < |flags| && flags[i] && i !in ks ensures forall j :: 0 <= j < m ==> i < ks[j] {
        var k :| 0 <= k < |all| && all[k] == i;
        assert k < d;
      }
    }
  }

  /** Bar `i` lies wholly above bar `i - 2`, by at least a twentieth of a positive ATR, and the
      price is still at or above that gap's bottom. */
  predicate IsBullGap(win: Bars, atr: real, i: nat) {
    && win.SameLength() && 2 <= i < |win.closes|
    && win.highs[i - 2] < win.lows[i] && (atr > 0.0 ==> 20.0 * (win.lows[i] - win.highs[i - 2]) >= atr)
    && win.highs[i - 2] <= win.closes[|win.closes| - 1]
  }

  predicate IsBearGap(win: Bars, atr: real, i: nat) {
    && win.SameLength() && 2 <= i < |win.closes|
    && win.highs[i] < win.lows[i - 2] && (atr > 0.0 ==> 20.0 * (win.lows[i - 2] - win.highs[i]) >= atr)
    && win.closes[|win.closes| - 1] <= win.lows[i - 2]
  }

  function BullFlags(win: Bars, atr: real, n: nat): seq<bool> { seq(n, i requires 0 <= i < n => IsBullGap(win, atr, i)) }

  function BearFlags(win: Bars, atr: real, n: nat): seq<bool> { seq(n, i requires 0 <= i < n => IsBearGap(win, atr, i)) }

  /** The gap between bar `i` and the bar two before it, its edges rounded. */
  function BullGapOf(win: Bars, i: nat): Fvg
    requires win.SameLength() && 2 <= i < |win.closes|
  {
    Fvg(bottom := Some(Price5(win.highs[i - 2])), top := Some(Price5(win.lows[i])))
  }

  function BearGapOf(win: Bars, i: nat): Fvg
    requires win.SameLength() && 2 <= i < |win.closes|
  {
    Fvg(bottom := Some(Price5(win.highs[i])), top := Some(Price5(win.lows[i - 2])))
  }

  /** `gaps` are the gaps closed by the bars `ks`. */
  predicate BullGapsAt(gaps: seq<Fvg>, win: Bars, ks: seq<nat>) {
    && win.SameLength() && |gaps| == |ks|
    && forall j :: 0 <= j < |ks| ==> 2 <= ks[j] < |win.closes| && gaps[j] == BullGapOf(win, ks[j])
  }

  predicate BearGapsAt(gaps: seq<Fvg>, win: Bars, ks: seq<nat>) {
    && win.SameLength() && |gaps| == |ks|
    && forall j :: 0 <= j < |ks| ==> 2 <= ks[j] < |win.closes| && gaps[j] == BearGapOf(win, ks[j])
  }

  lemma OneBull(win: Bars, atr: real, lo: nat, hi: nat)
    requires win.SameLength() && 2 <= lo < hi <= |win.closes|
    ensures BullGaps(win, atr, lo, hi)
            == if IsBullGap(win, atr, hi - 1) then BullGaps(win, atr, lo, hi - 1) + [BullGapOf(win, hi - 1)]
               else BullGaps(win, atr, lo, hi - 1)
  {
    SameGapTest(win, atr, hi - 1);
    hide BullGapAt, IsBullGap;
  }

  lemma MoreBull(gaps: seq<Fvg>, win: Bars, ks: seq<nat>, k: nat)
    requires BullGapsAt(gaps, win, ks) && 2 <= k < |win.closes|
    ensures BullGapsAt(gaps + [BullGapOf(win, k)], win, ks + [k])
  {
    hide BullGapOf;
  }

  lemma {:induction false} AllBullGaps(win: Bars, atr: real, lo: nat, hi: nat)
    requires win.SameLength() && 2 <= lo <= hi <= |win.closes|
    ensures BullGapsAt(BullGaps(win, atr, lo, hi), win, Flagged(BullFlags(win, atr, hi), lo))
  {
    hide IsBullGap, BullGapOf;
    if hi > lo {
      AllBullGaps(win, atr, lo, hi - 1);
      OneBull(win, atr, lo, hi);
      hide BullGaps;
      var front := BullFlags(win, atr, hi - 1);
      assert BullFlags(win, atr, hi)[..hi - 1] == front;
      MoreBull(BullGaps(win, atr, lo, hi - 1), win, Flagged(front, lo), hi - 1);
      hide BullGapsAt;
    }
  }

  lemma OneBear(win: Bars, atr: real, lo: nat, hi: nat)
    requires win.SameLength() && 2 <= lo < hi <= |win.closes|
    ensures BearGaps(win, atr, lo, hi)
            == if IsBearGap(win, atr, hi - 1) then BearGaps(win, atr, lo, hi - 1) + [BearGapOf(win, hi - 1)]
               else BearGaps(win, atr, lo, hi - 1)
  {
    SameGapTest(win, atr, hi - 1);
    hide BearGapAt, IsBearGap;
  }

  lemma MoreBear(gaps: seq<Fvg>, win: Bars, ks: seq<nat>, k: nat)
    requires BearGapsAt(gaps, win, ks) && 2 <= k < |win.closes|
    ensures BearGapsAt(gaps + [BearGapOf(win, k)], win, ks + [k])
  {
    hide BearGapOf;
  }

  lemma {:induction false} AllBearGaps(win: Bars, atr: real, lo: nat, hi: nat)
    requires win.SameLength() && 2 <= lo <= hi <= |win.closes|
    ensures BearGapsAt(BearGaps(win, atr, lo, hi), win, Flagged(BearFlags(win, atr, hi), lo))
  {
    hide IsBearGap, BearGapOf;
    if hi > lo {
      AllBearGaps(win, atr, lo, hi - 1);
      OneBear(win, atr, lo, hi);
      hide BearGaps;
      var front := BearFlags(win, atr, hi - 1);
      assert BearFlags(win, atr, hi)[..hi - 1] == front;
      MoreBear(BearGaps(win, atr, lo, hi - 1), win, Flagged(front, lo), hi - 1);
      hide BearGapsAt;
    }
  }

  lemma SameGapTest(win: Bars, atr: real, i: nat)
    requires win.SameLength() && 2 <= i < |win.closes|
    ensures BullGapAt(win, atr, i) == IsBullGap(win, atr, i) && BearGapAt(win, atr, i) == IsBearGap(win, atr, i)
  {
  }

  /** The gaps reported on each side are those closed by the last three gap bars among the last 20
      (from the third on in a shorter window), oldest first; a side has a gap exactly if it
      reports one. */
  lemma GapsMeaning(win: Bars, atr: real)
    requires win.SameLength()
    ensures var n, gaps := |win.closes|, GapsOf(win, atr);
            var lo := if n < 22 then 2 else n - 20;
            && (exists ks :: LastFlagged(ks, BullFlags(win, atr, n), lo, 3) && BullGapsAt(gaps.bullish, win, ks))
            && (exists ks :: LastFlagged(ks, BearFlags(win, atr, n), lo, 3) && BearGapsAt(gaps.bearish, win, ks))
            && gaps.hasBullish == (gaps.bullish != []) && gaps.hasBearish == (gaps.bearish != [])
  {
    var n := |win.closes|;
    var lo := if n < 22 then 2 else n - 20;
    if n < 3 {
      assert LastFlagged([], BullFlags(win, atr, n), lo, 3) && LastFlagged([], BearFlags(win, atr, n), lo, 3);
      assert BullGapsAt([], win, []) && BearGapsAt([], win, []);
    } else {
      LastBull(win, atr, lo);
      LastBear(win, atr, lo);
      var bull, bear := BullGaps(win, atr, lo, n), BearGaps(win, atr, lo, n);
      assert GapsOf(win, atr) == Gaps(LastOf(bull, 3), LastOf(bear, 3), bull != [], bear != []);
      LastNonEmpty(BullGaps(win, atr, lo, n));
      LastNonEmpty(BearGaps(win, atr, lo, n));
      hide LastFlagged, BullGapsAt, BearGapsAt, BullGaps, BearGaps;
    }
  }

  lemma LastNonEmpty(xs: seq<Fvg>)
    ensures LastOf(xs, 3) == [] <==> xs == []
  {
  }

  lemma LastBull(win: Bars, atr: real, lo: nat)
    requires win.SameLength() && 2 <= lo <= |win.closes|
    ensures var n := |win.closes|;
            exists ks :: LastFlagged(ks, BullFlags(win, atr, n), lo, 3) && BullGapsAt(LastOf(BullGaps(win, atr, lo, n), 3), win, ks)
  {
    var n := |win.closes|;
    AllBullGaps(win, atr, lo, n);
    var gaps, ks := BullGaps(win, atr, lo, n), Flagged(BullFlags(win, atr, n), lo);
    LastOfFlagged(BullFlags(win, atr, n), lo, 3);
    hide BullGaps, Flagged, BullFlags, LastFlagged, BullGapOf;
    assert |gaps| == |ks|;
    assert BullGapsAt(LastOf(gaps, 3), win, LastOf(ks, 3));
    hide BullGapsAt;
  }

  lemma LastBear(win: Bars, atr: real, lo: nat)
    requires win.SameLength() && 2 <= lo <= |win.closes|
    ensures var n := |win.closes|;
            exists ks :: LastFlagged(ks, BearFlags(win, atr, n), lo, 3) && BearGapsAt(LastOf(BearGaps(win, atr, lo, n), 3), win, ks)
  {
    var n := |win.closes|;
    AllBearGaps(win, atr, lo, n);
    var gaps, ks := BearGaps(win, atr, lo, n), Flagged(BearFlags(win, atr, n), lo);
    LastOfFlagged(BearFlags(win, atr, n), lo, 3);
    hide BearGaps, Flagged, BearFlags, LastFlagged, BearGapOf;
    assert |gaps| == |ks|;
    assert BearGapsAt(LastOf(gaps, 3), win, LastOf(ks, 3));
    hide BearGapsAt;
  }

  // ---------------------------------------------------------------- swings

  /** No high within five bars either way exceeds that of bar `i`. */
  predicate IsSwingHigh(highs: seq<real>, i: nat) {
    5 <= i && i + 5 < |highs| && forall j :: i - 5 <= j <= i + 5 ==> highs[j] <= highs[i]
  }

  predicate IsSwingLow(lows: seq<real>, i: nat) {
    5 <= i && i + 5 < |lows| && forall j :: i - 5 <= j <= i + 5 ==> lows[i] <= lows[j]
  }

  function HighFlags(highs: seq<real>, n: nat): seq<bool> { seq(n, i requires 0 <= i < n => IsSwingHigh(highs, i)) }

  function LowFlags(lows: seq<real>, n: nat): seq<bool> { seq(n, i requires 0 <= i < n => IsSwingLow(lows, i)) }

  predicate ValuesAt(values: seq<real>, xs: seq<real>, ks: seq<nat>) {
    |values| == |ks| && forall j :: 0 <= j < |ks| ==> ks[j] < |xs| && values[j] == xs[ks[j]]
  }

  lemma SamePeakTest(xs: seq<real>, i: nat)
    requires 5 <= i && i + 5 < |xs|
    ensures IsPeak(xs, i) == IsSwingHigh(xs, i) && IsTrough(xs, i) == IsSwingLow(xs, i)
  {
    var win := xs[i - 5..i + 6];
    MaxMeaning(win);
    MinMeaning(win);
    hide MaxOf, MinOf;
    assert win[5] == xs[i];
    assert forall j :: i - 5 <= j <= i + 5 ==> xs[j] == win[j - i + 5];
  }

  lemma OneMoreValue(values: seq<real>, xs: seq<real>, ks: seq<nat>, k: nat)
    requires ValuesAt(values, xs, ks) && k < |xs|
    ensures ValuesAt(values + [xs[k]], xs, ks + [k])
  {
  }

  lemma OneHigh(xs: seq<real>, n: nat)
    requires 0 < n && n + 5 <= |xs|
    ensures HighsUpTo(xs, n) == if IsSwingHigh(xs, n - 1) then HighsUpTo(xs, n - 1) + [xs[n - 1]] else HighsUpTo(xs, n - 1)
  {
    if n > 5 { SamePeakTest(xs, n - 1); }
    hide IsPeak;
  }

  lemma {:induction false} AllHighs(xs: seq<real>, n: nat)
    requires n == 0 || n + 5 <= |xs|
    ensures ValuesAt(HighsUpTo(xs, n), xs, Flagged(HighFlags(xs, n), 0))
  {
    hide IsSwingHigh, HighsUpTo;
    if n > 0 {
      AllHighs(xs, n - 1);
      OneHigh(xs, n);
      var front := HighFlags(xs, n - 1);
      assert HighFlags(xs, n)[..n - 1] == front;
      OneMoreValue(HighsUpTo(xs, n - 1), xs, Flagged(front, 0), n - 1);
      hide ValuesAt;
    } else {
      assert HighsUpTo(xs, n) == [] by { NoHighs(xs); }
    }
  }

  lemma NoHighs(xs: seq<real>)
    ensures HighsUpTo(xs, 0) == []
  {
  }

  lemma OneLow(xs: seq<real>, n: nat)
    requires 0 < n && n + 5 <= |xs|
    ensures LowsUpTo(xs, n) == if IsSwingLow(xs, n - 1) then LowsUpTo(xs, n - 1) + [xs[n - 1]] else LowsUpTo(xs, n - 1)
  {
    if n > 5 { SamePeakTest(xs, n - 1); }
    hide IsTrough;
  }

  lemma {:induction false} AllLows(xs: seq<real>, n: nat)
    requires n == 0 || n + 5 <= |xs|
    ensures ValuesAt(LowsUpTo(xs, n), xs, Flagged(LowFlags(xs, n), 0))
  {
    hide IsSwingLow, LowsUpTo;
    if n > 0 {
      AllLows(xs, n - 1);
      OneLow(xs, n);
      var front := LowFlags(xs, n - 1);
      assert LowFlags(xs, n)[..n - 1] == front;
      OneMoreValue(LowsUpTo(xs, n - 1), xs, Flagged(front, 0), n - 1);
      hide ValuesAt;
    } else {
      assert LowsUpTo(xs, n) == [] by { NoLows(xs); }
    }
  }

  lemma NoLows(xs: seq<real>)
    ensures LowsUpTo(xs, 0) == []
  {
  }

  /** The swings are the last five bars on each side that nothing within five bars exceeds, oldest
      first. */
  lemma SwingsMeaning(win: Bars)
    requires win.SameLength()
    ensures var n, s := |win.closes|, SwingsOf(win);
            && (exists ks :: LastFlagged(ks, HighFlags(win.highs, n), 0, 5) && ValuesAt(s.highs, win.highs, ks))
            && (exists ks :: LastFlagged(ks, LowFlags(win.lows, n), 0, 5) && ValuesAt(s.lows, win.lows, ks))
  {
    var n := |win.closes|;
    var m := if n < 5 then 0 else n - 5;
    LastHighs(win.highs, n, m);
    LastLows(win.lows, n, m);
    hide LastFlagged, ValuesAt;
  }

  lemma LastHighs(xs: seq<real>, n: nat, m: nat)
    requires |xs| == n && m == if n < 5 then 0 else n - 5
    ensures exists ks :: LastFlagged(ks, HighFlags(xs, n), 0, 5) && ValuesAt(LastOf(HighsUpTo(xs, m), 5), xs, ks)
  {
    AllHighs(xs, m);
    NoneBehind(HighFlags(xs, n), m);
    assert HighFlags(xs, n)[..m] == HighFlags(xs, m);
    LastOfFlagged(HighFlags(xs, n), 0, 5);
    hide Flagged, LastFlagged, HighsUpTo, IsSwingHigh, HighFlags;
    assert ValuesAt(LastOf(HighsUpTo(xs, m), 5), xs, LastOf(Flagged(HighFlags(xs, n), 0), 5));
  }

  lemma LastLows(xs: seq<real>, n: nat, m: nat)
    requires |xs| == n && m == if n < 5 then 0 else n - 5
    ensures exists ks :: LastFlagged(ks, LowFlags(xs, n), 0, 5) && ValuesAt(LastOf(LowsUpTo(xs, m), 5), xs, ks)
  {
    AllLows(xs, m);
    NoneBehind(LowFlags(xs, n), m);
    assert LowFlags(xs, n)[..m] == LowFlags(xs, m);
    LastOfFlagged(LowFlags(xs, n), 0, 5);
    hide Flagged, LastFlagged, LowsUpTo, IsSwingLow, LowFlags;
    assert ValuesAt(LastOf(LowsUpTo(xs, m), 5), xs, LastOf(Flagged(LowFlags(xs, n), 0), 5));
  }

  lemma {:induction false} NoneBehind(flags: seq<bool>, m: nat)
    requires m <= |flags| && forall i :: m <= i < |flags| ==> !flags[i]
    ensures Flagged(flags, 0) == Flagged(flags[..m], 0)
  {
    if m < |flags| {
      NoneBehind(flags[..|flags| - 1], m);
      assert flags[..|flags| - 1][..m] == flags[..m];
    } else {
      assert flags[..m] == flags;
    }
  }
}
