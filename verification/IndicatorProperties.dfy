/** What the indicators promise: ranges, causality, and symmetry under the mirror of prices. */
module IndicatorProperties {
  import opened Construction
  import opened ConstructionProperties
  import opened Indicators
  import opened Rounding
  import opened Wrappers

  // ---------------------------------------------------------------- ranges

  /** An exponential average stays between the smallest and the largest value it has seen. */
  lemma {:induction false} EwmWithin(xs: seq<real>, alpha: real, k: nat, lo: real, hi: real)
    requires k < |xs| && 0.0 <= alpha <= 1.0 && forall j :: 0 <= j <= k ==> lo <= xs[j] <= hi
    ensures lo <= Ewm(xs, alpha, k) <= hi
  {
    if k > 0 {
      EwmWithin(xs, alpha, k - 1, lo, hi);
      Blend(alpha, Ewm(xs, alpha, k - 1), xs[k], lo, hi);
    }
  }

  lemma Blend(alpha: real, x: real, y: real, lo: real, hi: real)
    requires 0.0 <= alpha <= 1.0 && lo <= x <= hi && lo <= y <= hi
    ensures lo <= Times(1.0 - alpha, x) + Times(alpha, y) <= hi
  {
    Scale(1.0 - alpha, lo, x);
    Scale(1.0 - alpha, x, hi);
    Scale(alpha, lo, y);
    Scale(alpha, y, hi);
    Shares(alpha, lo);
    Shares(alpha, hi);
    hide Times;
  }

  lemma Scale(s: real, x: real, y: real)
    requires s >= 0.0 && x <= y
    ensures Times(s, x) <= Times(s, y)
  {
  }

  lemma Shares(alpha: real, v: real)
    ensures Times(1.0 - alpha, v) + Times(alpha, v) == v
  {
  }

  lemma EwmNonNegative(xs: seq<real>, period: nat, k: nat)
    requires period >= 1 && k < |xs| && forall j :: 0 <= j < |xs| ==> xs[j] >= 0.0
    ensures Ewm(xs, 1.0 / period as real, k) >= 0.0
  {
    UnitFraction(period);
    var hi := MaxOf(xs[..k + 1]);
    MaxMeaning(xs[..k + 1]);
    forall j | 0 <= j <= k ensures 0.0 <= xs[j] <= hi {
      assert xs[..k + 1][j] == xs[j];
    }
    EwmWithin(xs, 1.0 / period as real, k, 0.0, hi);
  }

  lemma UnitFraction(period: nat)
    requires period >= 1
    ensures 0.0 <= 1.0 / period as real <= 1.0
  {
    var p := period as real;
    DivMonotone(1.0, p, p);
    DivMonotone(0.0, 1.0, p);
  }

  lemma {:induction false} MaxMeaning(xs: seq<real>)
    requires xs != []
    ensures MaxOf(xs) in xs && forall j :: 0 <= j < |xs| ==> xs[j] <= MaxOf(xs)
  {
    if |xs| > 1 {
      MaxMeaning(xs[..|xs| - 1]);
      assert xs == xs[..|xs| - 1] + [xs[|xs| - 1]];
    }
  }

  /** RSI lies in [0, 100]; past the first bar it is 100 exactly when the average loss is zero, and
      0 exactly when there were losses but the average gain is zero. */
  lemma RsiRange(xs: seq<real>, period: nat, k: nat)
    requires 0 < k < |xs| && period >= 1
    ensures 0.0 <= Rsi(xs, period, k) <= 100.0
    ensures Rsi(xs, period, k) == 100.0 <==> Ewm(Losses(xs), 1.0 / period as real, k - 1) == 0.0
    ensures Rsi(xs, period, k) == 0.0 <==>
      Ewm(Losses(xs), 1.0 / period as real, k - 1) != 0.0 && Ewm(Gains(xs), 1.0 / period as real, k - 1) == 0.0
  {
    EwmNonNegative(Gains(xs), period, k - 1);
    EwmNonNegative(Losses(xs), period, k - 1);
    RatioRange(Ewm(Gains(xs), 1.0 / period as real, k - 1), Ewm(Losses(xs), 1.0 / period as real, k - 1));
  }

  lemma RatioRange(gain: real, loss: real)
    requires gain >= 0.0 && loss >= 0.0
    ensures 0.0 <= RsiOf(gain, loss) <= 100.0
    ensures RsiOf(gain, loss) == 100.0 <==> loss == 0.0
    ensures RsiOf(gain, loss) == 0.0 <==> loss != 0.0 && gain == 0.0
  {
    if loss != 0.0 {
      DivMonotone(0.0, gain, loss);
      var rs := gain / loss;
      assert rs * loss == gain;
      var share := 100.0 / (1.0 + rs);
      assert share * (1.0 + rs) == 100.0;
      assert share > 0.0;
      assert share <= 100.0 && (share == 100.0 <==> rs == 0.0) by {
        assert share * rs == 100.0 - share;
        if rs > 0.0 { assert share * rs > 0.0; }
      }
    }
  }

  // ---------------------------------------------------------------- causality

  predicate SamePrefix(xs: seq<real>, ys: seq<real>, k: nat) {
    k < |xs| && k < |ys| && forall j :: 0 <= j <= k ==> xs[j] == ys[j]
  }

  predicate SameUpTo(a: Bars, b: Bars, k: nat) {
    && a.SameLength() && b.SameLength()
    && SamePrefix(a.opens, b.opens, k) && SamePrefix(a.highs, b.highs, k)
    && SamePrefix(a.lows, b.lows, k) && SamePrefix(a.closes, b.closes, k)
  }

  lemma {:induction false} EwmCausal(xs: seq<real>, ys: seq<real>, alpha: real, k: nat)
    requires SamePrefix(xs, ys, k)
    ensures Ewm(xs, alpha, k) == Ewm(ys, alpha, k)
  {
    if k > 0 {
      EwmCausal(xs, ys, alpha, k - 1);
    }
  }

  lemma GainsCausal(xs: seq<real>, ys: seq<real>, k: nat)
    requires SamePrefix(xs, ys, k) && k > 0
    ensures SamePrefix(Gains(xs), Gains(ys), k - 1) && SamePrefix(Losses(xs), Losses(ys), k - 1)
  {
  }

  lemma RsiCausal(xs: seq<real>, ys: seq<real>, period: nat, k: nat)
    requires SamePrefix(xs, ys, k) && period >= 1
    ensures Rsi(xs, period, k) == Rsi(ys, period, k)
  {
    hide Ewm, RsiOf, Gains, Losses;
    if k > 0 {
      GainsCausal(xs, ys, k);
      EwmCausal(Gains(xs), Gains(ys), 1.0 / period as real, k - 1);
      EwmCausal(Losses(xs), Losses(ys), 1.0 / period as real, k - 1);
    }
  }

  lemma AtrCausal(a: Bars, b: Bars, period: nat, k: nat)
    requires SameUpTo(a, b, k) && period >= 1
    ensures Atr(a, period, k) == Atr(b, period, k)
  {
    EwmCausal(TrueRanges(a), TrueRanges(b), 1.0 / period as real, k);
  }

  lemma MacdCausal(xs: seq<real>, ys: seq<real>, k: nat)
    requires SamePrefix(xs, ys, k)
    ensures MacdHistogram(xs, k) == MacdHistogram(ys, k)
  {
    forall j | 0 <= j <= k ensures MacdLine(xs)[j] == MacdLine(ys)[j] {
      EwmCausal(xs, ys, 2.0 / 13.0, j);
      EwmCausal(xs, ys, 2.0 / 27.0, j);
    }
    EwmCausal(MacdLine(xs), MacdLine(ys), 2.0 / 10.0, k);
  }

  lemma SliceCausal(a: Bars, b: Bars, lo: nat, k: nat)
    requires SameUpTo(a, b, k) && lo <= k
    ensures a.Slice(lo, k + 1) == b.Slice(lo, k + 1)
  {
  }

  // ---------------------------------------------------------------- the mirror of prices

  function NegSeq(xs: seq<real>): seq<real> { seq(|xs|, i requires 0 <= i < |xs| => -xs[i]) }

  /** The same bars with every price negated: the highs become lows. */
  function MirrorBars(b: Bars): Bars { Bars(NegSeq(b.opens), NegSeq(b.lows), NegSeq(b.highs), NegSeq(b.closes)) }

  lemma {:induction false} MinMaxMirror(xs: seq<real>)
    requires xs != []
    ensures MaxOf(NegSeq(xs)) == -MinOf(xs) && MinOf(NegSeq(xs)) == -MaxOf(xs)
  {
    if |xs| > 1 {
      MinMaxMirror(xs[..|xs| - 1]);
      assert NegSeq(xs)[..|xs| - 1] == NegSeq(xs[..|xs| - 1]);
    }
  }

  lemma Price5Odd(x: real)
    ensures Price5(-x) == -Price5(x)
  {
    RoundOdd(x, 100000.0);
  }

  lemma MirrorFvgsAppend(a: seq<Fvg>, b: seq<Fvg>)
    ensures MirrorFvgs(a + b) == MirrorFvgs(a) + MirrorFvgs(b)
  {
  }

  lemma NegAppend(a: seq<real>, b: seq<real>)
    ensures NegSeq(a + b) == NegSeq(a) + NegSeq(b)
  {
  }

  lemma MirrorLength(win: Bars)
    requires win.SameLength()
    ensures MirrorBars(win).SameLength() && |MirrorBars(win).closes| == |win.closes|
  {
  }

  lemma NoGapMirror()
    ensures MirrorFvgs([]) == []
  {
  }

  lemma {:induction false} BullGapsMirror(win: Bars, atr: real, start: nat, i: nat)
    requires win.SameLength() && 2 <= start <= i <= |win.closes|
    ensures BullGaps(MirrorBars(win), atr, start, i) == MirrorFvgs(BearGaps(win, atr, start, i))
  {
    MirrorLength(win);
    hide BullGap, BearGap, MirrorFvgs, MirrorBars;
    if i > start {
      BullGapsMirror(win, atr, start, i - 1);
      OneGapMirror(win, atr, i - 1);
      MirrorFvgsAppend(BearGaps(win, atr, start, i - 1), BearGap(win, atr, i - 1));
    } else {
      NoGapMirror();
    }
  }

  lemma {:induction false} BearGapsMirror(win: Bars, atr: real, start: nat, i: nat)
    requires win.SameLength() && 2 <= start <= i <= |win.closes|
    ensures BearGaps(MirrorBars(win), atr, start, i) == MirrorFvgs(BullGaps(win, atr, start, i))
  {
    MirrorLength(win);
    hide BullGap, BearGap, MirrorFvgs, MirrorBars;
    if i > start {
      BearGapsMirror(win, atr, start, i - 1);
      OneGapMirror(win, atr, i - 1);
      MirrorFvgsAppend(BullGaps(win, atr, start, i - 1), BullGap(win, atr, i - 1));
    } else {
      NoGapMirror();
    }
  }

  lemma OneGapMirror(win: Bars, atr: real, i: nat)
    requires win.SameLength() && 2 <= i < |win.closes|
    ensures BullGap(MirrorBars(win), atr, i) == MirrorFvgs(BearGap(win, atr, i))
    ensures BearGap(MirrorBars(win), atr, i) == MirrorFvgs(BullGap(win, atr, i))
  {
    hide Round;
    Price5Odd(win.lows[i]);
    Price5Odd(win.lows[i - 2]);
    Price5Odd(win.highs[i]);
    Price5Odd(win.highs[i - 2]);
  }

  lemma NegLength(xs: seq<real>)
    ensures |NegSeq(xs)| == |xs| && NegSeq([]) == []
  {
  }

  lemma {:induction false} HighsMirror(xs: seq<real>, i: nat)
    requires i == 0 || i + SWING <= |xs|
    ensures HighsUpTo(NegSeq(xs), i) == NegSeq(LowsUpTo(xs, i))
  {
    NegLength(xs);
    hide Peak, Trough, NegSeq;
    if i > SWING {
      HighsMirror(xs, i - 1);
      OneSwingMirror(xs, i - 1);
      NegAppend(LowsUpTo(xs, i - 1), Trough(xs, i - 1));
    }
  }

  lemma {:induction false} LowsMirror(xs: seq<real>, i: nat)
    requires i == 0 || i + SWING <= |xs|
    ensures LowsUpTo(NegSeq(xs), i) == NegSeq(HighsUpTo(xs, i))
  {
    NegLength(xs);
    hide Peak, Trough, NegSeq;
    if i > SWING {
      LowsMirror(xs, i - 1);
      OneSwingMirror(xs, i - 1);
      NegAppend(HighsUpTo(xs, i - 1), Peak(xs, i - 1));
    }
  }

  lemma OneSwingMirror(xs: seq<real>, i: nat)
    requires SWING <= i && i + SWING < |xs|
    ensures |NegSeq(xs)| == |xs|
    ensures Peak(NegSeq(xs), i) == NegSeq(Trough(xs, i)) && Trough(NegSeq(xs), i) == NegSeq(Peak(xs, i))
  {
    PeakMirror(xs, i);
    hide IsPeak, IsTrough;
  }

  lemma PeakMirror(xs: seq<real>, i: nat)
    requires SWING <= i && i + SWING < |xs|
    ensures IsPeak(NegSeq(xs), i) == IsTrough(xs, i) && IsTrough(NegSeq(xs), i) == IsPeak(xs, i)
  {
    var w := xs[i - SWING..i + SWING + 1];
    MinMaxMirror(w);
    assert NegSeq(xs)[i - SWING..i + SWING + 1] == NegSeq(w);
  }

  /** Structure detection sees the mirrored market as the mirror of what it sees, so that together
      with the mirror law of construction the whole path from bars to trade is symmetric. */
  lemma StructureMirror(win: Bars, atr: real)
    requires win.SameLength()
    ensures StructureOf(MirrorBars(win), atr) == MirrorStructure(StructureOf(win, atr))
  {
    var n := |win.closes|;
    var m := if n < SWING then 0 else n - SWING;
    if n >= 3 {
      BullGapsMirror(win, atr, FirstGapBar(n), n);
      BearGapsMirror(win, atr, FirstGapBar(n), n);
      LastMirror(BullGaps(win, atr, FirstGapBar(n), n), 3);
      LastMirror(BearGaps(win, atr, FirstGapBar(n), n), 3);
    }
    HighsMirror(win.lows, m);
    LowsMirror(win.highs, m);
    LastNeg(HighsUpTo(win.highs, m), 5);
    LastNeg(LowsUpTo(win.lows, m), 5);
    hide BullGaps, BearGaps, HighsUpTo, LowsUpTo, LastOf;
  }

  lemma LastMirror(fs: seq<Fvg>, n: nat)
    ensures LastOf(MirrorFvgs(fs), n) == MirrorFvgs(LastOf(fs, n))
  {
  }

  lemma LastNeg(xs: seq<real>, n: nat)
    ensures Somes(LastOf(NegSeq(xs), n)) == NegAll(Somes(LastOf(xs, n)))
  {
  }

  /** A trade built from a mirrored window is the mirrored trade. */
  lemma TradeMirror(p: Params, dir: Direction, price: real, win: Bars, atr: real)
    requires win.SameLength()
    ensures ConstructionOf(p, MirrorDirection(dir), -price, -price, StructureOf(MirrorBars(win), atr), atr)
            == MirrorResult(ConstructionOf(p, dir, price, price, StructureOf(win, atr), atr))
  {
    StructureMirror(win, atr);
    ConstructionMirror(p, dir, price, price, StructureOf(win, atr), atr);
  }
}
