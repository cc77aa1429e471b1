/** Wilder-smoothed directional movement (`_adx_arrays` in backtester/runner.py).  NaN is `None`. */
module Wilder {
  import opened Rounding
  import opened Wrappers

  datatype Ohlc = Ohlc(highs: seq<real>, lows: seq<real>, closes: seq<real>) {
    predicate SameLength() { |highs| == |lows| == |closes| }

    /** Every close lies between that bar's low and high. */
    predicate WellFormed() {
      SameLength() && forall i :: 0 <= i < |closes| ==> lows[i] <= closes[i] <= highs[i]
    }
  }

  // ---------------------------------------------------------------- specification

  function PlusDm(o: Ohlc, i: nat): real
    requires o.SameLength() && i + 1 < |o.closes|
  {
    var up, down := o.highs[i + 1] - o.highs[i], o.lows[i] - o.lows[i + 1];
    if up > down && up > 0.0 then up else 0.0
  }

  function MinusDm(o: Ohlc, i: nat): real
    requires o.SameLength() && i + 1 < |o.closes|
  {
    var up, down := o.highs[i + 1] - o.highs[i], o.lows[i] - o.lows[i + 1];
    if down > up && down > 0.0 then down else 0.0
  }

  function TrueRange(o: Ohlc, i: nat): real
    requires o.SameLength() && i + 1 < |o.closes|
  {
    Max(o.highs[i + 1] - o.lows[i + 1],
        Max(Abs(o.highs[i + 1] - o.closes[i]), Abs(o.lows[i + 1] - o.closes[i])))
  }

  function Sum(xs: seq<real>): real {
    if xs == [] then 0.0 else Sum(xs[..|xs| - 1]) + xs[|xs| - 1]
  }

  function Decay(v: real, period: nat): real
    requires period >= 1
  {
    v - v / period as real
  }

  /** The smoothed series at index j >= period - 1, seeded with a plain sum. */
  function Smooth(xs: seq<real>, period: nat, j: nat): real
    requires 1 <= period && period - 1 <= j < |xs|
  {
    if j == period - 1 then Sum(xs[..period]) else Decay(Smooth(xs, period, j - 1), period) + xs[j]
  }

  function Share(part: real, whole: real): Option<real> {
    if whole > 0.0 then Some(100.0 * part / whole) else None
  }

  function Dx(plus: Option<real>, minus: Option<real>): Option<real> {
    if plus.None? || minus.None? then None
    else
      var total := plus.value + minus.value;
      Some(if total > 0.0 then 100.0 * Abs(plus.value - minus.value) / total else 0.0)
  }

  function Defined(xs: seq<Option<real>>): seq<real> {
    if xs == [] then []
    else Defined(xs[..|xs| - 1]) + (if xs[|xs| - 1].Some? then [xs[|xs| - 1].value] else [])
  }

  function NanMean(xs: seq<Option<real>>): Option<real> {
    var d := Defined(xs);
    if d == [] then None else Some(Sum(d) / |d| as real)
  }

  function Blend(adx: Option<real>, dx: Option<real>, period: nat): Option<real>
    requires period >= 1
  {
    if adx.Some? && dx.Some?
    then Some((adx.value * (period - 1) as real + dx.value) / period as real)
    else None
  }

  /** ADX at output index k, from the DX series (which starts one bar earlier). */
  function AdxAt(dx: seq<Option<real>>, period: nat, k: nat): Option<real>
    requires period >= 1 && 2 * period <= k <= |dx|
  {
    if k == 2 * period then NanMean(dx[period - 1..2 * period - 1])
    else Blend(AdxAt(dx, period, k - 1), dx[k - 2], period)
  }

  function Pdm(o: Ohlc): seq<real> requires o.SameLength() && |o.closes| >= 1 {
    seq(|o.closes| - 1, i requires 0 <= i < |o.closes| - 1 => PlusDm(o, i))
  }

  function Ndm(o: Ohlc): seq<real> requires o.SameLength() && |o.closes| >= 1 {
    seq(|o.closes| - 1, i requires 0 <= i < |o.closes| - 1 => MinusDm(o, i))
  }

  function Tr(o: Ohlc): seq<real> requires o.SameLength() && |o.closes| >= 1 {
    seq(|o.closes| - 1, i requires 0 <= i < |o.closes| - 1 => TrueRange(o, i))
  }

  function PlusDi(o: Ohlc, period: nat, j: nat): Option<real>
    requires o.SameLength() && 1 <= period && period - 1 <= j < |o.closes| - 1
  {
    Share(Smooth(Pdm(o), period, j), Smooth(Tr(o), period, j))
  }

  function MinusDi(o: Ohlc, period: nat, j: nat): Option<real>
    requires o.SameLength() && 1 <= period && period - 1 <= j < |o.closes| - 1
  {
    Share(Smooth(Ndm(o), period, j), Smooth(Tr(o), period, j))
  }

  function DxSeries(o: Ohlc, period: nat): seq<Option<real>>
    requires o.SameLength() && 1 <= period && |o.closes| >= 1
  {
    seq(|o.closes| - 1, j requires 0 <= j < |o.closes| - 1 =>
      if j < period - 1 then None else Dx(PlusDi(o, period, j), MinusDi(o, period, j)))
  }

  function Adx(o: Ohlc, period: nat, k: nat): Option<real>
    requires o.SameLength() && 1 <= period && 2 * period <= k < |o.closes|
  {
    AdxAt(DxSeries(o, period), period, k)
  }

  // ---------------------------------------------------------------- the program

  method SmoothInto(xs: seq<real>, period: nat, out: array<real>)
    requires 1 <= period <= |xs| == out.Length
    modifies out
    ensures forall j :: period - 1 <= j < |xs| ==> out[j] == Smooth(xs, period, j)
  {
    out[period - 1] := Sum(xs[..period]);
    for j := period to |xs|
      invariant forall k :: period - 1 <= k < j ==> out[k] == Smooth(xs, period, k)
    {
      out[j] := out[j - 1] - out[j - 1] / period as real + xs[j];
    }
  }

  method AdxArrays(o: Ohlc, period: nat)
    returns (adx: array<Option<real>>, plusDi: array<Option<real>>, minusDi: array<Option<real>>)
    requires o.SameLength() && period >= 1
    ensures adx.Length == plusDi.Length == minusDi.Length == |o.closes|
    ensures forall k :: 0 <= k < |o.closes| ==>
      plusDi[k] == if |o.closes| < 2 * period + 2 || k < period then None else PlusDi(o, period, k - 1)
    ensures forall k :: 0 <= k < |o.closes| ==>
      minusDi[k] == if |o.closes| < 2 * period + 2 || k < period then None else MinusDi(o, period, k - 1)
    ensures forall k :: 0 <= k < |o.closes| ==>
      adx[k] == if |o.closes| < 2 * period + 2 || k < 2 * period then None else Adx(o, period, k)
  {
    var n := |o.closes|;
    adx := new Option<real>[n](_ => None);
    plusDi := new Option<real>[n](_ => None);
    minusDi := new Option<real>[n](_ => None);
    if n < period * 2 + 2 {
      return;
    }
    var smTr, smPdm, smNdm := new real[n - 1], new real[n - 1], new real[n - 1];
    SmoothInto(Tr(o), period, smTr);
    SmoothInto(Pdm(o), period, smPdm);
    SmoothInto(Ndm(o), period, smNdm);
    var dx := new Option<real>[n - 1](_ => None);
    DirectionInto(o, period, smTr, smPdm, smNdm, plusDi, minusDi, dx);
    AdxInto(dx, period, adx);
  }

  /** The DI values and DX for every smoothed bar with a positive range. */
  method DirectionInto(o: Ohlc, period: nat, smTr: array<real>, smPdm: array<real>, smNdm: array<real>,
                       plusDi: array<Option<real>>, minusDi: array<Option<real>>, dx: array<Option<real>>)
    requires o.SameLength() && 1 <= period < |o.closes|
    requires smTr.Length == smPdm.Length == smNdm.Length == dx.Length == |o.closes| - 1
    requires plusDi.Length == minusDi.Length == |o.closes|
    requires plusDi != minusDi && plusDi != dx && minusDi != dx
    requires forall j :: period - 1 <= j < |o.closes| - 1 ==> smTr[j] == Smooth(Tr(o), period, j)
    requires forall j :: period - 1 <= j < |o.closes| - 1 ==> smPdm[j] == Smooth(Pdm(o), period, j)
    requires forall j :: period - 1 <= j < |o.closes| - 1 ==> smNdm[j] == Smooth(Ndm(o), period, j)
    requires forall k :: 0 <= k < |o.closes| ==> plusDi[k] == minusDi[k] == None
    requires forall k :: 0 <= k < dx.Length ==> dx[k] == None
    modifies plusDi, minusDi, dx
    ensures forall k :: 0 <= k < |o.closes| ==> plusDi[k] == if k < period then None else PlusDi(o, period, k - 1)
    ensures forall k :: 0 <= k < |o.closes| ==> minusDi[k] == if k < period then None else MinusDi(o, period, k - 1)
    ensures dx[..] == DxSeries(o, period)
  {
    hide Smooth, Tr, Pdm, Ndm;
    var n := |o.closes|;
    for j := period - 1 to n - 1
      invariant forall k :: 0 <= k < n ==>
        plusDi[k] == if k < period || k > j then None else PlusDi(o, period, k - 1)
      invariant forall k :: 0 <= k < n ==>
        minusDi[k] == if k < period || k > j then None else MinusDi(o, period, k - 1)
      invariant forall k :: 0 <= k < n - 1 ==> dx[k] == if k < j then DxSeries(o, period)[k] else None
    {
      var pd, nd := Share(smPdm[j], smTr[j]), Share(smNdm[j], smTr[j]);
      if smTr[j] > 0.0 {
        plusDi[j + 1] := pd;
        minusDi[j + 1] := nd;
        dx[j] := Dx(pd, nd);
      }
    }
  }

  method AdxInto(dx: array<Option<real>>, period: nat, adx: array<Option<real>>)
    requires period >= 1 && dx.Length + 1 == adx.Length >= 2 * period + 2
    requires adx != dx
    requires forall k :: 0 <= k < adx.Length ==> adx[k] == None
    modifies adx
    ensures forall k :: 0 <= k < adx.Length ==>
      adx[k] == if k < 2 * period then None else AdxAt(dx[..], period, k)
  {
    var n := adx.Length;
    ghost var series := dx[..];
    var start := period * 2 - 1;
    adx[start + 1] := NanMean(dx[period - 1..start]);
    assert dx[period - 1..start] == series[period - 1..start];
    for j := start to n - 2
      invariant dx[..] == series
      invariant forall k :: 0 <= k < n ==>
        adx[k] == if k < 2 * period || k > j + 1 then None else AdxAt(series, period, k)
    {
      if adx[j + 1].Some? && dx[j].Some? {
        adx[j + 2] := Blend(adx[j + 1], dx[j], period);
      }
    }
  }

  // ---------------------------------------------------------------- what the values are

  /** The movements of one bar: only the larger of the rise of the high and the fall of the low
      counts, and only if it is positive; the range spans the bar and the close before it. */
  lemma MovementMeaning(o: Ohlc, i: nat)
    requires o.WellFormed() && i + 1 < |o.closes|
    ensures var rise, fall := o.highs[i + 1] - o.highs[i], o.lows[i] - o.lows[i + 1];
            && (PlusDm(o, i) > 0.0 <==> rise > 0.0 && rise > fall) && (PlusDm(o, i) > 0.0 ==> PlusDm(o, i) == rise)
            && (MinusDm(o, i) > 0.0 <==> fall > 0.0 && fall > rise) && (MinusDm(o, i) > 0.0 ==> MinusDm(o, i) == fall)
            && PlusDm(o, i) >= 0.0 && MinusDm(o, i) >= 0.0
    ensures TrueRange(o, i) == Max(o.highs[i + 1], o.closes[i]) - Min(o.lows[i + 1], o.closes[i])
  {
    assert o.lows[i + 1] <= o.closes[i + 1] <= o.highs[i + 1];
  }

  /** Wilder's recurrence: `period` times a smoothed value is `period - 1` times the one before plus
      `period` times the new bar; the first is the plain sum of the first `period` bars. */
  lemma SmoothRecurrence(xs: seq<real>, period: nat, j: nat)
    requires 1 <= period && period - 1 <= j < |xs|
    ensures j == period - 1 ==> Smooth(xs, period, j) == Sum(xs[..period])
    ensures j >= period ==> Times(period as real, Smooth(xs, period, j))
                            == Times(period as real - 1.0, Smooth(xs, period, j - 1)) + Times(period as real, xs[j])
  {
    if j >= period {
      DecayMeaning(Smooth(xs, period, j - 1), xs[j], period);
    }
  }

  lemma DecayMeaning(v: real, x: real, period: nat)
    requires period >= 1
    ensures Times(period as real, Decay(v, period) + x) == Times(period as real - 1.0, v) + Times(period as real, x)
  {
    var p := period as real;
    var q := v / p;
    assert q * p == v;
    assert p * (v - q + x) == p * v - p * q + p * x;
  }

  /** The directional values are the smoothed movements in percent of the smoothed range, DX the gap
      between the two in percent of their sum, undefined with them and zero where that sum is. */
  lemma DirectionMeaning(o: Ohlc, period: nat, j: nat)
    requires o.SameLength() && 1 <= period && period - 1 <= j < |o.closes| - 1
    ensures var range, plus, minus := Smooth(Tr(o), period, j), PlusDi(o, period, j), MinusDi(o, period, j);
            var dx := DxSeries(o, period)[j];
            && (plus.Some? <==> range > 0.0) && (minus.Some? <==> range > 0.0) && (dx.Some? <==> range > 0.0)
            && (range > 0.0 ==>
                  && Times(plus.value, range) == 100.0 * Smooth(Pdm(o), period, j)
                  && Times(minus.value, range) == 100.0 * Smooth(Ndm(o), period, j)
                  && (if plus.value + minus.value > 0.0
                      then Times(dx.value, plus.value + minus.value) == 100.0 * Abs(plus.value - minus.value)
                      else dx.value == 0.0))
  {
    hide Smooth;
  }

  /** The number of defined values, and their sum. */
  function Known(xs: seq<Option<real>>): nat { if xs == [] then 0 else Known(xs[..|xs| - 1]) + if xs[|xs| - 1].Some? then 1 else 0 }

  function Total(xs: seq<Option<real>>): real {
    if xs == [] then 0.0 else Total(xs[..|xs| - 1]) + if xs[|xs| - 1].Some? then xs[|xs| - 1].value else 0.0
  }

  lemma {:induction false} DefinedMeaning(xs: seq<Option<real>>)
    ensures |Defined(xs)| == Known(xs) && Sum(Defined(xs)) == Total(xs)
  {
    if xs != [] {
      var front, last := xs[..|xs| - 1], xs[|xs| - 1];
      DefinedMeaning(front);
      if last.Some? {
        assert Defined(xs) == Defined(front) + [last.value];
        assert Defined(xs)[..|Defined(front)|] == Defined(front);
      } else {
        assert Defined(xs) == Defined(front);
      }
    }
  }

  /** ADX starts as the mean of the defined DX among the first `period`, and then moves by one
      `period`-th towards each DX; once undefined it stays so. */
  lemma AdxRecurrence(o: Ohlc, period: nat, k: nat)
    requires o.SameLength() && 1 <= period && 2 * period <= k < |o.closes|
    ensures k == 2 * period ==>
      var first := DxSeries(o, period)[period - 1..2 * period - 1];
      && (Adx(o, period, k).Some? <==> Known(first) > 0)
      && (Adx(o, period, k).Some? ==> Times(Adx(o, period, k).value, Known(first) as real) == Total(first))
    ensures k > 2 * period ==>
      var was, dx, now := Adx(o, period, k - 1), DxSeries(o, period)[k - 2], Adx(o, period, k);
      && (now.Some? <==> was.Some? && dx.Some?)
      && (now.Some? ==> Times(period as real, now.value - was.value) == dx.value - was.value)
  {
    hide PlusDi, MinusDi, Dx;
    var series := DxSeries(o, period);
    if k == 2 * period {
      DefinedMeaning(series[period - 1..2 * period - 1]);
    } else if Adx(o, period, k).Some? {
      BlendMeaning(Adx(o, period, k - 1).value, series[k - 2].value, period);
    }
  }

  lemma BlendMeaning(was: real, dx: real, period: nat)
    requires period >= 1
    ensures Times(period as real, Blend(Some(was), Some(dx), period).value - was) == dx - was
  {
    var p, sum := period as real, was * (period - 1) as real + dx;
    assert sum / p * p == sum;
    assert p * (sum / p - was) == sum - p * was;
  }

  // ---------------------------------------------------------------- bounds

  /** Per bar, the two directional movements are non-negative and together no more than the range:
      at most one of them is non-zero, and it is measured from inside the previous bar. */
  lemma MovementWithinRange(o: Ohlc, i: nat)
    requires o.WellFormed() && i + 1 < |o.closes|
    ensures PlusDm(o, i) >= 0.0 && MinusDm(o, i) >= 0.0
    ensures PlusDm(o, i) + MinusDm(o, i) <= TrueRange(o, i)
  {
    assert o.lows[i] <= o.closes[i] <= o.highs[i];
    assert o.lows[i + 1] <= o.closes[i + 1] <= o.highs[i + 1];
  }

  /** `a` and `b` are non-negative and their sum never exceeds `t`, position by position. */
  ghost predicate Dominated(a: seq<real>, b: seq<real>, t: seq<real>) {
    |a| == |b| == |t|
    && forall i :: 0 <= i < |a| ==> a[i] >= 0.0 && b[i] >= 0.0 && a[i] + b[i] <= t[i]
  }

  lemma {:induction false} SumDominated(a: seq<real>, b: seq<real>, t: seq<real>)
    requires Dominated(a, b, t)
    ensures Sum(a) >= 0.0 && Sum(b) >= 0.0 && Sum(a) + Sum(b) <= Sum(t)
  {
    if a != [] {
      SumDominated(a[..|a| - 1], b[..|b| - 1], t[..|t| - 1]);
    }
  }

  lemma DecayNonNegative(v: real, period: nat)
    requires period >= 1 && v >= 0.0
    ensures Decay(v, period) >= 0.0
  {
    var p := period as real;
    assert (v / p) * p == v;
    if v / p > v {
      assert (v / p) * p > v * p;
      assert v * p >= v;
    }
  }

  lemma DivMinus(x: real, y: real, p: real)
    requires p > 0.0
    ensures (x - y) / p == x / p - y / p
  {
    var a, b := x / p, y / p;
    assert a * p == x && b * p == y;
    assert (a - b) * p == x - y;
  }

  lemma DecayAdds(a: real, b: real, t: real, period: nat)
    requires period >= 1 && a + b <= t
    ensures Decay(a, period) + Decay(b, period) <= Decay(t, period)
  {
    var p := period as real;
    DivMinus(a + b, b, p);
    assert a + b - b == a;
    DecayNonNegative(t - (a + b), period);
    DivMinus(t, a + b, p);
  }

  /** The domination survives the three coupled smoothing loops. */
  lemma {:induction false} SmoothDominated(a: seq<real>, b: seq<real>, t: seq<real>, period: nat, j: nat)
    requires Dominated(a, b, t) && 1 <= period && period - 1 <= j < |a|
    ensures Smooth(a, period, j) >= 0.0 && Smooth(b, period, j) >= 0.0
    ensures Smooth(a, period, j) + Smooth(b, period, j) <= Smooth(t, period, j)
    decreases j
  {
    if j == period - 1 {
      SumDominated(a[..period], b[..period], t[..period]);
    } else {
      SmoothDominated(a, b, t, period, j - 1);
      DecayNonNegative(Smooth(a, period, j - 1), period);
      DecayNonNegative(Smooth(b, period, j - 1), period);
      DecayAdds(Smooth(a, period, j - 1), Smooth(b, period, j - 1), Smooth(t, period, j - 1), period);
    }
  }

  lemma SharesWithinWhole(a: real, b: real, t: real)
    requires a >= 0.0 && b >= 0.0 && a + b <= t && t > 0.0
    ensures Share(a, t).value >= 0.0 && Share(b, t).value >= 0.0
    ensures Share(a, t).value + Share(b, t).value <= 100.0
  {
    var x, y := 100.0 * a / t, 100.0 * b / t;
    assert x * t == 100.0 * a && y * t == 100.0 * b;
    if x + y > 100.0 {
      assert (x + y) * t > 100.0 * t;
    }
  }

  /** +DI and -DI are non-negative percentages of one whole. */
  lemma DirectionalBounds(o: Ohlc, period: nat, j: nat)
    requires o.WellFormed() && 1 <= period && period - 1 <= j < |o.closes| - 1
    ensures PlusDi(o, period, j).Some? <==> MinusDi(o, period, j).Some?
    ensures PlusDi(o, period, j).Some? ==>
      && PlusDi(o, period, j).value >= 0.0 && MinusDi(o, period, j).value >= 0.0
      && PlusDi(o, period, j).value + MinusDi(o, period, j).value <= 100.0
  {
    assert Dominated(Pdm(o), Ndm(o), Tr(o)) by {
      forall i | 0 <= i < |Tr(o)|
        ensures Pdm(o)[i] >= 0.0 && Ndm(o)[i] >= 0.0 && Pdm(o)[i] + Ndm(o)[i] <= Tr(o)[i]
      {
        MovementWithinRange(o, i);
      }
    }
    SmoothDominated(Pdm(o), Ndm(o), Tr(o), period, j);
    var t := Smooth(Tr(o), period, j);
    if t > 0.0 {
      SharesWithinWhole(Smooth(Pdm(o), period, j), Smooth(Ndm(o), period, j), t);
    }
  }

  lemma DxBounds(plus: real, minus: real)
    requires plus >= 0.0 && minus >= 0.0
    ensures 0.0 <= Dx(Some(plus), Some(minus)).value <= 100.0
  {
    var total := plus + minus;
    if total > 0.0 {
      MeanPercent(100.0 * Abs(plus - minus), total);
    }
  }

  predicate Percent(x: Option<real>) { x.Some? ==> 0.0 <= x.value <= 100.0 }

  lemma {:induction false} DefinedPercent(xs: seq<Option<real>>)
    requires forall i :: 0 <= i < |xs| ==> Percent(xs[i])
    ensures forall i :: 0 <= i < |Defined(xs)| ==> 0.0 <= Defined(xs)[i] <= 100.0
  {
    if xs != [] {
      DefinedPercent(xs[..|xs| - 1]);
    }
  }

  lemma {:induction false} SumPercent(xs: seq<real>)
    requires forall i :: 0 <= i < |xs| ==> 0.0 <= xs[i] <= 100.0
    ensures 0.0 <= Sum(xs) <= 100.0 * |xs| as real
  {
    if xs != [] {
      SumPercent(xs[..|xs| - 1]);
    }
  }

  lemma NanMeanPercent(xs: seq<Option<real>>)
    requires forall i :: 0 <= i < |xs| ==> Percent(xs[i])
    ensures Percent(NanMean(xs))
  {
    DefinedPercent(xs);
    var d := Defined(xs);
    SumPercent(d);
    if d != [] {
      MeanPercent(Sum(d), |d| as real);
    }
  }

  lemma MeanPercent(total: real, n: real)
    requires n > 0.0 && 0.0 <= total <= 100.0 * n
    ensures 0.0 <= total / n <= 100.0
  {
    DivMonotone(total, 100.0 * n, n);
    DivMonotone(0.0, total, n);
  }

  lemma {:induction false} AdxPercent(dx: seq<Option<real>>, period: nat, k: nat)
    requires period >= 1 && 2 * period <= k <= |dx|
    requires forall i :: 0 <= i < |dx| ==> Percent(dx[i])
    ensures Percent(AdxAt(dx, period, k))
    decreases k
  {
    if k == 2 * period {
      NanMeanPercent(dx[period - 1..2 * period - 1]);
    } else {
      AdxPercent(dx, period, k - 1);
      var prev := AdxAt(dx, period, k - 1);
      if prev.Some? && dx[k - 2].Some? {
        BlendPercent(prev.value, dx[k - 2].value, period);
      }
    }
  }

  lemma BlendPercent(a: real, d: real, period: nat)
    requires period >= 1 && 0.0 <= a <= 100.0 && 0.0 <= d <= 100.0
    ensures Percent(Blend(Some(a), Some(d), period))
  {
    var w := (period - 1) as real;
    assert 0.0 <= a * w <= 100.0 * w;
    MeanPercent(a * w + d, period as real);
  }

  /** Every ADX value that is defined is a percentage. */
  lemma AdxBounds(o: Ohlc, period: nat, k: nat)
    requires o.WellFormed() && 1 <= period && 2 * period <= k < |o.closes|
    ensures Percent(Adx(o, period, k))
  {
    var dx := DxSeries(o, period);
    forall j | 0 <= j < |dx| ensures Percent(dx[j]) {
      if j >= period - 1 {
        DirectionalBounds(o, period, j);
        if PlusDi(o, period, j).Some? {
          DxBounds(PlusDi(o, period, j).value, MinusDi(o, period, j).value);
        }
      }
    }
    AdxPercent(dx, period, k);
  }

  /** The bounds, at every index of the returned arrays. */
  ghost predicate BoundedAt(o: Ohlc, period: nat, k: nat)
    requires o.SameLength() && 1 <= period <= k < |o.closes|
  {
    && (k >= 2 * period ==> Percent(Adx(o, period, k)))
    && (var p, m := PlusDi(o, period, k - 1), MinusDi(o, period, k - 1);
        && (p.Some? <==> m.Some?)
        && (p.Some? ==> p.value >= 0.0 && m.value >= 0.0 && p.value + m.value <= 100.0))
  }

  lemma AllBounds(o: Ohlc, period: nat)
    requires o.WellFormed() && period >= 1
    ensures forall k :: period <= k < |o.closes| ==> BoundedAt(o, period, k)
  {
    forall k | period <= k < |o.closes| ensures BoundedAt(o, period, k) {
      DirectionalBounds(o, period, k - 1);
      if k >= 2 * period {
        AdxBounds(o, period, k);
      }
    }
  }
}
