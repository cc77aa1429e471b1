/** Price distances in points and the stop-distance bounds (core/normalization.py). */
module Normalization {
  import opened Rounding
  import opened Wrappers

  datatype DistanceInfo = DistanceInfo(priceDelta: real, points: real, pips: real, atrMultiple: real)

  datatype Error = PipSizeNotPositive

  datatype Verdict = InBounds | BelowMinimum | AboveMaximum

  function NormalizeDistance(entry: real, level: real, pipSize: real, atr: Option<real>)
    : (r: Result<DistanceInfo, Error>)
  {
    if pipSize <= 0.0 then Err(PipSizeNotPositive)
    else
      var delta := Abs(entry - level);
      var pts := Round(delta / pipSize, 100.0);
      var mult := if atr.Some? && atr.value > 0.0 then Round(delta / atr.value, 10000.0) else 0.0;
      Ok(DistanceInfo(Round(delta, 100000000.0), pts, pts, mult))
  }

  function CheckBounds(d: DistanceInfo, minPoints: real, maxPoints: real): Verdict {
    if d.points < minPoints then BelowMinimum
    else if d.points > maxPoints then AboveMaximum
    else InBounds
  }

  /** A distance only depends on the gap, so mirroring both levels leaves it alone. */
  lemma DistanceMirror(entry: real, level: real, pipSize: real, atr: Option<real>)
    ensures NormalizeDistance(-entry, -level, pipSize, atr) == NormalizeDistance(entry, level, pipSize, atr)
  {
    assert Abs(-entry - -level) == Abs(entry - level);
  }

  /** The recorded delta is within half of 1e-8 of the true gap, and a stop that clears the
      minimum really is at least `minPoints` (less half a hundredth of a point) away. */
  lemma BoundsAreRealDistances(entry: real, level: real, pipSize: real, atr: Option<real>,
                               minPoints: real, maxPoints: real)
    requires pipSize > 0.0
    requires CheckBounds(NormalizeDistance(entry, level, pipSize, atr).value, minPoints, maxPoints) == InBounds
    ensures (minPoints - 0.005) * pipSize <= Abs(entry - level) <= (maxPoints + 0.005) * pipSize
    ensures Abs(NormalizeDistance(entry, level, pipSize, atr).value.priceDelta - Abs(entry - level)) <= 0.000000005
  {
    var delta := Abs(entry - level);
    RoundNear(delta, 100000000.0);
    PointsBound(delta, pipSize, minPoints, maxPoints);
  }

  /** A measured distance: the gap to eight decimals, the same in points and pips to two, and as a
      multiple of the ATR to four, or zero without one; only a pip size that is not positive raises. */
  lemma DistanceMeaning(entry: real, level: real, pipSize: real, atr: Option<real>)
    ensures NormalizeDistance(entry, level, pipSize, atr).Err? <==> pipSize <= 0.0
    ensures pipSize > 0.0 ==>
      var d, gap := NormalizeDistance(entry, level, pipSize, atr).value, Abs(entry - level);
      && Abs(d.priceDelta - gap) <= 0.000000005 && OnGrid(d.priceDelta, 100000000.0)
      && Abs(d.points - gap / pipSize) <= 0.005 && OnGrid(d.points, 100.0) && d.pips == d.points
      && (if atr.Some? && atr.value > 0.0
          then Abs(d.atrMultiple - gap / atr.value) <= 0.00005 && OnGrid(d.atrMultiple, 10000.0)
          else d.atrMultiple == 0.0)
  {
    var gap := Abs(entry - level);
    if pipSize > 0.0 {
      RoundNear(gap, 100000000.0);
      RoundOnGrid(gap, 100000000.0);
      RoundNear(gap / pipSize, 100.0);
      RoundOnGrid(gap / pipSize, 100.0);
      if atr.Some? && atr.value > 0.0 {
        RoundNear(gap / atr.value, 10000.0);
        RoundOnGrid(gap / atr.value, 10000.0);
      }
    }
    hide Round, OnGrid;
  }

  lemma PointsBound(delta: real, pipSize: real, lo: real, hi: real)
    requires pipSize > 0.0 && lo <= Round(delta / pipSize, 100.0) <= hi
    ensures (lo - 0.005) * pipSize <= delta <= (hi + 0.005) * pipSize
  {
    var ratio := delta / pipSize;
    RoundNear(ratio, 100.0);
    assert ratio * pipSize == delta;
    MulMonotone(lo - 0.005, ratio, pipSize);
    MulMonotone(ratio, hi + 0.005, pipSize);
  }

  lemma MulMonotone(x: real, y: real, s: real)
    requires x <= y && s >= 0.0
    ensures x * s <= y * s
  {
  }
}
