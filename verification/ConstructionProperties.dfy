/** What trade construction promises: the priority rule, the buy/sell mirror symmetry and the
    geometry of the finished trade. */
module ConstructionProperties {
  import opened Construction
  import opened Normalization
  import opened Rounding
  import opened Wrappers

  // ---------------------------------------------------------------- the priority rule

  /** The stop is the first candidate within bounds, and there is none exactly when every
      candidate is out of bounds. */
  lemma {:induction false} FirstInBoundsMeaning(p: Params, entry: real, cs: seq<Candidate>, atr: real)
    requires p.pipSize > 0.0
    ensures var r := FirstInBounds(p, entry, cs, atr);
            && (r.None? <==> forall k :: 0 <= k < |cs| ==> VerdictOf(p, entry, cs[k], atr) != InBounds)
            && (r.Some? ==> exists k :: IsFirstInBounds(p, entry, cs, atr, k) && r.value == StopAt(p, entry, cs[k], atr))
  {
    if cs != [] {
      if VerdictOf(p, entry, cs[0], atr) == InBounds {
        assert IsFirstInBounds(p, entry, cs, atr, 0);
      } else {
        FirstInBoundsMeaning(p, entry, cs[1..], atr);
        var r := FirstInBounds(p, entry, cs[1..], atr);
        if r.Some? {
          var k :| IsFirstInBounds(p, entry, cs[1..], atr, k) && r.value == StopAt(p, entry, cs[1..][k], atr);
          FirstShift(p, entry, cs, atr, k);
        } else {
          forall k | 0 <= k < |cs| ensures VerdictOf(p, entry, cs[k], atr) != InBounds {
            if k > 0 { assert cs[k] == cs[1..][k - 1]; }
          }
        }
      }
    }
  }

  ghost predicate IsFirstInBounds(p: Params, entry: real, cs: seq<Candidate>, atr: real, k: int)
    requires p.pipSize > 0.0
  {
    && 0 <= k < |cs|
    && VerdictOf(p, entry, cs[k], atr) == InBounds
    && forall j :: 0 <= j < k ==> VerdictOf(p, entry, cs[j], atr) != InBounds
  }

  lemma FirstShift(p: Params, entry: real, cs: seq<Candidate>, atr: real, k: int)
    requires p.pipSize > 0.0 && cs != [] && VerdictOf(p, entry, cs[0], atr) != InBounds
    requires IsFirstInBounds(p, entry, cs[1..], atr, k)
    ensures IsFirstInBounds(p, entry, cs, atr, k + 1) && cs[k + 1] == cs[1..][k]
  {
    forall j | 0 <= j < k + 1 ensures VerdictOf(p, entry, cs[j], atr) != InBounds {
      if j > 0 { assert cs[j] == cs[1..][j - 1]; }
    }
  }

  /** A construction is refused exactly when no candidate is within bounds (an empty list
      included), and raises exactly when there is something to measure with a bad pip size. */
  lemma AcceptedIffSomeCandidateFits(p: Params, dir: Direction, bid: real, ask: real, st: Structure, atr: real)
    ensures var cs := Candidates(p, dir, Entry(dir, bid, ask), st, atr);
            var r := ConstructionOf(p, dir, bid, ask, st, atr);
            && (r.Err? <==> cs != [] && p.pipSize <= 0.0)
            && (r.Ok? && cs != [] ==>
                  (r.value.Built? <==>
                     exists k :: 0 <= k < |cs| && VerdictOf(p, Entry(dir, bid, ask), cs[k], atr) == InBounds))
            && (r.Ok? ==> r.value.candidates == |cs|)
            && (cs == [] ==> r == Ok(Rejected(0)))
  {
    var entry := Entry(dir, bid, ask);
    var cs := Candidates(p, dir, entry, st, atr);
    if p.pipSize > 0.0 {
      FirstInBoundsMeaning(p, entry, cs, atr);
    }
  }

  /** The swing level used for a BUY stop is the highest one strictly below the entry. */
  lemma {:induction false} NearestBelowIsHighest(levels: seq<Option<real>>, entry: real)
    ensures var r := NearestBelow(levels, entry);
            && (r.Some? ==> r in levels && r.value < entry)
            && (forall l :: l in levels && l.Some? && l.value < entry ==> r.Some? && l.value <= r.value)
  {
    if levels != [] {
      NearestBelowIsHighest(levels[..|levels| - 1], entry);
      assert levels == levels[..|levels| - 1] + [levels[|levels| - 1]];
    }
  }

  /** The audit left behind: one entry for each candidate before the first within bounds, in order,
      with its source, its price, its reason and, rounded to a tenth, its distance in points. */
  lemma {:induction false} RejectionsMeaning(p: Params, entry: real, cs: seq<Candidate>, atr: real)
    requires p.pipSize > 0.0
    ensures var rs := Rejections(p, entry, cs, atr);
            && |rs| <= |cs| && (|rs| < |cs| ==> VerdictOf(p, entry, cs[|rs|], atr) == InBounds)
            && forall k :: 0 <= k < |rs| ==> Records(rs[k], p, entry, cs[k], atr)
  {
    hide VerdictOf, StopAt, RejectionOf, Records;
    if cs != [] && VerdictOf(p, entry, cs[0], atr) != InBounds {
      RejectionsMeaning(p, entry, cs[1..], atr);
      RecordsOne(p, entry, cs[0], atr);
    }
  }

  predicate Records(r: Rejection, p: Params, entry: real, c: Candidate, atr: real)
    requires p.pipSize > 0.0
  {
    && r.source == c.source && Abs(r.price - c.price) <= 0.000005
    && r.reason == VerdictOf(p, entry, c, atr) && r.reason != InBounds
    && Abs(r.points - StopAt(p, entry, c, atr).distance.points) <= 0.05 && OnGrid(r.points, 10.0)
  }

  lemma RecordsOne(p: Params, entry: real, c: Candidate, atr: real)
    requires p.pipSize > 0.0 && VerdictOf(p, entry, c, atr) != InBounds
    ensures Records(RejectionOf(StopAt(p, entry, c, atr), VerdictOf(p, entry, c, atr)), p, entry, c, atr)
  {
    hide VerdictOf;
    var points := StopAt(p, entry, c, atr).distance.points;
    Price5Near(c.price);
    RoundNear(points, 10.0);
    RoundOnGrid(points, 10.0);
    hide Round, OnGrid, NormalizeDistance;
  }

  /** `x` is the highest of the levels strictly below `entry`. */
  ghost predicate HighestBelow(levels: seq<Option<real>>, entry: real, x: real) {
    Some(x) in levels && x < entry && forall y :: Some(y) in levels && y < entry ==> y <= x
  }

  /** `x` is the bottom of the last gap that has one below `entry`. */
  ghost predicate LatestBelow(gaps: seq<Fvg>, entry: real, x: real) {
    exists k :: 0 <= k < |gaps| && gaps[k].bottom == Some(x) && x < entry
      && forall j :: k < j < |gaps| && gaps[j].bottom.Some? ==> gaps[j].bottom.value >= entry
  }

  lemma {:induction false} LatestBottomMeaning(gaps: seq<Fvg>, entry: real)
    ensures var r := LatestBottom(gaps, entry);
            if r.Some? then LatestBelow(gaps, entry, r.value)
            else forall k :: 0 <= k < |gaps| && gaps[k].bottom.Some? ==> gaps[k].bottom.value >= entry
  {
    if gaps != [] {
      var n := |gaps| - 1;
      LatestBottomMeaning(gaps[..n], entry);
      var r := LatestBottom(gaps[..n], entry);
      assert LatestBottom(gaps, entry) == if gaps[n].bottom.Some? && gaps[n].bottom.value < entry then gaps[n].bottom else r;
      hide LatestBottom;
      if r.Some? && (gaps[n].bottom.None? || gaps[n].bottom.value >= entry) {
        var k :| 0 <= k < n && gaps[..n][k].bottom == r && forall j :: k < j < n && gaps[j].bottom.Some? ==> gaps[j].bottom.value >= entry;
        assert gaps[k].bottom == r;
      }
    }
  }

  /** Where the unrounded stop `raw` of a BUY lies: a buffer of `slBufferAtr` ATRs beyond the
      structure level or the fallback distance it comes from. */
  ghost predicate StopFrom(p: Params, entry: real, st: Structure, atr: real, source: Source, raw: real) {
    var buffer := if atr > 0.0 then p.slBufferAtr * atr else 0.0;
    match source
    case SwingLow => HighestBelow(st.swingLows, entry, raw + buffer)
    case FvgBottom => LatestBelow(st.bullish, entry, raw + buffer)
    case AtrFallback => atr > 0.0 && p.slAtrMult > 0.0 && raw == entry - atr * p.slAtrMult - buffer
    case SwingHigh => false
    case FvgTop => false
  }

  lemma FromLevel(p: Params, entry: real, st: Structure, atr: real, x: real)
    ensures HighestBelow(st.swingLows, entry, x) ==> StopFrom(p, entry, st, atr, SwingLow, x - Buffer(p, atr))
    ensures LatestBelow(st.bullish, entry, x) ==> StopFrom(p, entry, st, atr, FvgBottom, x - Buffer(p, atr))
  {
    assert x - Buffer(p, atr) + Buffer(p, atr) == x;
    hide HighestBelow, LatestBelow;
  }

  /** Every candidate of a BUY lies where `StopFrom` says. */
  lemma BuyCandidatesFrom(p: Params, entry: real, st: Structure, atr: real)
    ensures forall c :: c in Candidates(p, BUY, entry, st, atr) ==> StopFrom(p, entry, st, atr, c.source, c.price)
  {
    var swing, gap, reach := NearestBelow(st.swingLows, entry), LatestBottom(st.bullish, entry), FallbackReach(p, atr);
    NearestBelowIsHighest(st.swingLows, entry);
    LatestBottomMeaning(st.bullish, entry);
    assert swing.Some? ==> HighestBelow(st.swingLows, entry, swing.value);
    hide NearestBelow, LatestBottom, LatestBelow, HighestBelow;
    if swing.Some? { FromLevel(p, entry, st, atr, swing.value); }
    if gap.Some? { FromLevel(p, entry, st, atr, gap.value); }
    assert reach.Some? ==> StopFrom(p, entry, st, atr, AtrFallback, entry - reach.value - Buffer(p, atr));
    hide StopFrom;
    forall c | c in Candidates(p, BUY, entry, st, atr) ensures StopFrom(p, entry, st, atr, c.source, c.price) {
      assert c.source == SwingLow || c.source == FvgBottom || c.source == AtrFallback;
    }
  }

  /** The candidates of a BUY in order: the swing low before the gap before the fallback, each
      once and present exactly when there is such a level. */
  lemma BuyCandidatesOrder(p: Params, entry: real, st: Structure, atr: real)
    ensures var cs := Candidates(p, BUY, entry, st, atr);
            && (forall i, j :: 0 <= i < j < |cs| ==>
                  cs[i].source != cs[j].source && cs[i].source != AtrFallback && cs[j].source != SwingLow)
            && ((exists c :: c in cs && c.source == SwingLow) <==> exists y :: Some(y) in st.swingLows && y < entry)
            && ((exists c :: c in cs && c.source == FvgBottom) <==>
                  exists k :: 0 <= k < |st.bullish| && st.bullish[k].bottom.Some? && st.bullish[k].bottom.value < entry)
            && ((exists c :: c in cs && c.source == AtrFallback) <==> atr > 0.0 && p.slAtrMult > 0.0)
  {
    var swing, gap, reach := NearestBelow(st.swingLows, entry), LatestBottom(st.bullish, entry), FallbackReach(p, atr);
    NearestBelowIsHighest(st.swingLows, entry);
    LatestBottomMeaning(st.bullish, entry);
    hide NearestBelow, LatestBottom;
    var cs, buffer := Candidates(p, BUY, entry, st, atr), Buffer(p, atr);
    hide Buffer, Times;
    var a, b := Level(swing, -buffer, SwingLow), Level(gap, -buffer, FvgBottom);
    var c := if reach.Some? then [Candidate(entry - reach.value - buffer, AtrFallback)] else [];
    assert cs == a + b + c;
    assert swing.Some? ==> a[0] in cs && a[0].source == SwingLow;
    assert gap.Some? ==> b[0] in cs && b[0].source == FvgBottom;
    assert reach.Some? ==> c[0] in cs && c[0].source == AtrFallback;
    assert forall x :: x in cs ==> x in a || x in b || x in c;
  }

  // ---------------------------------------------------------------- mirror symmetry

  function Neg(x: Option<real>): Option<real> { if x.Some? then Some(-x.value) else None }

  function NegAll(xs: seq<Option<real>>): seq<Option<real>> { seq(|xs|, i requires 0 <= i < |xs| => Neg(xs[i])) }

  function MirrorFvg(f: Fvg): Fvg { Fvg(Neg(f.bottom), Neg(f.top)) }

  function MirrorFvgs(fs: seq<Fvg>): seq<Fvg> { seq(|fs|, i requires 0 <= i < |fs| => MirrorFvg(fs[i])) }

  /** The market seen upside down. */
  function MirrorStructure(st: Structure): Structure {
    Structure(NegAll(st.swingHighs), NegAll(st.swingLows), MirrorFvgs(st.bearish), MirrorFvgs(st.bullish))
  }

  function MirrorDirection(d: Direction): Direction { if d == BUY then SELL else BUY }

  function MirrorSource(s: Source): Source {
    match s
    case SwingLow => SwingHigh
    case SwingHigh => SwingLow
    case FvgBottom => FvgTop
    case FvgTop => FvgBottom
    case AtrFallback => AtrFallback
  }

  function MirrorCandidate(c: Candidate): Candidate { Candidate(-c.price, MirrorSource(c.source)) }

  function MirrorCandidates(cs: seq<Candidate>): seq<Candidate> {
    seq(|cs|, i requires 0 <= i < |cs| => MirrorCandidate(cs[i]))
  }

  function MirrorSignal(s: Signal): Signal {
    Signal(MirrorDirection(s.direction), -s.zoneHigh, -s.zoneLow, -s.stopLoss, -s.tp1, -s.tp2,
           s.rrRatio, MirrorSource(s.slSource))
  }

  function MirrorResult(r: Result<ConstructionResult, Error>): Result<ConstructionResult, Error> {
    match r
    case Err(e) => Err(e)
    case Ok(Rejected(n)) => Ok(Rejected(n))
    case Ok(Built(s, n)) => Ok(Built(MirrorSignal(s), n))
  }

  lemma {:induction false} NearestMirror(levels: seq<Option<real>>, entry: real)
    ensures NearestAbove(NegAll(levels), -entry) == Neg(NearestBelow(levels, entry))
    ensures NearestBelow(NegAll(levels), -entry) == Neg(NearestAbove(levels, entry))
  {
    if levels != [] {
      var front := levels[..|levels| - 1];
      NearestMirror(front, entry);
      assert NegAll(levels)[..|levels| - 1] == NegAll(front);
    }
  }

  lemma {:induction false} LatestMirror(gaps: seq<Fvg>, entry: real)
    ensures LatestTop(MirrorFvgs(gaps), -entry) == Neg(LatestBottom(gaps, entry))
    ensures LatestBottom(MirrorFvgs(gaps), -entry) == Neg(LatestTop(gaps, entry))
  {
    if gaps != [] {
      var front := gaps[..|gaps| - 1];
      LatestMirror(front, entry);
      assert MirrorFvgs(gaps)[..|gaps| - 1] == MirrorFvgs(front);
    }
  }

  lemma MirrorAppend(a: seq<Candidate>, b: seq<Candidate>)
    ensures MirrorCandidates(a + b) == MirrorCandidates(a) + MirrorCandidates(b)
  {
  }

  lemma LevelMirror(l: Option<real>, shift: real, source: Source)
    ensures Level(Neg(l), -shift, MirrorSource(source)) == MirrorCandidates(Level(l, shift, source))
  {
  }

  /** Three candidate lists in order mirror to the three mirrored lists in order. */
  lemma MirrorThree(a: seq<Candidate>, b: seq<Candidate>, c: seq<Candidate>)
    ensures MirrorCandidates(a + b + c) == MirrorCandidates(a) + MirrorCandidates(b) + MirrorCandidates(c)
  {
    MirrorAppend(a + b, c);
    MirrorAppend(a, b);
  }

  lemma BuyLevelsMirror(entry: real, st: Structure, buffer: real, reach: Option<real>)
    ensures SellLevels(-entry, MirrorStructure(st), buffer, reach) == MirrorCandidates(BuyLevels(entry, st, buffer, reach))
  {
    hide NearestBelow, NearestAbove, LatestBottom, LatestTop, MirrorCandidates;
    var swing, gap := NearestBelow(st.swingLows, entry), LatestBottom(st.bullish, entry);
    var last := if reach.Some? then Some(entry - reach.value) else None;
    NearestMirror(st.swingLows, entry);
    LatestMirror(st.bullish, entry);
    LevelMirror(swing, -buffer, SwingLow);
    LevelMirror(gap, -buffer, FvgBottom);
    LevelMirror(last, -buffer, AtrFallback);
    MirrorThree(Level(swing, -buffer, SwingLow), Level(gap, -buffer, FvgBottom), Level(last, -buffer, AtrFallback));
  }

  lemma SellLevelsMirror(entry: real, st: Structure, buffer: real, reach: Option<real>)
    ensures BuyLevels(-entry, MirrorStructure(st), buffer, reach) == MirrorCandidates(SellLevels(entry, st, buffer, reach))
  {
    hide NearestBelow, NearestAbove, LatestBottom, LatestTop, MirrorCandidates;
    var swing, gap := NearestAbove(st.swingHighs, entry), LatestTop(st.bearish, entry);
    var last := if reach.Some? then Some(entry + reach.value) else None;
    NearestMirror(st.swingHighs, entry);
    LatestMirror(st.bearish, entry);
    LevelMirror(swing, buffer, SwingHigh);
    LevelMirror(gap, buffer, FvgTop);
    LevelMirror(last, buffer, AtrFallback);
    MirrorThree(Level(swing, buffer, SwingHigh), Level(gap, buffer, FvgTop), Level(last, buffer, AtrFallback));
  }

  lemma {:induction false} FirstMirror(p: Params, entry: real, cs: seq<Candidate>, atr: real)
    requires p.pipSize > 0.0
    ensures var r := FirstInBounds(p, entry, cs, atr);
            FirstInBounds(p, -entry, MirrorCandidates(cs), atr)
            == if r.None? then None else Some(Stop(MirrorCandidate(r.value.candidate), r.value.distance))
  {
    if cs != [] {
      DistanceMirror(entry, cs[0].price, p.pipSize, Some(atr));
      assert MirrorCandidates(cs)[1..] == MirrorCandidates(cs[1..]);
      FirstMirror(p, entry, cs[1..], atr);
    }
  }

  lemma TakeProfitMirror(dir: Direction, entry: real, gain: real)
    ensures TakeProfit(MirrorDirection(dir), -entry, gain) == -TakeProfit(dir, entry, gain)
  {
    var x := if dir == BUY then entry + gain else entry - gain;
    RoundOdd(x, 100000.0);
  }

  lemma SignalMirror(dir: Direction, entry: real, half: real, sl: Candidate, gain1: real, gain2: real, risk: real)
    ensures SignalAt(MirrorDirection(dir), -entry, half, MirrorCandidate(sl), gain1, gain2, risk)
            == MirrorSignal(SignalAt(dir, entry, half, sl, gain1, gain2, risk))
  {
    TakeProfitMirror(dir, entry, gain1);
    TakeProfitMirror(dir, entry, gain2);
    var tp1 := TakeProfit(dir, entry, gain1);
    assert Abs(-tp1 - -entry) == Abs(tp1 - entry);
    RoundOdd(entry - half, 100000.0);
    RoundOdd(entry + half, 100000.0);
    assert -entry + half == -(entry - half) && -entry - half == -(entry + half);
    RoundOdd(sl.price, 100000.0);
  }

  /** Turning the market upside down turns every construction upside down: same acceptance,
      same candidate count, same R:R, negated prices, mirrored source, rounding included. */
  lemma ConstructionMirror(p: Params, dir: Direction, bid: real, ask: real, st: Structure, atr: real)
    ensures ConstructionOf(p, MirrorDirection(dir), -ask, -bid, MirrorStructure(st), atr)
            == MirrorResult(ConstructionOf(p, dir, bid, ask, st, atr))
  {
    var entry := Entry(dir, bid, ask);
    assert Entry(MirrorDirection(dir), -ask, -bid) == -entry;
    StopMirror(p, dir, entry, st, atr);
    FinishMirror(p, dir, entry, atr, |Candidates(p, dir, entry, st, atr)|, DeriveStop(p, dir, entry, st, atr));
  }

  function MirrorStop(stop: Result<Option<Stop>, Error>): Result<Option<Stop>, Error> {
    if stop.Ok? && stop.value.Some?
    then Ok(Some(Stop(MirrorCandidate(stop.value.value.candidate), stop.value.value.distance)))
    else stop
  }

  lemma FinishMirror(p: Params, dir: Direction, entry: real, atr: real, n: nat, stop: Result<Option<Stop>, Error>)
    ensures Finish(p, MirrorDirection(dir), -entry, atr, n, MirrorStop(stop))
            == MirrorResult(Finish(p, dir, entry, atr, n, stop))
  {
    if stop.Ok? && stop.value.Some? {
      MakeSignalMirror(p, dir, entry, atr, stop.value.value.candidate, stop.value.value.distance.priceDelta);
    }
  }

  lemma MakeSignalMirror(p: Params, dir: Direction, entry: real, atr: real, sl: Candidate, delta: real)
    ensures MakeSignal(p, MirrorDirection(dir), -entry, atr, MirrorCandidate(sl), delta)
            == MirrorSignal(MakeSignal(p, dir, entry, atr, sl, delta))
  {
    SignalMirror(dir, entry, Times(atr, p.zoneMult), sl, Times(delta, p.tp1Rr), Times(delta, p.tp2Rr), delta);
  }

  lemma StopMirror(p: Params, dir: Direction, entry: real, st: Structure, atr: real)
    ensures |Candidates(p, MirrorDirection(dir), -entry, MirrorStructure(st), atr)| == |Candidates(p, dir, entry, st, atr)|
    ensures DeriveStop(p, MirrorDirection(dir), -entry, MirrorStructure(st), atr)
            == MirrorStop(DeriveStop(p, dir, entry, st, atr))
  {
    BuyLevelsMirror(entry, st, Buffer(p, atr), FallbackReach(p, atr));
    SellLevelsMirror(entry, st, Buffer(p, atr), FallbackReach(p, atr));
    var cs := Candidates(p, dir, entry, st, atr);
    assert Candidates(p, MirrorDirection(dir), -entry, MirrorStructure(st), atr) == MirrorCandidates(cs);
    if cs != [] && p.pipSize > 0.0 {
      FirstMirror(p, entry, cs, atr);
    }
  }

  // ---------------------------------------------------------------- geometry of the trade

  /** `a` lies on the loss side of `b` for a trade in direction `dir`. */
  predicate LossSide(dir: Direction, a: real, b: real) {
    if dir == BUY then a < b else a > b
  }

  lemma CandidatesOnLossSide(p: Params, dir: Direction, entry: real, st: Structure, atr: real)
    requires Buffer(p, atr) >= 0.0
    ensures forall c :: c in Candidates(p, dir, entry, st, atr) ==> LossSide(dir, c.price, entry)
  {
    var buffer, reach := Buffer(p, atr), FallbackReach(p, atr);
    if reach.Some? {
      TimesPositive(atr, p.slAtrMult);
    }
    if dir == BUY {
      BuyLevelsBelow(entry, st, buffer, reach);
    } else {
      BuyLevelsBelow(-entry, MirrorStructure(st), buffer, reach);
      SellLevelsMirror(entry, st, buffer, reach);
      var cs := SellLevels(entry, st, buffer, reach);
      forall k | 0 <= k < |cs| ensures cs[k].price > entry {
        assert MirrorCandidates(cs)[k] in MirrorCandidates(cs);
      }
    }
  }

  lemma BuyLevelsBelow(entry: real, st: Structure, buffer: real, reach: Option<real>)
    requires buffer >= 0.0 && (reach.Some? ==> reach.value > 0.0)
    ensures forall c :: c in BuyLevels(entry, st, buffer, reach) ==> c.price < entry
  {
    NearestBelowIsHighest(st.swingLows, entry);
    LatestBottomMeaning(st.bullish, entry);
  }

  lemma BufferSign(p: Params, atr: real)
    requires atr > 0.0 ==> p.slBufferAtr >= 0.0
    ensures Buffer(p, atr) >= 0.0
  {
  }

  lemma TimesPositive(x: real, y: real)
    requires x > 0.0 && y > 0.0
    ensures Times(x, y) > 0.0
  {
  }

  /** The stop that was chosen is one of the candidates, measured, and within bounds. */
  lemma ChosenStop(p: Params, dir: Direction, entry: real, st: Structure, atr: real)
    requires DeriveStop(p, dir, entry, st, atr).Ok? && DeriveStop(p, dir, entry, st, atr).value.Some?
    ensures p.pipSize > 0.0
    ensures var stop := DeriveStop(p, dir, entry, st, atr).value.value;
            && stop.candidate in Candidates(p, dir, entry, st, atr)
            && stop == StopAt(p, entry, stop.candidate, atr)
            && VerdictOf(p, entry, stop.candidate, atr) == InBounds
  {
    FirstInBoundsMeaning(p, entry, Candidates(p, dir, entry, st, atr), atr);
  }

  lemma Price5Near(x: real)
    ensures -0.000005 <= Price5(x) - x <= 0.000005
  {
    RoundNear(x, 100000.0);
  }

  lemma RatioNear(tp1: real, entry: real, risk: real, rr: real)
    requires risk > 0.0 && -0.000005 <= Abs(tp1 - entry) - Times(risk, rr) <= 0.000005
    ensures Abs(Ratio(tp1, entry, risk) - rr) <= 0.005 + 0.000005 / risk
  {
    var reward := Abs(tp1 - entry);
    var q, slack := reward / risk, 0.000005 / risk;
    RoundNear(q, 100.0);
    var gap := reward - Times(risk, rr);
    assert gap / risk == q - rr;
    DivMonotone(gap, 0.000005, risk);
    DivMonotone(-0.000005, gap, risk);
    assert -0.000005 / risk == -slack;
  }

  lemma TargetNear(dir: Direction, entry: real, gain: real)
    requires gain >= 0.0
    ensures var tp := TakeProfit(dir, entry, gain);
            && -0.000005 <= Abs(tp - entry) - gain <= 0.000005
            && (gain > 0.000005 ==> LossSide(dir, entry, tp))
  {
    Price5Near(if dir == BUY then entry + gain else entry - gain);
  }

  /** The finished trade: the raw stop is strictly on the loss side, rounding keeps it there once
      it is further than half a price unit away, the targets are on the profit side once their
      gain exceeds that unit, and the recorded R:R is the configured one up to rounding. */
  lemma TradeGeometry(p: Params, dir: Direction, bid: real, ask: real, st: Structure, atr: real)
    requires ConstructionOf(p, dir, bid, ask, st, atr).Ok? && ConstructionOf(p, dir, bid, ask, st, atr).value.Built?
    requires Buffer(p, atr) >= 0.0 && p.tp1Rr >= 0.0 && p.tp2Rr >= 0.0
    ensures var entry := Entry(dir, bid, ask);
            var stop := DeriveStop(p, dir, entry, st, atr).value.value;
            var s := ConstructionOf(p, dir, bid, ask, st, atr).value.signal;
            var delta := stop.distance.priceDelta;
            && s.slSource == stop.candidate.source
            && LossSide(dir, stop.candidate.price, entry)
            && (Abs(entry - stop.candidate.price) > 0.000005 ==> LossSide(dir, s.stopLoss, entry))
            && (Times(delta, p.tp1Rr) > 0.000005 ==> LossSide(dir, entry, s.tp1))
            && (Times(delta, p.tp2Rr) > 0.000005 ==> LossSide(dir, entry, s.tp2))
            && (delta > 0.0 ==> Abs(s.rrRatio - p.tp1Rr) <= 0.005 + 0.000005 / delta)
  {
    hide Candidates, FirstInBounds, StopAt, VerdictOf, MakeSignal, Times, Buffer, DeriveStop;
    var entry := Entry(dir, bid, ask);
    ChosenStop(p, dir, entry, st, atr);
    CandidatesOnLossSide(p, dir, entry, st, atr);
    var stop := DeriveStop(p, dir, entry, st, atr).value.value;
    DeltaNonNegative(p, entry, stop.candidate, atr);
    SignalGeometry(p, dir, entry, atr, stop.candidate, stop.distance.priceDelta);
  }

  lemma DeltaNonNegative(p: Params, entry: real, c: Candidate, atr: real)
    requires p.pipSize > 0.0
    ensures StopAt(p, entry, c, atr).distance.priceDelta >= 0.0
  {
    assert Abs(entry - c.price) * 100000000.0 >= 0.0;
    assert RoundInt(Abs(entry - c.price) * 100000000.0) >= 0;
  }

  lemma SignalGeometry(p: Params, dir: Direction, entry: real, atr: real, sl: Candidate, delta: real)
    requires LossSide(dir, sl.price, entry) && delta >= 0.0 && p.tp1Rr >= 0.0 && p.tp2Rr >= 0.0
    ensures var s := MakeSignal(p, dir, entry, atr, sl, delta);
            && s.slSource == sl.source
            && (Abs(entry - sl.price) > 0.000005 ==> LossSide(dir, s.stopLoss, entry))
            && (Times(delta, p.tp1Rr) > 0.000005 ==> LossSide(dir, entry, s.tp1))
            && (Times(delta, p.tp2Rr) > 0.000005 ==> LossSide(dir, entry, s.tp2))
            && (delta > 0.0 ==> Abs(s.rrRatio - p.tp1Rr) <= 0.005 + 0.000005 / delta)
  {
    Price5Near(sl.price);
    var gain1, gain2 := Times(delta, p.tp1Rr), Times(delta, p.tp2Rr);
    TargetNear(dir, entry, gain1);
    TargetNear(dir, entry, gain2);
    if delta > 0.0 {
      RatioNear(TakeProfit(dir, entry, gain1), entry, delta, p.tp1Rr);
    }
  }

  /** A stop buffer that is not negative, targets of at least 1 R and a minimum stop of at least
      two price units. */
  predicate SafeSettings(p: Params, atr: real) {
    (atr > 0.0 ==> p.slBufferAtr >= 0.0) && p.tp1Rr >= 1.0 && p.tp2Rr >= 1.0 && (p.slMin - 0.005) * p.pipSize >= 0.00001
  }

  /** With settings a caller can check beforehand every accepted trade has its stop strictly on the loss side and
      both targets strictly on the profit side, after rounding. */
  lemma AcceptedTradeIsOrdered(p: Params, dir: Direction, bid: real, ask: real, st: Structure, atr: real)
    requires ConstructionOf(p, dir, bid, ask, st, atr).Ok? && ConstructionOf(p, dir, bid, ask, st, atr).value.Built?
    requires SafeSettings(p, atr)
    ensures var entry := if dir == BUY then ask else bid;
            var s := ConstructionOf(p, dir, bid, ask, st, atr).value.signal;
            LossSide(dir, s.stopLoss, entry) && LossSide(dir, entry, s.tp1) && LossSide(dir, entry, s.tp2)
  {
    BufferSign(p, atr);
    hide Candidates, FirstInBounds, StopAt, VerdictOf, MakeSignal, Times, Buffer, DeriveStop, SafeSettings;
    var entry := Entry(dir, bid, ask);
    ChosenStop(p, dir, entry, st, atr);
    CandidatesOnLossSide(p, dir, entry, st, atr);
    var stop := DeriveStop(p, dir, entry, st, atr).value.value;
    StopIsFar(p, entry, stop.candidate, atr);
    FarSignalIsOrdered(p, dir, entry, atr, stop.candidate, stop.distance.priceDelta);
  }

  lemma StopIsFar(p: Params, entry: real, c: Candidate, atr: real)
    requires p.pipSize > 0.0 && VerdictOf(p, entry, c, atr) == InBounds && SafeSettings(p, atr)
    ensures Abs(entry - c.price) >= 0.00001
    ensures StopAt(p, entry, c, atr).distance.priceDelta >= 0.000009
  {
    BoundsAreRealDistances(entry, c.price, p.pipSize, Some(atr), p.slMin, p.slMax);
  }

  lemma FarSignalIsOrdered(p: Params, dir: Direction, entry: real, atr: real, sl: Candidate, delta: real)
    requires LossSide(dir, sl.price, entry) && Abs(entry - sl.price) >= 0.00001 && delta >= 0.000009 && SafeSettings(p, atr)
    ensures var s := MakeSignal(p, dir, entry, atr, sl, delta);
            LossSide(dir, s.stopLoss, entry) && LossSide(dir, entry, s.tp1) && LossSide(dir, entry, s.tp2)
  {
    SignalGeometry(p, dir, entry, atr, sl, delta);
    TimesAtLeast(delta, p.tp1Rr);
    TimesAtLeast(delta, p.tp2Rr);
  }

  lemma TimesAtLeast(x: real, k: real)
    requires x >= 0.0 && k >= 1.0
    ensures Times(x, k) >= x
  {
  }

  // ---------------------------------------------------------------- the numbers of a trade

  lemma TimesNear(x: real, y: real, k: real, e: real)
    requires k >= 0.0 && e >= 0.0 && Abs(x - y) <= e
    ensures Abs(Times(x, k) - Times(y, k)) <= Times(e, k)
  {
    assert (y - e) * k <= x * k <= (y + e) * k;
  }

  lemma TargetValue(entry: real, distance: real, delta: real, rr: real)
    requires rr >= 0.0 && Abs(delta - distance) <= 0.000000005
    ensures Abs(TakeProfit(BUY, entry, Times(delta, rr)) - (entry + Times(distance, rr))) <= 0.000005 + Times(0.000000005, rr)
  {
    TimesNear(delta, distance, rr, 0.000000005);
    Price5Near(entry + Times(delta, rr));
    hide Times, Price5;
  }

  /** The numbers of a BUY with the unrounded stop `raw`: stop and zone within half a price unit,
      targets at the configured multiples of the stop distance up to rounding. */
  predicate BuyNumbers(p: Params, s: Signal, entry: real, atr: real, raw: real) {
    var distance := Abs(entry - raw);
    && s.direction == BUY
    && Abs(s.stopLoss - raw) <= 0.000005
    && Abs(s.zoneLow - (entry - Times(atr, p.zoneMult))) <= 0.000005
    && Abs(s.zoneHigh - (entry + Times(atr, p.zoneMult))) <= 0.000005
    && Abs(s.tp1 - (entry + Times(distance, p.tp1Rr))) <= 0.000005 + Times(0.000000005, p.tp1Rr)
    && Abs(s.tp2 - (entry + Times(distance, p.tp2Rr))) <= 0.000005 + Times(0.000000005, p.tp2Rr)
  }

  /** Every accepted BUY: its stop lies a buffer beyond the structure level of its source, its
      other numbers follow from that stop; entry is the ask.  A SELL is the mirror image. */
  lemma BuyMeaning(p: Params, bid: real, ask: real, st: Structure, atr: real)
    requires ConstructionOf(p, BUY, bid, ask, st, atr).Ok? && ConstructionOf(p, BUY, bid, ask, st, atr).value.Built?
    requires p.tp1Rr >= 0.0 && p.tp2Rr >= 0.0
    ensures var s := ConstructionOf(p, BUY, bid, ask, st, atr).value.signal;
            exists raw :: StopFrom(p, ask, st, atr, s.slSource, raw) && BuyNumbers(p, s, ask, atr, raw)
  {
    ChosenStop(p, BUY, ask, st, atr);
    BuyCandidatesFrom(p, ask, st, atr);
    hide Candidates, FirstInBounds, VerdictOf, DeriveStop, StopFrom;
    var stop := DeriveStop(p, BUY, ask, st, atr).value.value;
    NumbersOf(p, ask, atr, stop.candidate);
  }

  lemma NumbersOf(p: Params, entry: real, atr: real, c: Candidate)
    requires p.pipSize > 0.0 && VerdictOf(p, entry, c, atr) == InBounds && p.tp1Rr >= 0.0 && p.tp2Rr >= 0.0
    ensures var s := MakeSignal(p, BUY, entry, atr, c, StopAt(p, entry, c, atr).distance.priceDelta);
            s.slSource == c.source && BuyNumbers(p, s, entry, atr, c.price)
  {
    var delta, distance := StopAt(p, entry, c, atr).distance.priceDelta, Abs(entry - c.price);
    DeltaNear(p, entry, c, atr);
    TargetValue(entry, distance, delta, p.tp1Rr);
    TargetValue(entry, distance, delta, p.tp2Rr);
    Price5Near(entry - Times(atr, p.zoneMult));
    Price5Near(entry + Times(atr, p.zoneMult));
    Price5Near(c.price);
    hide VerdictOf, StopAt, TakeProfit, Price5, Ratio, Times;
  }

  lemma DeltaNear(p: Params, entry: real, c: Candidate, atr: real)
    requires p.pipSize > 0.0
    ensures Abs(StopAt(p, entry, c, atr).distance.priceDelta - Abs(entry - c.price)) <= 0.000000005
  {
    RoundNear(Abs(entry - c.price), 100000000.0);
    hide Round;
  }

  /** Every price of a signal is a whole number of price units, its R:R of hundredths. */
  lemma SignalOnGrid(p: Params, dir: Direction, entry: real, atr: real, sl: Candidate, delta: real)
    ensures var s := MakeSignal(p, dir, entry, atr, sl, delta);
            && OnGrid(s.stopLoss, 100000.0) && OnGrid(s.tp1, 100000.0) && OnGrid(s.tp2, 100000.0)
            && OnGrid(s.zoneLow, 100000.0) && OnGrid(s.zoneHigh, 100000.0)
            && (delta > 0.0 ==> OnGrid(s.rrRatio, 100.0))
  {
    var half, gain1, gain2 := Times(atr, p.zoneMult), Times(delta, p.tp1Rr), Times(delta, p.tp2Rr);
    RoundOnGrid(sl.price, 100000.0);
    RoundOnGrid(entry - half, 100000.0);
    RoundOnGrid(entry + half, 100000.0);
    RoundOnGrid(if dir == BUY then entry + gain1 else entry - gain1, 100000.0);
    RoundOnGrid(if dir == BUY then entry + gain2 else entry - gain2, 100000.0);
    if delta > 0.0 { RoundOnGrid(Abs(TakeProfit(dir, entry, gain1) - entry) / delta, 100.0); }
    hide Round, OnGrid, Times;
  }

  /** A candidate is turned down only for a distance below the minimum or above the maximum, up to
      half a hundredth of a point, and the reason says which. */
  lemma TurnedDownMeaning(p: Params, entry: real, c: Candidate, atr: real)
    requires p.pipSize > 0.0
    ensures VerdictOf(p, entry, c, atr) == BelowMinimum ==> Abs(entry - c.price) <= Times(p.slMin + 0.005, p.pipSize)
    ensures VerdictOf(p, entry, c, atr) == AboveMaximum ==> Abs(entry - c.price) >= Times(p.slMax - 0.005, p.pipSize)
    ensures VerdictOf(p, entry, c, atr) == InBounds ==>
      Times(p.slMin - 0.005, p.pipSize) <= Abs(entry - c.price) <= Times(p.slMax + 0.005, p.pipSize)
  {
    var distance := Abs(entry - c.price);
    var points := Round(distance / p.pipSize, 100.0);
    assert VerdictOf(p, entry, c, atr) == if points < p.slMin then BelowMinimum else if points > p.slMax then AboveMaximum else InBounds;
    hide VerdictOf, Abs;
    PointsAgainst(distance, p.pipSize, p.slMin);
    PointsAgainst(distance, p.pipSize, p.slMax);
    hide Round, Times;
  }

  lemma PointsAgainst(distance: real, pip: real, bound: real)
    requires pip > 0.0
    ensures var points := Round(distance / pip, 100.0);
            && (points <= bound ==> distance <= Times(bound + 0.005, pip))
            && (points >= bound ==> distance >= Times(bound - 0.005, pip))
  {
    var points := Round(distance / pip, 100.0);
    PointsBound(distance, pip, points, points);
    hide Round;
    if points <= bound { MulMonotone(points + 0.005, bound + 0.005, pip); }
    if points >= bound { MulMonotone(bound - 0.005, points - 0.005, pip); }
  }
}
