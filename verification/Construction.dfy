/** Structure-first trade construction (pipeline/construction.py): the stop comes from market
    structure, the targets from the stop distance. */
module Construction {
  import opened Normalization
  import opened Rounding
  import opened Wrappers

  datatype Direction = BUY | SELL

  datatype Source = SwingLow | FvgBottom | SwingHigh | FvgTop | AtrFallback

  datatype Candidate = Candidate(price: real, source: Source)

  /** One fair value gap; either edge may be missing from the indicator dict. */
  datatype Fvg = Fvg(top: Option<real>, bottom: Option<real>)

  /** The structure levels of the indicator dict.  A swing without a price is `None`. */
  datatype Structure = Structure(
    swingLows: seq<Option<real>>, swingHighs: seq<Option<real>>,
    bullish: seq<Fvg>, bearish: seq<Fvg>)

  datatype Params = Params(
    pipSize: real, slMin: real, slMax: real, tp1Rr: real, tp2Rr: real,
    zoneMult: real, slBufferAtr: real, slAtrMult: real)

  datatype Rejection = Rejection(source: Source, price: real, points: real, reason: Verdict)

  datatype Signal = Signal(
    direction: Direction, zoneLow: real, zoneHigh: real, stopLoss: real,
    tp1: real, tp2: real, rrRatio: real, slSource: Source)

  datatype ConstructionResult = Built(signal: Signal, candidates: nat) | Rejected(candidates: nat)

  datatype Stop = Stop(candidate: Candidate, distance: DistanceInfo)

  // ---------------------------------------------------------------- specification

  function Price5(x: real): real { Round(x, 100000.0) }

  /** The highest level strictly below `entry`. */
  function NearestBelow(levels: seq<Option<real>>, entry: real): Option<real> {
    if levels == [] then None
    else
      var rest := NearestBelow(levels[..|levels| - 1], entry);
      var last := levels[|levels| - 1];
      if last.Some? && last.value < entry && (rest.None? || last.value > rest.value) then last else rest
  }

  /** The lowest level strictly above `entry`. */
  function NearestAbove(levels: seq<Option<real>>, entry: real): Option<real> {
    if levels == [] then None
    else
      var rest := NearestAbove(levels[..|levels| - 1], entry);
      var last := levels[|levels| - 1];
      if last.Some? && last.value > entry && (rest.None? || last.value < rest.value) then last else rest
  }

  /** The most recent gap whose bottom lies below `entry`. */
  function LatestBottom(gaps: seq<Fvg>, entry: real): Option<real> {
    if gaps == [] then None
    else
      var b := gaps[|gaps| - 1].bottom;
      if b.Some? && b.value < entry then b else LatestBottom(gaps[..|gaps| - 1], entry)
  }

  function LatestTop(gaps: seq<Fvg>, entry: real): Option<real> {
    if gaps == [] then None
    else
      var t := gaps[|gaps| - 1].top;
      if t.Some? && t.value > entry then t else LatestTop(gaps[..|gaps| - 1], entry)
  }

  function Entry(dir: Direction, bid: real, ask: real): real {
    if dir == BUY then ask else bid
  }

  function Buffer(p: Params, atr: real): real {
    if atr > 0.0 then Times(p.slBufferAtr, atr) else 0.0
  }

  function Level(l: Option<real>, shift: real, source: Source): seq<Candidate> {
    if l.Some? then [Candidate(l.value + shift, source)] else []
  }

  /** The distance of the ATR fallback stop, when that fallback is enabled. */
  function FallbackReach(p: Params, atr: real): Option<real> {
    if atr > 0.0 && p.slAtrMult > 0.0 then Some(Times(atr, p.slAtrMult)) else None
  }

  function BuyLevels(entry: real, st: Structure, buffer: real, reach: Option<real>): seq<Candidate> {
    Level(NearestBelow(st.swingLows, entry), -buffer, SwingLow)
    + Level(LatestBottom(st.bullish, entry), -buffer, FvgBottom)
    + if reach.Some? then [Candidate(entry - reach.value - buffer, AtrFallback)] else []
  }

  function SellLevels(entry: real, st: Structure, buffer: real, reach: Option<real>): seq<Candidate> {
    Level(NearestAbove(st.swingHighs, entry), buffer, SwingHigh)
    + Level(LatestTop(st.bearish, entry), buffer, FvgTop)
    + if reach.Some? then [Candidate(entry + reach.value + buffer, AtrFallback)] else []
  }

  /** Stop candidates in priority order. */
  function Candidates(p: Params, dir: Direction, entry: real, st: Structure, atr: real): seq<Candidate> {
    if dir == BUY then BuyLevels(entry, st, Buffer(p, atr), FallbackReach(p, atr))
    else SellLevels(entry, st, Buffer(p, atr), FallbackReach(p, atr))
  }

  function VerdictOf(p: Params, entry: real, c: Candidate, atr: real): Verdict
    requires p.pipSize > 0.0
  {
    CheckBounds(NormalizeDistance(entry, c.price, p.pipSize, Some(atr)).value, p.slMin, p.slMax)
  }

  /** The first candidate whose distance is in bounds. */
  function FirstInBounds(p: Params, entry: real, cs: seq<Candidate>, atr: real): Option<Stop>
    requires p.pipSize > 0.0
  {
    if cs == [] then None
    else if VerdictOf(p, entry, cs[0], atr) == InBounds then Some(StopAt(p, entry, cs[0], atr))
    else FirstInBounds(p, entry, cs[1..], atr)
  }

  function StopAt(p: Params, entry: real, c: Candidate, atr: real): Stop
    requires p.pipSize > 0.0
  {
    Stop(c, NormalizeDistance(entry, c.price, p.pipSize, Some(atr)).value)
  }

  function TakeProfit(dir: Direction, entry: real, gain: real): real {
    Price5(if dir == BUY then entry + gain else entry - gain)
  }

  function Ratio(tp1: real, entry: real, risk: real): real {
    if risk > 0.0 then Round(Abs(tp1 - entry) / risk, 100.0) else 0.0
  }

  /** The signal for an entry zone of half-width `half` and targets `gain1`, `gain2` away. */
  function SignalAt(dir: Direction, entry: real, half: real, sl: Candidate,
                    gain1: real, gain2: real, risk: real): Signal
  {
    var tp1 := TakeProfit(dir, entry, gain1);
    Signal(dir, Price5(entry - half), Price5(entry + half), Price5(sl.price),
           tp1, TakeProfit(dir, entry, gain2), Ratio(tp1, entry, risk), sl.source)
  }

  function MakeSignal(p: Params, dir: Direction, entry: real, atr: real, sl: Candidate, delta: real): Signal {
    SignalAt(dir, entry, Times(atr, p.zoneMult), sl, Times(delta, p.tp1Rr), Times(delta, p.tp2Rr), delta)
  }

  function DeriveStop(p: Params, dir: Direction, entry: real, st: Structure, atr: real)
    : Result<Option<Stop>, Error>
  {
    var cs := Candidates(p, dir, entry, st, atr);
    if cs == [] then Ok(None)
    else if p.pipSize <= 0.0 then Err(PipSizeNotPositive)
    else Ok(FirstInBounds(p, entry, cs, atr))
  }

  function Finish(p: Params, dir: Direction, entry: real, atr: real, n: nat, stop: Result<Option<Stop>, Error>)
    : Result<ConstructionResult, Error>
  {
    match stop
    case Err(e) => Err(e)
    case Ok(None) => Ok(Rejected(n))
    case Ok(Some(s)) => Ok(Built(MakeSignal(p, dir, entry, atr, s.candidate, s.distance.priceDelta), n))
  }

  function ConstructionOf(p: Params, dir: Direction, bid: real, ask: real, st: Structure, atr: real)
    : Result<ConstructionResult, Error>
  {
    var entry := Entry(dir, bid, ask);
    Finish(p, dir, entry, atr, |Candidates(p, dir, entry, st, atr)|, DeriveStop(p, dir, entry, st, atr))
  }

  // ---------------------------------------------------------------- the constructor object

  class TradeConstructor {
    const p: Params
    var lastEntry: real
    var lastCandidates: nat
    var lastRejectionDetails: seq<Rejection>

    constructor (p: Params)
      ensures this.p == p && lastEntry == 0.0 && lastCandidates == 0 && lastRejectionDetails == []
    {
      this.p := p;
      lastEntry, lastCandidates, lastRejectionDetails := 0.0, 0, [];
    }

    method NearestLow(levels: seq<Option<real>>, entry: real) returns (nearest: Option<real>)
      ensures nearest == NearestBelow(levels, entry)
    {
      nearest := None;
      for i := 0 to |levels|
        invariant nearest == NearestBelow(levels[..i], entry)
      {
        assert levels[..i + 1][..i] == levels[..i];
        var l := levels[i];
        if l.Some? && l.value < entry && (nearest.None? || l.value > nearest.value) {
          nearest := l;
        }
      }
      assert levels[..|levels|] == levels;
    }

    method NearestHigh(levels: seq<Option<real>>, entry: real) returns (nearest: Option<real>)
      ensures nearest == NearestAbove(levels, entry)
    {
      nearest := None;
      for i := 0 to |levels|
        invariant nearest == NearestAbove(levels[..i], entry)
      {
        assert levels[..i + 1][..i] == levels[..i];
        var l := levels[i];
        if l.Some? && l.value > entry && (nearest.None? || l.value < nearest.value) {
          nearest := l;
        }
      }
      assert levels[..|levels|] == levels;
    }

    method RecentBottom(gaps: seq<Fvg>, entry: real) returns (bottom: Option<real>)
      ensures bottom == LatestBottom(gaps, entry)
    {
      var j := |gaps|;
      assert gaps[..j] == gaps;
      while j > 0
        invariant 0 <= j <= |gaps|
        invariant LatestBottom(gaps, entry) == LatestBottom(gaps[..j], entry)
      {
        assert gaps[..j][..j - 1] == gaps[..j - 1];
        bottom := gaps[j - 1].bottom;
        if bottom.Some? && bottom.value < entry {
          return;
        }
        j := j - 1;
      }
      bottom := None;
    }

    method RecentTop(gaps: seq<Fvg>, entry: real) returns (top: Option<real>)
      ensures top == LatestTop(gaps, entry)
    {
      var j := |gaps|;
      assert gaps[..j] == gaps;
      while j > 0
        invariant 0 <= j <= |gaps|
        invariant LatestTop(gaps, entry) == LatestTop(gaps[..j], entry)
      {
        assert gaps[..j][..j - 1] == gaps[..j - 1];
        top := gaps[j - 1].top;
        if top.Some? && top.value > entry {
          return;
        }
        j := j - 1;
      }
      top := None;
    }

    method BuyCandidates(entry: real, st: Structure, buffer: real, reach: Option<real>)
      returns (cs: seq<Candidate>)
      ensures cs == BuyLevels(entry, st, buffer, reach)
    {
      cs := [];
      var nearest := NearestLow(st.swingLows, entry);
      if nearest.Some? {
        cs := cs + [Candidate(nearest.value - buffer, SwingLow)];
      }
      var bottom := RecentBottom(st.bullish, entry);
      if bottom.Some? {
        cs := cs + [Candidate(bottom.value - buffer, FvgBottom)];
      }
      if reach.Some? {
        cs := cs + [Candidate(entry - reach.value - buffer, AtrFallback)];
      }
    }

    method SellCandidates(entry: real, st: Structure, buffer: real, reach: Option<real>)
      returns (cs: seq<Candidate>)
      ensures cs == SellLevels(entry, st, buffer, reach)
    {
      cs := [];
      var nearest := NearestHigh(st.swingHighs, entry);
      if nearest.Some? {
        cs := cs + [Candidate(nearest.value + buffer, SwingHigh)];
      }
      var top := RecentTop(st.bearish, entry);
      if top.Some? {
        cs := cs + [Candidate(top.value + buffer, FvgTop)];
      }
      if reach.Some? {
        cs := cs + [Candidate(entry + reach.value + buffer, AtrFallback)];
      }
    }

    /** Measures one candidate against the bounds. */
    method Measure(entry: real, c: Candidate, atr: real) returns (stop: Stop, verdict: Verdict)
      requires p.pipSize > 0.0
      ensures stop == StopAt(p, entry, c, atr) && verdict == VerdictOf(p, entry, c, atr)
    {
      var dist := NormalizeDistance(entry, c.price, p.pipSize, Some(atr));
      stop := Stop(c, dist.value);
      verdict := CheckBounds(dist.value, p.slMin, p.slMax);
    }

    /** Tries the candidates in order and remembers why each earlier one was turned down. */
    method TryInOrder(cs: seq<Candidate>, entry: real, atr: real) returns (r: Option<Stop>)
      requires p.pipSize > 0.0
      modifies this`lastRejectionDetails
      ensures r == FirstInBounds(p, entry, cs, atr)
      ensures lastRejectionDetails == old(lastRejectionDetails) + Rejections(p, entry, cs, atr)
      decreases |cs|
    {
      var i := 0;
      assert cs[i..] == cs;
      while i < |cs|
        invariant 0 <= i <= |cs|
        invariant FirstInBounds(p, entry, cs, atr) == FirstInBounds(p, entry, cs[i..], atr)
        invariant old(lastRejectionDetails) + Rejections(p, entry, cs, atr)
                  == lastRejectionDetails + Rejections(p, entry, cs[i..], atr)
      {
        var stop, verdict := Measure(entry, cs[i], atr);
        assert cs[i..][1..] == cs[i + 1..];
        if verdict == InBounds {
          return Some(stop);
        }
        lastRejectionDetails := lastRejectionDetails + [RejectionOf(stop, verdict)];
        i := i + 1;
      }
      return None;
    }

    method DeriveSl(dir: Direction, entry: real, st: Structure, atr: real)
      returns (r: Result<Option<Stop>, Error>)
      modifies this`lastCandidates, this`lastRejectionDetails
      ensures r == DeriveStop(p, dir, entry, st, atr)
      ensures lastCandidates == |Candidates(p, dir, entry, st, atr)|
      ensures r.Ok? ==> lastRejectionDetails == Rejections(p, entry, Candidates(p, dir, entry, st, atr), atr)
    {
      var cs;
      if dir == BUY {
        cs := BuyCandidates(entry, st, Buffer(p, atr), FallbackReach(p, atr));
      } else {
        cs := SellCandidates(entry, st, Buffer(p, atr), FallbackReach(p, atr));
      }
      lastCandidates := |cs|;
      lastRejectionDetails := [];
      if cs == [] {
        return Ok(None);
      }
      if p.pipSize <= 0.0 {
        return Err(PipSizeNotPositive);
      }
      var stop := TryInOrder(cs, entry, atr);
      r := Ok(stop);
    }

    method Construct(dir: Direction, bid: real, ask: real, st: Structure, atr: real)
      returns (r: Result<ConstructionResult, Error>)
      modifies this
      ensures r == ConstructionOf(p, dir, bid, ask, st, atr)
      ensures lastEntry == Entry(dir, bid, ask)
      ensures lastCandidates == |Candidates(p, dir, Entry(dir, bid, ask), st, atr)|
    {
      var entry := if dir == BUY then ask else bid;
      lastEntry := entry;
      var sl := DeriveSl(dir, entry, st, atr);
      if sl.Err? {
        return Err(sl.error);
      }
      if sl.value.None? {
        return Ok(Rejected(lastCandidates));
      }
      var stop := sl.value.value;
      r := Ok(Built(MakeSignal(p, dir, entry, atr, stop.candidate, stop.distance.priceDelta), lastCandidates));
    }
  }

  function RejectionOf(stop: Stop, verdict: Verdict): Rejection {
    Rejection(stop.candidate.source, Price5(stop.candidate.price), Round(stop.distance.points, 10.0), verdict)
  }

  /** The audit entries left behind: one for every candidate tried before the chosen one. */
  function Rejections(p: Params, entry: real, cs: seq<Candidate>, atr: real): seq<Rejection> {
    if cs == [] || p.pipSize <= 0.0 || VerdictOf(p, entry, cs[0], atr) == InBounds then []
    else
      [RejectionOf(StopAt(p, entry, cs[0], atr), VerdictOf(p, entry, cs[0], atr))]
      + Rejections(p, entry, cs[1..], atr)
  }
}
