/** The bar-by-bar simulator and its second pass (backtester/vbt_engine.py). */
module VbtEngine {
  import opened Construction
  import opened ConstructionProperties
  import opened Indicators
  import opened IndicatorProperties
  import opened Rounding
  import opened Wrappers

  datatype Filter =
    | VolatilityFilter | Ema200Filter | TickJumpGuard | LiqVacuumGuard | VwapGuard | MacdFilter
    | SwingStructure | BosGuard | FvgGuard

  /** What the direction rules are asked with.  ADX and %B are never available per bar. */
  datatype Inputs = Inputs(price: real, emaFast: real, emaSlow: real, prevEmaFast: real, prevEmaSlow: real,
                           rsi: real, prevRsi: real, macd: real, prevMacd: real,
                           bosHigh: Option<real>, bosLow: Option<real>)

  /** `decide` stands for the configured signal rules. */
  datatype Config = Config(p: Params, emaFast: nat, emaSlow: nat, rsiPeriod: nat, filters: set<Filter>,
                           decide: Inputs -> Option<Direction>)

  predicate ValidPeriods(c: Config) { c.emaFast >= 1 && c.emaSlow >= 1 && c.rsiPeriod >= 1 }

  /** The first bar that is traded. */
  function Lookback(c: Config): nat { (if c.emaSlow > 55 then c.emaSlow else 55) + 5 }

  // ---------------------------------------------------------------- one bar

  /** Everything the loop reads at one bar. */
  datatype View = View(inputs: Inputs, atr: real, ema200: real, open: real, high: real, low: real, twoBack: real,
                       bos: Bos, gaps: Gaps, swings: Swings, structure: Structure)

  function ViewAt(c: Config, b: Bars, i: nat): View
    requires b.SameLength() && ValidPeriods(c) && 60 <= i < |b.closes|
  {
    var xs, win, atr := b.closes, b.Slice(i - 59, i + 1), Atr(b, 14, i);
    var bos := DetectBos(win, atr);
    var inputs := Inputs(xs[i], Ema(xs, c.emaFast, i), Ema(xs, c.emaSlow, i), Ema(xs, c.emaFast, i - 1),
                         Ema(xs, c.emaSlow, i - 1), Rsi(xs, c.rsiPeriod, i), Rsi(xs, c.rsiPeriod, i - 1),
                         MacdHistogram(xs, i), MacdHistogram(xs, i - 1), bos.swingHigh, bos.swingLow);
    View(inputs, atr, Ema(xs, 200, i), b.opens[i], b.highs[i], b.lows[i], xs[i - 2],
         bos, GapsOf(win, atr), SwingsOf(win), StructureOf(win, atr))
  }

  datatype Trend = Bullish | Bearish | Ranging

  /** The market structure of the last two swings; unknown with fewer. */
  function TrendOf(s: Swings): Option<Trend> {
    if |s.highs| < 2 || |s.lows| < 2 then None
    else
      var h1, h0 := s.highs[|s.highs| - 1], s.highs[|s.highs| - 2];
      var l1, l0 := s.lows[|s.lows| - 1], s.lows[|s.lows| - 2];
      Some(if h1 > h0 && l1 > l0 then Bullish else if h1 < h0 && l1 < l0 then Bearish else Ranging)
  }

  /** Whether one safety filter rejects a direction. */
  predicate Rejects(f: Filter, v: View, dir: Direction) {
    var price := v.inputs.price;
    match f
    case VolatilityFilter => var pct := if price > 0.0 then v.atr / price * 100.0 else 0.0; pct > 2.5 || pct < 0.05
    case Ema200Filter => if dir == BUY then price < v.ema200 else price > v.ema200
    case TickJumpGuard => v.atr > 0.0 && Abs(price - v.twoBack) / v.atr > 0.8
    case LiqVacuumGuard =>
      var range := v.high - v.low;
      range > 0.0 && v.atr > 0.0 && range / v.atr > 2.5 && Abs(v.open - price) / range * 100.0 < 30.0
    case VwapGuard => v.atr > 0.0 && Abs(price - v.inputs.emaFast) / v.atr > 1.5
    case MacdFilter => if dir == BUY then v.inputs.macd < 0.0 else v.inputs.macd > 0.0
    case SwingStructure => var t := TrendOf(v.swings); t.Some? && t.value != (if dir == BUY then Bullish else Bearish)
    case BosGuard => if dir == BUY then !v.bos.bullish else !v.bos.bearish
    case FvgGuard => if dir == BUY then !v.gaps.hasBullish else !v.gaps.hasBearish
  }

  predicate Filtered(c: Config, v: View, dir: Direction) { exists f: Filter :: f in c.filters && Rejects(f, v, dir) }

  /** What one bar contributes to the flag arrays; `Failed` is the exception of a bad pip size. */
  datatype Mark = Quiet | Enter(dir: Direction, price: real, sl: real, tp: real) | Exit | Failed

  function Attempt(c: Config, v: View): Mark {
    match c.decide(v.inputs)
    case None => Quiet
    case Some(dir) =>
      if Filtered(c, v, dir) then Quiet
      else
        match ConstructionOf(c.p, dir, v.inputs.price, v.inputs.price, v.structure, v.atr)
        case Err(_) => Failed
        case Ok(Rejected(_)) => Quiet
        case Ok(Built(s, _)) => Enter(dir, v.inputs.price, s.stopLoss, s.tp1)
  }

  /** The stop is tested before the target. */
  predicate StopHit(m: Mark, high: real, low: real)
    requires m.Enter?
  {
    if m.dir == BUY then low <= m.sl else high >= m.sl
  }

  predicate TargetHit(m: Mark, high: real, low: real)
    requires m.Enter?
  {
    if m.dir == BUY then high >= m.tp else low <= m.tp
  }

  // ---------------------------------------------------------------- the run

  /** The trade that is open when bar `i` begins, as the mark that opened it. */
  function OpenAt(c: Config, b: Bars, i: nat): Option<Mark>
    requires b.SameLength() && ValidPeriods(c) && i <= |b.closes|
    decreases i, 0
  {
    if i <= Lookback(c) then None
    else
      var m := MarkAt(c, b, i - 1);
      if m.Enter? then Some(m) else if m.Quiet? then OpenAt(c, b, i - 1) else None
  }

  function MarkAt(c: Config, b: Bars, i: nat): Mark
    requires b.SameLength() && ValidPeriods(c) && i < |b.closes|
    decreases i, 1
  {
    if i < Lookback(c) then Quiet
    else
      match OpenAt(c, b, i)
      case None => Attempt(c, ViewAt(c, b, i))
      case Some(o) =>
        if o.Enter? && (StopHit(o, b.highs[i], b.lows[i]) || TargetHit(o, b.highs[i], b.lows[i])) then Exit else Quiet
  }

  lemma {:induction false} OpenIsEntry(c: Config, b: Bars, i: nat)
    requires b.SameLength() && ValidPeriods(c) && i <= |b.closes|
    ensures OpenAt(c, b, i).Some? ==> OpenAt(c, b, i).value.Enter?
  {
    if i > Lookback(c) {
      OpenIsEntry(c, b, i - 1);
    }
  }

  /** The flag and price arrays of the first pass. */
  datatype Flags = Flags(entries: seq<bool>, exits: seq<bool>, prices: seq<real>, sls: seq<real>, tps: seq<real>, dirs: seq<int>)

  /** Flags up to bar `n` say what the marks say. */
  ghost predicate Records(f: Flags, c: Config, b: Bars, n: nat)
    requires b.SameLength() && ValidPeriods(c) && n <= |b.closes|
  {
    && |f.entries| == |f.exits| == |f.prices| == |f.sls| == |f.tps| == |f.dirs| == |b.closes|
    && forall i :: 0 <= i < n ==> RecordsBar(f, MarkAt(c, b, i), i)
  }

  predicate RecordsBar(f: Flags, m: Mark, i: nat)
    requires i < |f.entries| && |f.entries| == |f.exits| == |f.prices| == |f.sls| == |f.tps| == |f.dirs|
  {
    Says(f.entries[i], f.exits[i], f.prices[i], f.sls[i], f.tps[i], f.dirs[i], m)
  }

  predicate Says(entry: bool, exit: bool, price: real, sl: real, tp: real, direction: int, m: Mark) {
    && entry == m.Enter? && exit == m.Exit?
    && (m.Enter? ==> price == m.price && sl == m.sl && tp == m.tp && direction == Sign(m.dir))
  }

  function Sign(dir: Direction): int { if dir == BUY then 1 else -1 }

  datatype Error = InsufficientData | BadPeriod | PipSizeNotPositive

  method Decide(c: Config, b: Bars, i: nat) returns (m: Mark)
    requires b.SameLength() && ValidPeriods(c) && 60 <= i < |b.closes|
    ensures m == Attempt(c, ViewAt(c, b, i))
  {
    var v := ViewAt(c, b, i);
    var direction := c.decide(v.inputs);
    if direction.None? {
      return Quiet;
    }
    if Filtered(c, v, direction.value) {
      return Quiet;
    }
    var tc := new TradeConstructor(c.p);
    var r := tc.Construct(direction.value, v.inputs.price, v.inputs.price, v.structure, v.atr);
    match r
    case Err(_) => return Failed;
    case Ok(Rejected(_)) => return Quiet;
    case Ok(Built(s, _)) => return Enter(direction.value, v.inputs.price, s.stopLoss, s.tp1);
  }

  /** The first pass, over arrays as the source keeps them. */
  method Simulate(c: Config, b: Bars) returns (r: Result<Flags, Error>)
    requires b.SameLength()
    ensures |b.closes| < 60 ==> r == Err(InsufficientData)
    ensures |b.closes| >= 60 && (c.emaFast == 0 || c.emaSlow == 0 || c.rsiPeriod == 0) ==> r == Err(BadPeriod)
    ensures |b.closes| >= 60 && ValidPeriods(c) ==>
      (r.Ok? <==> forall i :: 0 <= i < |b.closes| ==> MarkAt(c, b, i) != Failed)
      && (r.Err? ==> r.error == PipSizeNotPositive)
    ensures r.Ok? ==> ValidPeriods(c) && Records(r.value, c, b, |b.closes|) && EntriesTrade(r.value, c, b)
  {
    var n := |b.closes|;
    if n < 60 {
      return Err(InsufficientData);
    }
    if !ValidPeriods(c) {
      return Err(BadPeriod);
    }
    r := Replay(c, b);
    if r.Ok? {
      FlagsMeaning(r.value, c, b);
    }
  }

  method Replay(c: Config, b: Bars) returns (r: Result<Flags, Error>)
    requires b.SameLength() && ValidPeriods(c)
    ensures r.Ok? <==> forall i :: 0 <= i < |b.closes| ==> MarkAt(c, b, i) != Failed
    ensures r.Err? ==> r.error == PipSizeNotPositive
    ensures r.Ok? ==> Records(r.value, c, b, |b.closes|)
  {
    hide OpenAt, MarkAt, Attempt, ViewAt, Says, ConstructionOf;
    var n := |b.closes|;
    var book := new Book(n);
    var i := Lookback(c);
    NothingOpenYet(c, b);
    while i < n
      invariant book.Valid(n) && fresh(book) && fresh(book.Arrays())
      invariant Lookback(c) <= i && (i <= n || i == Lookback(c))
      invariant forall j :: 0 <= j < n && j < i ==> MarkAt(c, b, j) != Failed && book.Row(j, MarkAt(c, b, j))
      invariant forall j :: i <= j < n ==> book.Row(j, Quiet)
      invariant i <= n ==> Position(OpenAt(c, b, i), book.inTrade, book.tradeDirection, book.tradeSl, book.tradeTp)
    {
      BarStep(c, b, i);
      if book.inTrade {
        book.TryExit(n, i, b.highs[i], b.lows[i]);
      } else {
        var m := Decide(c, b, i);
        if m.Failed? {
          return Err(PipSizeNotPositive);
        }
        if m.Enter? {
          book.RecordEntry(n, i, m);
        }
      }
      i := i + 1;
    }
    return Ok(Flags(book.entries[..], book.exits[..], book.prices[..], book.sls[..], book.tps[..], book.dirs[..]));
  }

  /** The flag arrays and the loop variables of the first pass. */
  class Book {
    const entries: array<bool>
    const exits: array<bool>
    const prices: array<real>
    const sls: array<real>
    const tps: array<real>
    const dirs: array<int>
    var inTrade: bool
    var tradeDirection: int
    var tradeSl: real
    var tradeTp: real

    ghost function Arrays(): set<object> { {entries, exits, prices, sls, tps, dirs} }

    ghost predicate Valid(n: nat) {
      && entries.Length == exits.Length == prices.Length == sls.Length == tps.Length == dirs.Length == n
      && entries != exits && prices != sls && prices != tps && sls != tps
    }

    ghost predicate Row(i: nat, m: Mark)
      reads Arrays()
    {
      && i < entries.Length && i < exits.Length && i < prices.Length && i < sls.Length && i < tps.Length && i < dirs.Length
      && Says(entries[i], exits[i], prices[i], sls[i], tps[i], dirs[i], m)
    }

    constructor (n: nat)
      ensures Valid(n) && fresh(Arrays()) && !inTrade
      ensures forall j :: 0 <= j < n ==> Row(j, Quiet)
    {
      entries, exits := new bool[n](_ => false), new bool[n](_ => false);
      prices, sls, tps := new real[n](_ => 0.0), new real[n](_ => 0.0), new real[n](_ => 0.0);
      dirs := new int[n](_ => 0);
      inTrade, tradeDirection, tradeSl, tradeTp := false, 0, 0.0, 0.0;
    }

    /** Closes the open trade if the bar reaches its stop or its target. */
    method TryExit(n: nat, i: nat, high: real, low: real)
      requires Valid(n) && i < n && inTrade && Row(i, Quiet)
      modifies this, exits
      ensures forall j, m :: 0 <= j < n && j != i && old(Row(j, m)) ==> Row(j, m)
      ensures var hit := if old(tradeDirection) == 1 then low <= old(tradeSl) || high >= old(tradeTp)
                         else high >= old(tradeSl) || low <= old(tradeTp);
              && Row(i, if hit then Exit else Quiet) && inTrade == !hit
              && tradeDirection == old(tradeDirection) && tradeSl == old(tradeSl) && tradeTp == old(tradeTp)
    {
      if tradeDirection == 1 {
        if low <= tradeSl {
          exits[i], inTrade := true, false;
          return;
        }
        if high >= tradeTp {
          exits[i], inTrade := true, false;
          return;
        }
      } else {
        if high >= tradeSl {
          exits[i], inTrade := true, false;
          return;
        }
        if low <= tradeTp {
          exits[i], inTrade := true, false;
          return;
        }
      }
    }

    method RecordEntry(n: nat, i: nat, m: Mark)
      requires Valid(n) && i < n && m.Enter? && Row(i, Quiet)
      modifies this, entries, prices, sls, tps, dirs
      ensures Row(i, m) && Position(Some(m), inTrade, tradeDirection, tradeSl, tradeTp)
      ensures forall j, k :: 0 <= j < n && j != i && old(Row(j, k)) ==> Row(j, k)
    {
      entries[i], prices[i], sls[i], tps[i], dirs[i] := true, m.price, m.sl, m.tp, Sign(m.dir);
      inTrade, tradeDirection, tradeSl, tradeTp := true, Sign(m.dir), m.sl, m.tp;
    }
  }

  /** The loop variables describe the open trade. */
  predicate Position(o: Option<Mark>, inTrade: bool, direction: int, sl: real, tp: real) {
    && inTrade == o.Some?
    && (o.Some? ==> o.value.Enter? && direction == Sign(o.value.dir) && sl == o.value.sl && tp == o.value.tp)
  }

  lemma NothingOpenYet(c: Config, b: Bars)
    requires b.SameLength() && ValidPeriods(c)
    ensures Lookback(c) <= |b.closes| ==> OpenAt(c, b, Lookback(c)) == None
    ensures forall j :: 0 <= j < |b.closes| && j < Lookback(c) ==> MarkAt(c, b, j) == Quiet
  {
  }

  /** What bar `i` does, given what is open. */
  lemma BarStep(c: Config, b: Bars, i: nat)
    requires b.SameLength() && ValidPeriods(c) && Lookback(c) <= i < |b.closes|
    ensures var o, m := OpenAt(c, b, i), MarkAt(c, b, i);
            && OpenAt(c, b, i + 1) == (if m.Enter? then Some(m) else if m.Quiet? then o else None)
            && (o.None? ==> m == Attempt(c, ViewAt(c, b, i)) && !m.Exit?)
            && (o.Some? ==> o.value.Enter? && m == if StopHit(o.value, b.highs[i], b.lows[i]) || TargetHit(o.value, b.highs[i], b.lows[i])
                                                   then Exit else Quiet)
  {
    OpenIsEntry(c, b, i);
    hide ViewAt;
  }

  // ---------------------------------------------------------------- what an entry and an exit are

  /** The trade a signal of direction `dir` leads to at bar `i`: constructed from the last 60 bars
      and entered at the close, with the constructed stop and the first target. */
  predicate TradeAt(c: Config, b: Bars, i: nat, dir: Direction, price: real, sl: real, tp: real)
    requires b.SameLength() && 60 <= i < |b.closes|
  {
    var atr := Atr(b, 14, i);
    var r := ConstructionOf(c.p, dir, b.closes[i], b.closes[i], StructureOf(b.Slice(i - 59, i + 1), atr), atr);
    r.Ok? && r.value.Built? && price == b.closes[i] && sl == r.value.signal.stopLoss && tp == r.value.signal.tp1
  }

  /** What the direction rules see at bar `i`: its close and the indicators there and one bar back. */
  function InputsAt(c: Config, b: Bars, i: nat): Inputs
    requires b.SameLength() && ValidPeriods(c) && 60 <= i < |b.closes|
  {
    var xs, bos := b.closes, DetectBos(b.Slice(i - 59, i + 1), Atr(b, 14, i));
    Inputs(
      price := xs[i], bosHigh := bos.swingHigh, bosLow := bos.swingLow,
      emaFast := Ema(xs, c.emaFast, i), prevEmaFast := Ema(xs, c.emaFast, i - 1),
      emaSlow := Ema(xs, c.emaSlow, i), prevEmaSlow := Ema(xs, c.emaSlow, i - 1),
      rsi := Rsi(xs, c.rsiPeriod, i), prevRsi := Rsi(xs, c.rsiPeriod, i - 1),
      macd := MacdHistogram(xs, i), prevMacd := MacdHistogram(xs, i - 1))
  }

  lemma RatioAbove(x: real, y: real, k: real)
    requires y > 0.0
    ensures x / y > k <==> x > k * y
    ensures x / y < k <==> x < k * y
  {
    assert x / y * y == x;
    if x / y > k { assert (x / y - k) * y > 0.0; }
    if x / y < k { assert (k - x / y) * y > 0.0; }
  }

  lemma VolatilityMeaning(v: View, dir: Direction)
    ensures Rejects(VolatilityFilter, v, dir) <==>
      v.inputs.price <= 0.0 || v.atr > 0.025 * v.inputs.price || v.atr < 0.0005 * v.inputs.price
  {
    if v.inputs.price > 0.0 {
      RatioAbove(v.atr, v.inputs.price, 0.025);
      RatioAbove(v.atr, v.inputs.price, 0.0005);
    }
  }

  lemma GuardMeaning(v: View, dir: Direction)
    ensures Rejects(TickJumpGuard, v, dir) <==> v.atr > 0.0 && Abs(v.inputs.price - v.twoBack) > 0.8 * v.atr
    ensures Rejects(VwapGuard, v, dir) <==> v.atr > 0.0 && Abs(v.inputs.price - v.inputs.emaFast) > 1.5 * v.atr
  {
    hide Abs;
    if v.atr > 0.0 {
      RatioAbove(Abs(v.inputs.price - v.twoBack), v.atr, 0.8);
      RatioAbove(Abs(v.inputs.price - v.inputs.emaFast), v.atr, 1.5);
    }
  }

  lemma VacuumMeaning(v: View, dir: Direction)
    ensures Rejects(LiqVacuumGuard, v, dir) <==>
      && v.atr > 0.0 && v.high - v.low > 0.0 && v.high - v.low > 2.5 * v.atr
      && Abs(v.open - v.inputs.price) < 0.3 * (v.high - v.low)
  {
    hide Abs;
    if v.atr > 0.0 {
      RatioAbove(v.high - v.low, v.atr, 2.5);
    }
    if v.high - v.low > 0.0 {
      RatioAbove(Abs(v.open - v.inputs.price), v.high - v.low, 0.3);
    }
  }

  /** What each safety filter objects to, without the source's divisions. */
  lemma FilterMeaning(c: Config, b: Bars, i: nat, dir: Direction)
    requires b.SameLength() && ValidPeriods(c) && 60 <= i < |b.closes|
    ensures var v, price, atr := ViewAt(c, b, i), b.closes[i], Atr(b, 14, i);
            var win, range := b.Slice(i - 59, i + 1), b.highs[i] - b.lows[i];
            var highs, lows := SwingsOf(win).highs, SwingsOf(win).lows;
            && (Rejects(VolatilityFilter, v, dir) <==> price <= 0.0 || atr > 0.025 * price || atr < 0.0005 * price)
            && (Rejects(Ema200Filter, v, dir) <==>
                  if dir == BUY then price < Ema(b.closes, 200, i) else price > Ema(b.closes, 200, i))
            && (Rejects(TickJumpGuard, v, dir) <==> atr > 0.0 && Abs(price - b.closes[i - 2]) > 0.8 * atr)
            && (Rejects(LiqVacuumGuard, v, dir) <==>
                  range > 0.0 && atr > 0.0 && range > 2.5 * atr && Abs(b.opens[i] - price) < 0.3 * range)
            && (Rejects(VwapGuard, v, dir) <==> atr > 0.0 && Abs(price - Ema(b.closes, c.emaFast, i)) > 1.5 * atr)
            && (Rejects(MacdFilter, v, dir) <==> if dir == BUY then MacdHistogram(b.closes, i) < 0.0 else MacdHistogram(b.closes, i) > 0.0)
            && (Rejects(SwingStructure, v, dir) <==> AgainstSwings(highs, lows, dir))
            && (Rejects(BosGuard, v, dir) <==> if dir == BUY then !DetectBos(win, atr).bullish else !DetectBos(win, atr).bearish)
            && (Rejects(FvgGuard, v, dir) <==> if dir == BUY then GapsOf(win, atr).bullish == [] else GapsOf(win, atr).bearish == [])
  {
    hide StructureOf, DetectBos, SwingsOf, Atr, Ewm, MacdHistogram, Rsi, Abs;
    var v := ViewAt(c, b, i);
    VolatilityMeaning(v, dir);
    GuardMeaning(v, dir);
    VacuumMeaning(v, dir);
    StructureFilters(c, b, i, dir);
    hide Rejects;
  }

  lemma StructureFilters(c: Config, b: Bars, i: nat, dir: Direction)
    requires b.SameLength() && ValidPeriods(c) && 60 <= i < |b.closes|
    ensures var v, win, atr := ViewAt(c, b, i), b.Slice(i - 59, i + 1), Atr(b, 14, i);
            var highs, lows := SwingsOf(win).highs, SwingsOf(win).lows;
            && (Rejects(Ema200Filter, v, dir) <==>
                  if dir == BUY then b.closes[i] < Ema(b.closes, 200, i) else b.closes[i] > Ema(b.closes, 200, i))
            && (Rejects(MacdFilter, v, dir) <==> if dir == BUY then MacdHistogram(b.closes, i) < 0.0 else MacdHistogram(b.closes, i) > 0.0)
            && (Rejects(SwingStructure, v, dir) <==> AgainstSwings(highs, lows, dir))
            && (Rejects(BosGuard, v, dir) <==> if dir == BUY then !DetectBos(win, atr).bullish else !DetectBos(win, atr).bearish)
            && (Rejects(FvgGuard, v, dir) <==> if dir == BUY then GapsOf(win, atr).bullish == [] else GapsOf(win, atr).bearish == [])
  {
    hide StructureOf, DetectBos, SwingsOf, Atr, Ewm, MacdHistogram, Rsi, Abs, GapsOf;
    var v, win, atr := ViewAt(c, b, i), b.Slice(i - 59, i + 1), Atr(b, 14, i);
    assert v.swings == SwingsOf(win) && v.gaps == GapsOf(win, atr) && v.bos == DetectBos(win, atr);
    GapFlags(win, atr);
    SwingsAgainst(v, dir);
    hide ViewAt;
  }

  /** Two swings a side that do not both rise, for a BUY, or fall, for a SELL. */
  predicate AgainstSwings(highs: seq<real>, lows: seq<real>, dir: Direction) {
    && |highs| >= 2 && |lows| >= 2
    && !if dir == BUY then highs[|highs| - 2] < highs[|highs| - 1] && lows[|lows| - 2] < lows[|lows| - 1]
        else highs[|highs| - 2] > highs[|highs| - 1] && lows[|lows| - 2] > lows[|lows| - 1]
  }

  lemma SwingsAgainst(v: View, dir: Direction)
    ensures Rejects(SwingStructure, v, dir) <==> AgainstSwings(v.swings.highs, v.swings.lows, dir)
  {
  }

  lemma GapFlags(win: Bars, atr: real)
    requires win.SameLength()
    ensures GapsOf(win, atr).hasBullish == (GapsOf(win, atr).bullish != [])
    ensures GapsOf(win, atr).hasBearish == (GapsOf(win, atr).bearish != [])
  {
    hide BullGaps, BearGaps;
  }

  /** What an entry records, and that the rules asked for it and no filter objected. */
  lemma EntryMeaning(c: Config, b: Bars, i: nat)
    requires b.SameLength() && ValidPeriods(c) && i < |b.closes| && MarkAt(c, b, i).Enter?
    ensures var m := MarkAt(c, b, i);
            && i >= 60 && i >= c.emaSlow + 5 && OpenAt(c, b, i).None?
            && c.decide(InputsAt(c, b, i)) == Some(m.dir)
            && (forall f :: f in c.filters ==> !Rejects(f, ViewAt(c, b, i), m.dir))
            && TradeAt(c, b, i, m.dir, m.price, m.sl, m.tp)
  {
    hide Attempt, TradeAt, InputsAt, ViewAt, Rejects;
    if i >= Lookback(c) {
      BarStep(c, b, i);
      AttemptEnters(c, b, i);
    }
  }

  /** Every other bar without an open trade: the rules are silent, a filter objects, or the trade
      cannot be constructed, which alone may raise. */
  lemma NoEntryMeaning(c: Config, b: Bars, i: nat)
    requires b.SameLength() && ValidPeriods(c) && 60 <= i < |b.closes| && i >= c.emaSlow + 5
    requires OpenAt(c, b, i).None? && !MarkAt(c, b, i).Enter? && c.decide(InputsAt(c, b, i)).Some?
    ensures var dir, atr := c.decide(InputsAt(c, b, i)).value, Atr(b, 14, i);
            || (MarkAt(c, b, i).Quiet? && exists f :: f in c.filters && Rejects(f, ViewAt(c, b, i), dir))
            || var r := ConstructionOf(c.p, dir, b.closes[i], b.closes[i], StructureOf(b.Slice(i - 59, i + 1), atr), atr);
               (MarkAt(c, b, i).Failed? && r.Err?) || (MarkAt(c, b, i).Quiet? && r.Ok? && r.value.Rejected?)
  {
    hide OpenAt, Atr, StructureOf, ConstructionOf, ViewAt, InputsAt, Rejects;
    BarStep(c, b, i);
    ViewIs(c, b, i);
    hide MarkAt;
  }

  lemma AttemptEnters(c: Config, b: Bars, i: nat)
    requires b.SameLength() && ValidPeriods(c) && 60 <= i < |b.closes| && Attempt(c, ViewAt(c, b, i)).Enter?
    ensures var m := Attempt(c, ViewAt(c, b, i));
            && c.decide(InputsAt(c, b, i)) == Some(m.dir)
            && (forall f :: f in c.filters ==> !Rejects(f, ViewAt(c, b, i), m.dir))
            && TradeAt(c, b, i, m.dir, m.price, m.sl, m.tp)
  {
    ViewIs(c, b, i);
    hide ConstructionOf, StructureOf, Atr, ViewAt, InputsAt, Rejects;
  }

  lemma ViewIs(c: Config, b: Bars, i: nat)
    requires b.SameLength() && ValidPeriods(c) && 60 <= i < |b.closes|
    ensures var v := ViewAt(c, b, i);
            && v.inputs == InputsAt(c, b, i) && v.inputs.price == b.closes[i] && v.atr == Atr(b, 14, i)
            && v.structure == StructureOf(b.Slice(i - 59, i + 1), Atr(b, 14, i))
  {
    hide StructureOf, Atr, Ewm, Rsi, MacdHistogram, DetectBos, GapsOf, SwingsOf;
  }

  /** A bar is an exit exactly if it reaches the stop or the target of the open trade. */
  lemma ExitMeaning(c: Config, b: Bars, i: nat)
    requires b.SameLength() && ValidPeriods(c) && i < |b.closes|
    ensures MarkAt(c, b, i).Exit? <==>
      i >= 60 && i >= c.emaSlow + 5 && OpenAt(c, b, i).Some? && OpenAt(c, b, i).value.Enter?
      && var o := OpenAt(c, b, i).value;
         if o.dir == BUY then b.lows[i] <= o.sl || b.highs[i] >= o.tp else b.highs[i] >= o.sl || b.lows[i] <= o.tp
  {
    hide ViewAt, Filtered, ConstructionOf;
  }

  /** With settings a caller can check beforehand every entry has its stop on the loss side of the
      close and its target on the profit side. */
  lemma EntryIsOrdered(c: Config, b: Bars, i: nat)
    requires b.SameLength() && ValidPeriods(c) && i < |b.closes| && MarkAt(c, b, i).Enter?
    requires SafeSettings(c.p, Atr(b, 14, i))
    ensures var m := MarkAt(c, b, i); LossSide(m.dir, m.sl, m.price) && LossSide(m.dir, m.price, m.tp)
  {
    hide ConstructionOf, SafeSettings, ViewAt;
    EntryMeaning(c, b, i);
    TradeIsOrdered(c, b, i, MarkAt(c, b, i));
  }

  lemma TradeIsOrdered(c: Config, b: Bars, i: nat, m: Mark)
    requires b.SameLength() && 60 <= i < |b.closes| && m.Enter? && TradeAt(c, b, i, m.dir, m.price, m.sl, m.tp)
    requires SafeSettings(c.p, Atr(b, 14, i))
    ensures LossSide(m.dir, m.sl, m.price) && LossSide(m.dir, m.price, m.tp)
  {
    hide ConstructionOf, StructureOf, Atr, SafeSettings, LossSide;
    var atr, price := Atr(b, 14, i), b.closes[i];
    var st := StructureOf(b.Slice(i - 59, i + 1), atr);
    assert var r := ConstructionOf(c.p, m.dir, price, price, st, atr);
           r.Ok? && r.value.Built? && m.price == price && m.sl == r.value.signal.stopLoss && m.tp == r.value.signal.tp1;
    hide TradeAt;
    AcceptedTradeIsOrdered(c.p, m.dir, price, price, st, atr);
  }

  /** Every entry flag stands with the price, stop, target and direction of its trade. */
  ghost predicate EntriesTrade(f: Flags, c: Config, b: Bars)
    requires b.SameLength() && ValidPeriods(c)
    requires |f.entries| == |f.prices| == |f.sls| == |f.tps| == |f.dirs| == |b.closes|
  {
    forall i :: 0 <= i < |b.closes| && f.entries[i] ==>
      && i >= 60 && i >= c.emaSlow + 5 && (f.dirs[i] == 1 || f.dirs[i] == -1)
      && TradeAt(c, b, i, if f.dirs[i] == 1 then BUY else SELL, f.prices[i], f.sls[i], f.tps[i])
  }

  lemma FlagsMeaning(f: Flags, c: Config, b: Bars)
    requires b.SameLength() && ValidPeriods(c) && Records(f, c, b, |b.closes|)
    ensures EntriesTrade(f, c, b)
  {
    hide TradeAt, MarkAt, OpenAt;
    forall i | 0 <= i < |b.closes| && f.entries[i]
      ensures i >= 60 && i >= c.emaSlow + 5 && (f.dirs[i] == 1 || f.dirs[i] == -1)
      ensures TradeAt(c, b, i, if f.dirs[i] == 1 then BUY else SELL, f.prices[i], f.sls[i], f.tps[i])
    {
      assert RecordsBar(f, MarkAt(c, b, i), i);
      EntryMeaning(c, b, i);
    }
  }

  // ---------------------------------------------------------------- no look-ahead

  lemma InputsCausal(c: Config, a: Bars, b: Bars, i: nat)
    requires ValidPeriods(c) && SameUpTo(a, b, i) && i >= 60
    ensures var xs, ys := a.closes, b.closes;
            && Ema(xs, c.emaFast, i) == Ema(ys, c.emaFast, i) && Ema(xs, c.emaFast, i - 1) == Ema(ys, c.emaFast, i - 1)
            && Ema(xs, c.emaSlow, i) == Ema(ys, c.emaSlow, i) && Ema(xs, c.emaSlow, i - 1) == Ema(ys, c.emaSlow, i - 1)
            && Ema(xs, 200, i) == Ema(ys, 200, i)
            && Rsi(xs, c.rsiPeriod, i) == Rsi(ys, c.rsiPeriod, i) && Rsi(xs, c.rsiPeriod, i - 1) == Rsi(ys, c.rsiPeriod, i - 1)
            && MacdHistogram(xs, i) == MacdHistogram(ys, i) && MacdHistogram(xs, i - 1) == MacdHistogram(ys, i - 1)
  {
    hide Ewm, Rsi, MacdHistogram;
    var xs, ys := a.closes, b.closes;
    EwmCausal(xs, ys, 2.0 / (c.emaFast as real + 1.0), i);
    EwmCausal(xs, ys, 2.0 / (c.emaFast as real + 1.0), i - 1);
    EwmCausal(xs, ys, 2.0 / (c.emaSlow as real + 1.0), i);
    EwmCausal(xs, ys, 2.0 / (c.emaSlow as real + 1.0), i - 1);
    EwmCausal(xs, ys, 2.0 / (200 as real + 1.0), i);
    RsiCausal(xs, ys, c.rsiPeriod, i);
    RsiCausal(xs, ys, c.rsiPeriod, i - 1);
    MacdCausal(xs, ys, i);
    MacdCausal(xs, ys, i - 1);
  }

  lemma ViewCausal(c: Config, a: Bars, b: Bars, i: nat)
    requires ValidPeriods(c) && SameUpTo(a, b, i) && i >= 60
    ensures ViewAt(c, a, i) == ViewAt(c, b, i)
  {
    hide Ema, Rsi, MacdHistogram, Atr, DetectBos, GapsOf, SwingsOf, StructureOf;
    InputsCausal(c, a, b, i);
    AtrCausal(a, b, 14, i);
    SliceCausal(a, b, i - 59, i);
  }

  /** Two histories that agree up to bar `k` give the same entries with the same prices, and the
      same exits, up to bar `k`: nothing the simulator does looks ahead. */
  lemma {:induction false} NoLookAhead(c: Config, a: Bars, b: Bars, k: nat, i: nat)
    requires ValidPeriods(c) && SameUpTo(a, b, k) && i <= k
    ensures OpenAt(c, a, i) == OpenAt(c, b, i)
    ensures MarkAt(c, a, i) == MarkAt(c, b, i)
  {
    hide ViewAt, Attempt;
    if i > Lookback(c) {
      NoLookAhead(c, a, b, k, i - 1);
    }
    if i >= Lookback(c) {
      ViewCausal(c, a, b, i);
    }
  }
}
