/** The staged filter funnel of the replay script (scripts/replay_sim.py). */
module ReplayFunnel {
  import opened Rounding
  import opened Wrappers

  const WARMUP := 60
  const STAGES := 10

  datatype Filter =
    | SessionFilter | VolatilityFilter | Ema200Filter | BosGuard | FvgGuard | TickJumpGuard | LiqVacuumGuard
    | VwapGuard | MacdFilter | BollingerFilter | AdxFilter | SwingStructure

  /** `spreadMin` is present exactly with the AI gate. */
  datatype Mode = Mode(filters: set<Filter>, spreadMin: Option<real>)

  datatype Trend = Bullish | Bearish | Neither

  /** What the chain reads at one bar; a missing value is a NaN or a failed lookup. */
  datatype Bar = Bar(i: nat, hasNext: bool, emaFast: Option<real>, emaSlow: Option<real>, price: real, atr: real,
                     session: Option<real>, bull: bool, bear: bool, ema200: Option<real>, bos: Trend,
                     fvgBuy: bool, fvgSell: bool, move: real, range: real, body: real,
                     macd: Option<real>, pctB: Option<real>, adx: Option<real>, swing: Trend, rsi: Option<real>)

  datatype Reason =
    | InsufficientBars | EmaNan | NoNextBar | LowSession | AtrHigh | AtrLow | NoDirection | BelowEma200 | AboveEma200
    | BosNotBullish | BosNotBearish | NoFvg | TickJump | LiqVacuum | VwapDistance
    | MacdBearish | MacdBullish | Overbought | Oversold | AdxWeak | SwingNotBullish | SwingNotBearish
    | ZeroStop | AiWeakTrend | AiRsi

  /** The order in which the checks are made. */
  function Order(): seq<Reason> {
    [InsufficientBars, EmaNan, NoNextBar, LowSession, AtrHigh, AtrLow, NoDirection, BelowEma200, AboveEma200,
     BosNotBullish, BosNotBearish, NoFvg, TickJump, LiqVacuum, VwapDistance,
     MacdBearish, MacdBullish, Overbought, Oversold, AdxWeak, SwingNotBullish, SwingNotBearish,
     ZeroStop, AiWeakTrend, AiRsi]
  }

  /** The position of a check in that order. */
  function Rank(r: Reason): nat {
    match r
    case InsufficientBars => 0
    case EmaNan => 1
    case NoNextBar => 2
    case LowSession => 3
    case AtrHigh => 4
    case AtrLow => 5
    case NoDirection => 6
    case BelowEma200 => 7
    case AboveEma200 => 8
    case BosNotBullish => 9
    case BosNotBearish => 10
    case NoFvg => 11
    case TickJump => 12
    case LiqVacuum => 13
    case VwapDistance => 14
    case MacdBearish => 15
    case MacdBullish => 16
    case Overbought => 17
    case Oversold => 18
    case AdxWeak => 19
    case SwingNotBullish => 20
    case SwingNotBearish => 21
    case ZeroStop => 22
    case AiWeakTrend => 23
    case AiRsi => 24
  }

  function StageOf(r: Reason): nat {
    match r
    case InsufficientBars | EmaNan | NoNextBar => 1
    case LowSession => 2
    case AtrHigh | AtrLow => 3
    case NoDirection => 4
    case BelowEma200 | AboveEma200 => 5
    case BosNotBullish | BosNotBearish | NoFvg | TickJump | LiqVacuum | VwapDistance => 6
    case MacdBearish | MacdBullish | Overbought | Oversold | AdxWeak | SwingNotBullish | SwingNotBearish => 7
    case ZeroStop => 8
    case AiWeakTrend | AiRsi => 9
  }

  function OrZero(x: Option<real>): real { if x.Some? then x.value else 0.0 }

  /** Whether one check objects to a bar, on its own. */
  predicate Fires(r: Reason, m: Mode, b: Bar) {
    var buy := b.bull;
    match r
    case InsufficientBars => b.i < WARMUP
    case EmaNan => b.emaFast.None? || b.emaSlow.None?
    case NoNextBar => !b.hasNext
    case LowSession => SessionFilter in m.filters && b.session.Some? && b.session.value < 0.5
    case AtrHigh => VolatilityFilter in m.filters && b.price > 0.0 && b.atr / b.price * 100.0 > 2.5
    case AtrLow => VolatilityFilter in m.filters && b.price > 0.0 && b.atr / b.price * 100.0 < 0.05
    case NoDirection => !b.bull && !b.bear
    case BelowEma200 => Ema200Filter in m.filters && b.ema200.Some? && buy && b.price < b.ema200.value
    case AboveEma200 => Ema200Filter in m.filters && b.ema200.Some? && !buy && b.price > b.ema200.value
    case BosNotBullish => BosGuard in m.filters && buy && b.bos != Bullish
    case BosNotBearish => BosGuard in m.filters && !buy && b.bos != Bearish
    case NoFvg => FvgGuard in m.filters && !(if buy then b.fvgBuy else b.fvgSell)
    case TickJump => TickJumpGuard in m.filters && b.i >= 2 && b.atr > 0.0 && b.move / b.atr > 0.8
    case LiqVacuum => LiqVacuumGuard in m.filters && b.range > 0.0 && b.atr > 0.0 && b.range / b.atr > 2.5
                      && b.body / b.range * 100.0 < 30.0
    case VwapDistance => VwapGuard in m.filters && b.atr > 0.0 && Abs(b.price - OrZero(b.emaFast)) / b.atr > 1.5
    case MacdBearish => MacdFilter in m.filters && b.i >= 35 && b.macd.Some? && buy && b.macd.value < 0.0
    case MacdBullish => MacdFilter in m.filters && b.i >= 35 && b.macd.Some? && !buy && b.macd.value > 0.0
    case Overbought => BollingerFilter in m.filters && b.i >= 20 && b.pctB.Some? && buy && b.pctB.value > 0.7
    case Oversold => BollingerFilter in m.filters && b.i >= 20 && b.pctB.Some? && !buy && b.pctB.value < 0.3
    case AdxWeak => AdxFilter in m.filters && b.adx.Some? && b.adx.value < 20.0
    case SwingNotBullish => SwingStructure in m.filters && b.i >= 20 && buy && b.swing != Bullish
    case SwingNotBearish => SwingStructure in m.filters && b.i >= 20 && !buy && b.swing != Bearish
    case ZeroStop => 1.5 * b.atr <= 0.0 || b.price <= 0.0
    case AiWeakTrend => m.spreadMin.Some? && Spread(b) < m.spreadMin.value
    case AiRsi => m.spreadMin.Some? && b.rsi.Some? && (b.rsi.value > 75.0 || b.rsi.value < 25.0)
  }

  function Spread(b: Bar): real {
    if b.price > 0.0 then Abs(OrZero(b.emaFast) - OrZero(b.emaSlow)) / b.price else 0.0
  }

  /** The first check, from position `k` on, that objects. */
  function FirstFrom(m: Mode, b: Bar, k: nat): Option<Reason>
    requires k <= |Order()|
    decreases |Order()| - k
  {
    if k == |Order()| then None
    else if Fires(Order()[k], m, b) then Some(Order()[k]) else FirstFrom(m, b, k + 1)
  }

  function Blocker(m: Mode, b: Bar): Option<Reason> { FirstFrom(m, b, 0) }

  predicate Executes(m: Mode, b: Bar) { Blocker(m, b).None? }

  // ---------------------------------------------------------------- the counters

  /** `reasons` counts each reason. */
  datatype StageStats = StageStats(candidatesIn: nat, blocked: nat, reasons: multiset<Reason>)

  /** Whether a bar blocked by `r` was a candidate of stage `s`. */
  predicate Reached(m: Mode, r: Option<Reason>, s: nat) {
    (r.None? || s <= StageOf(r.value)) && (s == 9 ==> m.spreadMin.Some?)
  }

  function CountIn(st: StageStats, m: Mode, r: Option<Reason>, s: nat): StageStats {
    var seen := if Reached(m, r, s) then st.(candidatesIn := st.candidatesIn + 1) else st;
    if r.Some? && StageOf(r.value) == s then seen.(blocked := seen.blocked + 1, reasons := seen.reasons + multiset{r.value}) else seen
  }

  /** `stats[s - 1]` belongs to stage `s`. */
  function Visit(stats: seq<StageStats>, m: Mode, r: Option<Reason>): seq<StageStats> {
    seq(|stats|, k requires 0 <= k < |stats| => CountIn(stats[k], m, r, k + 1))
  }

  function Fresh(): seq<StageStats> { seq(STAGES, _ => StageStats(0, 0, multiset{})) }

  function After(m: Mode, bars: seq<Bar>): seq<StageStats> {
    if bars == [] then Fresh() else Visit(After(m, bars[..|bars| - 1]), m, Blocker(m, bars[|bars| - 1]))
  }

  class Funnel {
    var stats: seq<StageStats>

    constructor ()
      ensures stats == Fresh()
    {
      stats := seq(STAGES, _ => StageStats(0, 0, multiset{}));
    }

    method Candidate(s: nat)
      requires 1 <= s <= |stats|
      modifies this
      ensures stats == old(stats)[s - 1 := old(stats)[s - 1].(candidatesIn := old(stats)[s - 1].candidatesIn + 1)]
    {
      stats := stats[s - 1 := stats[s - 1].(candidatesIn := stats[s - 1].candidatesIn + 1)];
    }

    method Block(s: nat, r: Reason)
      requires 1 <= s <= |stats|
      modifies this
      ensures var st := old(stats)[s - 1];
              stats == old(stats)[s - 1 := st.(blocked := st.blocked + 1, reasons := st.reasons + multiset{r})]
    {
      var st := stats[s - 1];
      stats := stats[s - 1 := st.(blocked := st.blocked + 1, reasons := st.reasons + multiset{r})];
    }

    /** Runs one bar through the chain; the result is the stage that blocked it, or 10. */
    method ReplayBar(m: Mode, b: Bar) returns (stage: nat)
      requires |stats| == STAGES
      modifies this
      ensures stats == Visit(old(stats), m, Blocker(m, b))
      ensures stage == if Executes(m, b) then STAGES else StageOf(Blocker(m, b).value)
    {
      hide Blocker, Fires, Visit, Entered, Cleared, Order, Checked;
      ghost var was := stats;
      NothingEntered(was, m, b);
      var r := Warmup(m, b);
      Record(1, r, m, b, was);
      if r.Some? { return 1; }
      r := SessionGate(m, b);
      Record(2, r, m, b, was);
      if r.Some? { return 2; }
      r := Volatility(m, b);
      Record(3, r, m, b, was);
      if r.Some? { return 3; }
      r := SignalEngine(m, b);
      Record(4, r, m, b, was);
      if r.Some? { return 4; }
      r := TrendFilter(m, b);
      Record(5, r, m, b, was);
      if r.Some? { return 5; }
      r := StructuralGuards(m, b);
      Record(6, r, m, b, was);
      if r.Some? { return 6; }
      r := SecondaryFilters(m, b);
      Record(7, r, m, b, was);
      if r.Some? { return 7; }
      r := TradeConstruction(m, b);
      Record(8, r, m, b, was);
      if r.Some? { return 8; }
      if m.spreadMin.Some? {
        r := AiValidator(m, b);
        Record(9, r, m, b, was);
        if r.Some? { return 9; }
      } else {
        AiOff(was, m, b);
      }
      AllDone(was, m, b);
      Candidate(10);
      return 10;
    }

    /** Stage `s` counts its candidate and, if one of its checks objected, the block. */
    method Record(s: nat, r: Option<Reason>, m: Mode, b: Bar, ghost was: seq<StageStats>)
      requires 1 <= s <= 9 && |was| == STAGES && stats == Entered(was, m, s)
      requires Cleared(m, b, s) && Checked(m, b, s, r) && (s == 9 ==> m.spreadMin.Some?)
      modifies this
      ensures r.None? ==> stats == Entered(was, m, s + 1) && Cleared(m, b, s + 1)
      ensures r.Some? ==> StageOf(r.value) == s && Blocker(m, b) == r && stats == Visit(was, m, r)
    {
      hide Blocker, Fires, Visit, Entered, Cleared, Checked;
      StageDone(was, m, b, s, r);
      Candidate(s);
      if r.Some? {
        Block(s, r.value);
      }
    }
  }

  /** Runs every bar of a mode through one funnel. */
  method ReplayMode(m: Mode, bars: seq<Bar>) returns (stats: seq<StageStats>)
    ensures stats == After(m, bars)
  {
    var funnel := new Funnel();
    hide Visit, Blocker;
    for i := 0 to |bars|
      invariant funnel.stats == After(m, bars[..i]) && |funnel.stats| == STAGES && fresh(funnel)
    {
      assert bars[..i + 1][..i] == bars[..i];
      TenStages(m, bars[..i + 1]);
      var _ := funnel.ReplayBar(m, bars[i]);
    }
    assert bars[..|bars|] == bars;
    return funnel.stats;
  }

  // ---------------------------------------------------------------- the checks of each stage

  /** `r` is the first check of stage `s` that objects, if any does. */
  ghost predicate Checked(m: Mode, b: Bar, s: nat, r: Option<Reason>) {
    match r
    case None => forall c: Reason :: StageOf(c) == s ==> !Fires(c, m, b)
    case Some(f) => StageOf(f) == s && Fires(f, m, b)
                    && forall c: Reason :: StageOf(c) == s && Rank(c) < Rank(f) ==> !Fires(c, m, b)
  }

  method Warmup(m: Mode, b: Bar) returns (r: Option<Reason>)
    ensures Checked(m, b, 1, r)
  {
    if b.i < WARMUP { return Some(InsufficientBars); }
    if b.emaFast.None? || b.emaSlow.None? { return Some(EmaNan); }
    if !b.hasNext { return Some(NoNextBar); }
    return None;
  }

  method SessionGate(m: Mode, b: Bar) returns (r: Option<Reason>)
    ensures Checked(m, b, 2, r)
  {
    if SessionFilter in m.filters {
      if b.session.Some? && b.session.value < 0.5 { return Some(LowSession); }
    }
    return None;
  }

  method Volatility(m: Mode, b: Bar) returns (r: Option<Reason>)
    ensures Checked(m, b, 3, r)
  {
    if VolatilityFilter in m.filters && b.price > 0.0 {
      var pct := b.atr / b.price * 100.0;
      if pct > 2.5 { return Some(AtrHigh); }
      if pct < 0.05 { return Some(AtrLow); }
    }
    return None;
  }

  method SignalEngine(m: Mode, b: Bar) returns (r: Option<Reason>)
    ensures Checked(m, b, 4, r)
  {
    if !b.bull && !b.bear { return Some(NoDirection); }
    return None;
  }

  method TrendFilter(m: Mode, b: Bar) returns (r: Option<Reason>)
    ensures Checked(m, b, 5, r)
  {
    if Ema200Filter in m.filters && b.ema200.Some? {
      if b.bull && b.price < b.ema200.value { return Some(BelowEma200); }
      if !b.bull && b.price > b.ema200.value { return Some(AboveEma200); }
    }
    return None;
  }

  method StructuralGuards(m: Mode, b: Bar) returns (r: Option<Reason>)
    ensures Checked(m, b, 6, r)
  {
    if BosGuard in m.filters {
      if b.bull && b.bos != Bullish { return Some(BosNotBullish); }
      if !b.bull && b.bos != Bearish { return Some(BosNotBearish); }
    }
    if FvgGuard in m.filters {
      if !(if b.bull then b.fvgBuy else b.fvgSell) { return Some(NoFvg); }
    }
    if TickJumpGuard in m.filters && b.i >= 2 {
      if b.atr > 0.0 && b.move / b.atr > 0.8 { return Some(TickJump); }
    }
    if LiqVacuumGuard in m.filters {
      if b.range > 0.0 && b.atr > 0.0 && b.range / b.atr > 2.5 && b.body / b.range * 100.0 < 30.0 { return Some(LiqVacuum); }
    }
    if VwapGuard in m.filters {
      var dist := Abs(b.price - OrZero(b.emaFast));
      if b.atr > 0.0 && dist / b.atr > 1.5 { return Some(VwapDistance); }
    }
    return None;
  }

  method SecondaryFilters(m: Mode, b: Bar) returns (r: Option<Reason>)
    ensures Checked(m, b, 7, r)
  {
    if MacdFilter in m.filters && b.i >= 35 && b.macd.Some? {
      if b.bull && b.macd.value < 0.0 { return Some(MacdBearish); }
      if !b.bull && b.macd.value > 0.0 { return Some(MacdBullish); }
    }
    if BollingerFilter in m.filters && b.i >= 20 && b.pctB.Some? {
      if b.bull && b.pctB.value > 0.7 { return Some(Overbought); }
      if !b.bull && b.pctB.value < 0.3 { return Some(Oversold); }
    }
    if AdxFilter in m.filters && b.adx.Some? {
      if b.adx.value < 20.0 { return Some(AdxWeak); }
    }
    if SwingStructure in m.filters && b.i >= 20 {
      if b.bull && b.swing != Bullish { return Some(SwingNotBullish); }
      if !b.bull && b.swing != Bearish { return Some(SwingNotBearish); }
    }
    return None;
  }

  method TradeConstruction(m: Mode, b: Bar) returns (r: Option<Reason>)
    ensures Checked(m, b, 8, r)
  {
    var slDist := 1.5 * b.atr;
    if slDist <= 0.0 || b.price <= 0.0 { return Some(ZeroStop); }
    return None;
  }

  method AiValidator(m: Mode, b: Bar) returns (r: Option<Reason>)
    requires m.spreadMin.Some?
    ensures Checked(m, b, 9, r)
  {
    var spread := if b.price > 0.0 then Abs(OrZero(b.emaFast) - OrZero(b.emaSlow)) / b.price else 0.0;
    if spread < m.spreadMin.value { return Some(AiWeakTrend); }
    if b.rsi.Some? && (b.rsi.value > 75.0 || b.rsi.value < 25.0) { return Some(AiRsi); }
    return None;
  }

  // ---------------------------------------------------------------- the first objection

  lemma RankOrder(r: Reason)
    ensures |Order()| == 25 && Rank(r) < 25 && Order()[Rank(r)] == r
  {
  }

  lemma OrderRank(k: nat)
    requires k < 25
    ensures |Order()| == 25 && Rank(Order()[k]) == k
  {
  }

  /** The stages cut the order of the checks into nine runs. */
  lemma StageMeaning(r: Reason)
    ensures StageOf(r) == if Rank(r) <= Rank(NoNextBar) then 1
                          else if Rank(r) <= Rank(LowSession) then 2
                          else if Rank(r) <= Rank(AtrLow) then 3
                          else if Rank(r) <= Rank(NoDirection) then 4
                          else if Rank(r) <= Rank(AboveEma200) then 5
                          else if Rank(r) <= Rank(VwapDistance) then 6
                          else if Rank(r) <= Rank(SwingNotBearish) then 7
                          else if Rank(r) <= Rank(ZeroStop) then 8 else 9
  {
  }

  lemma StagesInOrder(a: Reason, c: Reason)
    requires Rank(a) < Rank(c)
    ensures 1 <= StageOf(a) <= StageOf(c) <= 9
  {
  }

  lemma {:induction false} FirstFromIs(m: Mode, b: Bar, k: nat, r: Reason)
    requires k <= Rank(r) && Fires(r, m, b) && forall c: Reason :: k <= Rank(c) < Rank(r) ==> !Fires(c, m, b)
    ensures k <= |Order()| && FirstFrom(m, b, k) == Some(r)
    decreases 25 - k
  {
    hide Fires, Order;
    RankOrder(r);
    if k < Rank(r) {
      OrderRank(k);
      FirstFromIs(m, b, k + 1, r);
    }
  }

  lemma {:induction false} FirstFromNone(m: Mode, b: Bar, k: nat)
    requires k <= 25 && forall c: Reason :: !Fires(c, m, b)
    ensures |Order()| == 25 && FirstFrom(m, b, k) == None
    decreases 25 - k
  {
    hide Fires;
    if k < 25 {
      FirstFromNone(m, b, k + 1);
    }
  }

  /** A bar executes exactly when no check objects, and is blocked by the first one that does. */
  lemma {:induction false} BlockerMeaning(m: Mode, b: Bar)
    ensures Executes(m, b) <==> forall c: Reason :: !Fires(c, m, b)
    ensures forall r: Reason :: Blocker(m, b) == Some(r) <==>
      Fires(r, m, b) && forall c: Reason :: Rank(c) < Rank(r) ==> !Fires(c, m, b)
  {
    hide Fires, Order, FirstFrom;
    if forall c: Reason :: !Fires(c, m, b) {
      FirstFromNone(m, b, 0);
    } else {
      var some: Reason :| Fires(some, m, b);
      var first := Earliest(m, b, some);
      FirstFromIs(m, b, 0, first);
      forall r: Reason | Fires(r, m, b) && (forall c: Reason :: Rank(c) < Rank(r) ==> !Fires(c, m, b)) ensures r == first {
        RankOrder(r);
        RankOrder(first);
      }
    }
  }

  ghost function Earliest(m: Mode, b: Bar, r: Reason): (first: Reason)
    requires Fires(r, m, b)
    ensures Fires(first, m, b) && forall c: Reason :: Rank(c) < Rank(first) ==> !Fires(c, m, b)
    decreases Rank(r)
  {
    if c: Reason :| Rank(c) < Rank(r) && Fires(c, m, b) then Earliest(m, b, c) else r
  }

  // ---------------------------------------------------------------- what each check objects to

  /** The checks read off the bar itself, without the source's divisions: shares and multiples of
      the price, the ATR and the bar's range; a bar that is not bullish is judged as a sell. */
  predicate Objects(r: Reason, m: Mode, b: Bar) {
    match r
    case InsufficientBars => b.i < 60
    case EmaNan => !(b.emaFast.Some? && b.emaSlow.Some?)
    case NoNextBar => !b.hasNext
    case LowSession => SessionFilter in m.filters && b.session.Some? && 2.0 * b.session.value < 1.0
    case AtrHigh => VolatilityFilter in m.filters && b.price > 0.0 && b.atr > 0.025 * b.price
    case AtrLow => VolatilityFilter in m.filters && b.price > 0.0 && b.atr < 0.0005 * b.price
    case NoDirection => !(b.bull || b.bear)
    case BelowEma200 => Ema200Filter in m.filters && b.bull && b.ema200.Some? && b.ema200.value - b.price > 0.0
    case AboveEma200 => Ema200Filter in m.filters && !b.bull && b.ema200.Some? && b.price - b.ema200.value > 0.0
    case BosNotBullish => BosGuard in m.filters && b.bull && (b.bos == Bearish || b.bos == Neither)
    case BosNotBearish => BosGuard in m.filters && !b.bull && (b.bos == Bullish || b.bos == Neither)
    case NoFvg => FvgGuard in m.filters && ((b.bull && !b.fvgBuy) || (!b.bull && !b.fvgSell))
    case TickJump => TickJumpGuard in m.filters && b.i > 1 && b.atr > 0.0 && b.move > 0.8 * b.atr
    case LiqVacuum => LiqVacuumGuard in m.filters && b.atr > 0.0 && b.range > 0.0 && b.range > 2.5 * b.atr && b.body < 0.3 * b.range
    case VwapDistance =>
      VwapGuard in m.filters && b.atr > 0.0
      && var ema := OrZero(b.emaFast); b.price > ema + 1.5 * b.atr || b.price < ema - 1.5 * b.atr
    case MacdBearish => MacdFilter in m.filters && b.i > 34 && b.bull && b.macd.Some? && b.macd.value < 0.0
    case MacdBullish => MacdFilter in m.filters && b.i > 34 && !b.bull && b.macd.Some? && b.macd.value > 0.0
    case Overbought => BollingerFilter in m.filters && b.i > 19 && b.bull && b.pctB.Some? && b.pctB.value > 0.7
    case Oversold => BollingerFilter in m.filters && b.i > 19 && !b.bull && b.pctB.Some? && b.pctB.value < 0.3
    case AdxWeak => AdxFilter in m.filters && b.adx.Some? && b.adx.value < 20.0
    case SwingNotBullish => SwingStructure in m.filters && b.i > 19 && b.bull && (b.swing == Bearish || b.swing == Neither)
    case SwingNotBearish => SwingStructure in m.filters && b.i > 19 && !b.bull && (b.swing == Bullish || b.swing == Neither)
    case ZeroStop => b.atr <= 0.0 || b.price <= 0.0
    case AiWeakTrend =>
      m.spreadMin.Some?
      && var gap := Abs(OrZero(b.emaFast) - OrZero(b.emaSlow));
         if b.price > 0.0 then gap < Times(m.spreadMin.value, b.price) else m.spreadMin.value > 0.0
    case AiRsi => m.spreadMin.Some? && b.rsi.Some? && !(25.0 <= b.rsi.value <= 75.0)
  }

  lemma RatioAgainst(x: real, y: real, k: real)
    requires y > 0.0
    ensures x / y > k <==> x > Times(k, y)
    ensures x / y < k <==> x < Times(k, y)
  {
    assert x / y * y == x;
    if x / y > k { assert (x / y - k) * y > 0.0; }
    if x / y < k { assert (k - x / y) * y > 0.0; }
  }

  lemma FiresMeaning(r: Reason, m: Mode, b: Bar)
    ensures Fires(r, m, b) <==> Objects(r, m, b)
  {
    if b.price > 0.0 {
      RatioAgainst(b.atr, b.price, 0.025);
      RatioAgainst(b.atr, b.price, 0.0005);
      if m.spreadMin.Some? { RatioAgainst(Abs(OrZero(b.emaFast) - OrZero(b.emaSlow)), b.price, m.spreadMin.value); }
    }
    if b.atr > 0.0 {
      RatioAgainst(b.move, b.atr, 0.8);
      RatioAgainst(b.range, b.atr, 2.5);
      RatioAgainst(Abs(b.price - OrZero(b.emaFast)), b.atr, 1.5);
    }
    if b.range > 0.0 { RatioAgainst(b.body, b.range, 0.3); }
  }

  /** A bar executes exactly when nothing is objected to it, and is blocked by the first objection. */
  lemma BlockedByFirstObjection(m: Mode, b: Bar)
    ensures Executes(m, b) <==> forall c: Reason :: !Objects(c, m, b)
    ensures forall r: Reason :: Blocker(m, b) == Some(r) <==>
      Objects(r, m, b) && forall c: Reason :: Rank(c) < Rank(r) ==> !Objects(c, m, b)
  {
    hide Fires, Objects, Executes, Blocker;
    BlockerMeaning(m, b);
    forall r: Reason ensures Fires(r, m, b) <==> Objects(r, m, b) {
      FiresMeaning(r, m, b);
    }
  }

  // ---------------------------------------------------------------- counting

  /** The counters once the stages before `s` have each seen the bar. */
  function Entered(stats: seq<StageStats>, m: Mode, s: nat): seq<StageStats> {
    seq(|stats|, k requires 0 <= k < |stats| =>
      if k + 1 < s && Reached(m, None, k + 1) then stats[k].(candidatesIn := stats[k].candidatesIn + 1) else stats[k])
  }

  ghost predicate Cleared(m: Mode, b: Bar, s: nat) { forall c: Reason :: StageOf(c) < s ==> !Fires(c, m, b) }

  lemma NothingEntered(was: seq<StageStats>, m: Mode, b: Bar)
    ensures Entered(was, m, 1) == was && Cleared(m, b, 1)
  {
  }

  function OneMore(st: seq<StageStats>, k: nat): seq<StageStats>
    requires k < |st|
  {
    st[k := st[k].(candidatesIn := st[k].candidatesIn + 1)]
  }

  function OneBlocked(st: seq<StageStats>, k: nat, r: Reason): seq<StageStats>
    requires k < |st|
  {
    st[k := st[k].(blocked := st[k].blocked + 1, reasons := st[k].reasons + multiset{r})]
  }

  /** After stage `s` has counted its candidate and made its checks. */
  lemma StageDone(was: seq<StageStats>, m: Mode, b: Bar, s: nat, r: Option<Reason>)
    requires |was| == STAGES && 1 <= s <= 9 && Cleared(m, b, s) && Checked(m, b, s, r) && (s == 9 ==> m.spreadMin.Some?)
    ensures |Entered(was, m, s)| == STAGES && OneMore(Entered(was, m, s), s - 1) == Entered(was, m, s + 1)
    ensures r.None? ==> Cleared(m, b, s + 1)
    ensures r.Some? ==>
      StageOf(r.value) == s && Blocker(m, b) == r && |Entered(was, m, s + 1)| == STAGES
      && OneBlocked(Entered(was, m, s + 1), s - 1, r.value) == Visit(was, m, r)
  {
    hide Fires;
    if r.Some? {
      forall c: Reason | Rank(c) < Rank(r.value) ensures !Fires(c, m, b) {
        StagesInOrder(c, r.value);
      }
      FirstFromIs(m, b, 0, r.value);
    }
  }

  lemma AiOff(was: seq<StageStats>, m: Mode, b: Bar)
    requires m.spreadMin.None? && Cleared(m, b, 9)
    ensures Entered(was, m, 9) == Entered(was, m, 10) && Cleared(m, b, 10)
  {
  }

  lemma AllDone(was: seq<StageStats>, m: Mode, b: Bar)
    requires |was| == STAGES && Cleared(m, b, 10)
    ensures Executes(m, b) && |Entered(was, m, 10)| == STAGES && OneMore(Entered(was, m, 10), 9) == Visit(was, m, None)
  {
    hide Fires;
    forall c: Reason ensures !Fires(c, m, b) {
      assert StageOf(c) < 10;
    }
    FirstFromNone(m, b, 0);
  }

  lemma {:induction false} TenStages(m: Mode, bars: seq<Bar>)
    ensures |After(m, bars)| == STAGES
  {
    if bars != [] {
      TenStages(m, bars[..|bars| - 1]);
    }
  }

  // ---------------------------------------------------------------- conservation

  function Left(st: StageStats): int { st.candidatesIn - st.blocked }

  function Executed(m: Mode, bars: seq<Bar>): nat {
    if bars == [] then 0
    else Executed(m, bars[..|bars| - 1]) + if Executes(m, bars[|bars| - 1]) then 1 else 0
  }

  /** The balance of the whole funnel. */
  predicate Balanced(st: seq<StageStats>, m: Mode, bars: nat, executed: nat) {
    && |st| == STAGES
    && (forall k :: 0 <= k < STAGES ==> |st[k].reasons| == st[k].blocked)
    && (forall k :: 0 <= k < 7 ==> st[k + 1].candidatesIn == Left(st[k]))
    && EndsBalance(st, m, bars, executed)
  }

  /** The first stage and those around the AI gate. */
  predicate EndsBalance(st: seq<StageStats>, m: Mode, bars: nat, executed: nat)
    requires |st| == STAGES
  {
    && st[0].candidatesIn == bars && st[9].candidatesIn == executed
    && (if m.spreadMin.Some? then st[8].candidatesIn == Left(st[7]) && st[9].candidatesIn == Left(st[8])
        else st[8].candidatesIn == st[8].blocked == 0 && st[9].candidatesIn == Left(st[7]))
    && st[9].blocked == 0
  }

  function Blocks(st: seq<StageStats>): nat {
    if st == [] then 0 else Blocks(st[..|st| - 1]) + st[|st| - 1].blocked
  }

  /** Over any number of bars every stage passes on exactly what it did not block (stage 9 only
      with the AI gate), the reasons of a stage add up to its blocks, and the last stage counts
      the bars that execute. */
  lemma {:induction false} FunnelConservation(m: Mode, bars: seq<Bar>)
    ensures Balanced(After(m, bars), m, |bars|, Executed(m, bars))
  {
    hide Blocker, Executes, Balanced, Visit;
    if bars == [] {
      EmptyFunnel(m);
    } else {
      var front, last := bars[..|bars| - 1], bars[|bars| - 1];
      FunnelConservation(m, front);
      GateBlocks(m, last);
      BalancedStep(After(m, front), m, Blocker(m, last), |front|, Executed(m, front));
      BlockerIsNone(m, last);
    }
  }

  lemma EmptyFunnel(m: Mode)
    ensures Balanced(Fresh(), m, 0, 0)
  {
    assert |Fresh()| == STAGES && forall k :: 0 <= k < STAGES ==> Fresh()[k] == StageStats(0, 0, multiset{});
    hide Fresh, Balanced;
    ZerosBalance(Fresh(), m);
  }

  lemma ZerosBalance(st: seq<StageStats>, m: Mode)
    requires |st| == STAGES
    requires forall k :: 0 <= k < STAGES ==> st[k].candidatesIn == st[k].blocked == 0 && st[k].reasons == multiset{}
    ensures Balanced(st, m, 0, 0)
  {
  }

  lemma BlockerIsNone(m: Mode, b: Bar)
    ensures Executes(m, b) <==> Blocker(m, b).None?
  {
  }

  /** Stage 9 blocks only with the AI gate. */
  lemma GateBlocks(m: Mode, b: Bar)
    ensures Blocker(m, b).Some? && StageOf(Blocker(m, b).value) == 9 ==> m.spreadMin.Some?
  {
    if Blocker(m, b).Some? {
      hide Blocker, FirstFrom, Order;
      BlockerMeaning(m, b);
    }
  }

  lemma BalancedStep(st: seq<StageStats>, m: Mode, r: Option<Reason>, bars: nat, executed: nat)
    requires Balanced(st, m, bars, executed)
    requires r.Some? && StageOf(r.value) == 9 ==> m.spreadMin.Some?
    ensures Balanced(Visit(st, m, r), m, bars + 1, executed + if r.None? then 1 else 0)
  {
    var stage := if r.Some? then StageOf(r.value) else 10;
    assert 1 <= stage <= 10 && (stage == 10 <==> r.None?);
    forall k | 0 <= k < STAGES ensures Counted(st[k], Visit(st, m, r)[k], k + 1, stage, m.spreadMin.Some?) {
      CountInEffect(st[k], m, r, k + 1);
    }
    hide StageOf, Visit, CountIn, Reached;
    assert |Visit(st, m, r)| == STAGES;
    var v := Visit(st, m, r);
    ChainStep(st, v, stage, m.spreadMin.Some?);
    EndsStep(st, v, m, bars, executed, stage);
    hide Counted, EndsBalance;
  }

  lemma ChainStep(st: seq<StageStats>, v: seq<StageStats>, stage: nat, gate: bool)
    requires |st| == |v| == STAGES && forall k :: 0 <= k < STAGES ==> Counted(st[k], v[k], k + 1, stage, gate)
    requires forall k :: 0 <= k < STAGES ==> |st[k].reasons| == st[k].blocked
    requires forall k :: 0 <= k < 7 ==> st[k + 1].candidatesIn == Left(st[k])
    ensures forall k :: 0 <= k < STAGES ==> |v[k].reasons| == v[k].blocked
    ensures forall k :: 0 <= k < 7 ==> v[k + 1].candidatesIn == Left(v[k])
  {
    forall k | 0 <= k < 7 ensures v[k + 1].candidatesIn == Left(v[k]) {
      assert Counted(st[k], v[k], k + 1, stage, gate) && Counted(st[k + 1], v[k + 1], k + 2, stage, gate);
    }
  }

  lemma EndsStep(st: seq<StageStats>, v: seq<StageStats>, m: Mode, bars: nat, executed: nat, stage: nat)
    requires |st| == |v| == STAGES && 1 <= stage <= 10 && (stage == 9 ==> m.spreadMin.Some?)
    requires forall k :: 0 <= k < STAGES ==> Counted(st[k], v[k], k + 1, stage, m.spreadMin.Some?)
    requires EndsBalance(st, m, bars, executed)
    ensures EndsBalance(v, m, bars + 1, executed + if stage == 10 then 1 else 0)
  {
    assert Counted(st[0], v[0], 1, stage, m.spreadMin.Some?) && Counted(st[7], v[7], 8, stage, m.spreadMin.Some?);
    assert Counted(st[8], v[8], 9, stage, m.spreadMin.Some?) && Counted(st[9], v[9], 10, stage, m.spreadMin.Some?);
  }

  /** How a bar that got as far as `stage` moves the counters of stage `s`. */
  predicate Counted(a: StageStats, v: StageStats, s: nat, stage: nat, gate: bool) {
    && v.candidatesIn == a.candidatesIn + (if s <= stage && (s == 9 ==> gate) then 1 else 0)
    && v.blocked == a.blocked + (if s == stage && s < 10 then 1 else 0)
    && |v.reasons| == |a.reasons| + (if s == stage && s < 10 then 1 else 0)
  }

  lemma CountInEffect(a: StageStats, m: Mode, r: Option<Reason>, s: nat)
    requires 1 <= s <= 10
    ensures Counted(a, CountIn(a, m, r, s), s, if r.Some? then StageOf(r.value) else 10, m.spreadMin.Some?)
  {
  }

  /** How many bars are blocked by `r`. */
  function BlockedBy(m: Mode, bars: seq<Bar>, r: Reason): nat {
    if bars == [] then 0
    else BlockedBy(m, bars[..|bars| - 1], r) + if Blocker(m, bars[|bars| - 1]) == Some(r) then 1 else 0
  }

  /** Each reason is counted at its own stage, once for every bar it blocks, and nowhere else. */
  lemma {:induction false} ReasonCounts(m: Mode, bars: seq<Bar>, r: Reason, s: nat)
    requires 1 <= s <= STAGES
    ensures |After(m, bars)| == STAGES
    ensures After(m, bars)[s - 1].reasons[r] == if s == StageOf(r) then BlockedBy(m, bars, r) else 0
  {
    hide Blocker, Visit, StageOf;
    if bars != [] {
      var front, last := bars[..|bars| - 1], bars[|bars| - 1];
      ReasonCounts(m, front, r, s);
      ReasonStep(After(m, front), m, Blocker(m, last), r, s);
    } else {
      assert Fresh()[s - 1] == StageStats(0, 0, multiset{});
    }
  }

  lemma ReasonStep(st: seq<StageStats>, m: Mode, blocker: Option<Reason>, r: Reason, s: nat)
    requires |st| == STAGES && 1 <= s <= STAGES
    ensures |Visit(st, m, blocker)| == STAGES
    ensures Visit(st, m, blocker)[s - 1].reasons[r] == st[s - 1].reasons[r] + if blocker == Some(r) && s == StageOf(r) then 1 else 0
  {
    hide StageOf;
  }

  /** Blocks and executions add up to the bars. */
  lemma BlocksPlusExecutes(m: Mode, bars: seq<Bar>)
    ensures Blocks(After(m, bars)) + Executed(m, bars) == |bars|
  {
    FunnelConservation(m, bars);
    BlocksOfTen(After(m, bars));
  }

  lemma BlocksOfTen(st: seq<StageStats>)
    requires |st| == STAGES
    ensures Blocks(st) == st[0].blocked + st[1].blocked + st[2].blocked + st[3].blocked + st[4].blocked
                          + st[5].blocked + st[6].blocked + st[7].blocked + st[8].blocked + st[9].blocked
  {
    forall n | 0 < n <= STAGES ensures Blocks(st[..n]) == Blocks(st[..n - 1]) + st[n - 1].blocked {
      assert st[..n][..n - 1] == st[..n - 1];
    }
    assert st[..10] == st && st[..0] == [];
  }

  // ---------------------------------------------------------------- monotonicity

  /** `strict` asks at least as much as `loose`. */
  predicate Stricter(strict: Mode, loose: Mode) {
    && loose.filters <= strict.filters
    && (loose.spreadMin.Some? ==> strict.spreadMin.Some? && strict.spreadMin.value >= loose.spreadMin.value)
  }

  /** Enlarging the filter set, switching the AI gate on or raising its bar never adds an executed
      bar. */
  lemma StricterExecutesLess(strict: Mode, loose: Mode, b: Bar)
    requires Stricter(strict, loose) && Executes(strict, b)
    ensures Executes(loose, b)
  {
    hide Executes, Blocker, Fires;
    BlockerMeaning(strict, b);
    BlockerMeaning(loose, b);
    forall c: Reason ensures !Fires(c, loose, b) {
      FiresMonotone(c, strict, loose, b);
    }
  }

  lemma FiresMonotone(c: Reason, strict: Mode, loose: Mode, b: Bar)
    requires Stricter(strict, loose)
    ensures Fires(c, loose, b) ==> Fires(c, strict, b)
  {
  }

  lemma {:induction false} StricterCountsLess(strict: Mode, loose: Mode, bars: seq<Bar>)
    requires Stricter(strict, loose)
    ensures Executed(strict, bars) <= Executed(loose, bars)
  {
    if bars != [] {
      StricterCountsLess(strict, loose, bars[..|bars| - 1]);
      if Executes(strict, bars[|bars| - 1]) {
        StricterExecutesLess(strict, loose, bars[|bars| - 1]);
      }
    }
  }

  const SHARED: set<Filter> := {SessionFilter, VolatilityFilter, Ema200Filter, TickJumpGuard, LiqVacuumGuard, VwapGuard}
  const ALL: set<Filter> := SHARED + {BosGuard, FvgGuard, MacdFilter, BollingerFilter, AdxFilter, SwingStructure}
  const AlgoOnly := Mode(ALL, None)
  const AlgoAi := Mode(ALL, Some(0.004))
  const AiSignal := Mode(SHARED, Some(0.002))

  /** What the combined mode executes, both other modes execute too. */
  lemma AlgoAiIsSubset(b: Bar)
    requires Executes(AlgoAi, b)
    ensures Executes(AlgoOnly, b) && Executes(AiSignal, b)
  {
    StricterExecutesLess(AlgoAi, AlgoOnly, b);
    StricterExecutesLess(AlgoAi, AiSignal, b);
  }
}
