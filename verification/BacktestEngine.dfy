/** The rule-based simulator and its equity accounting (backtester/engine.py). */
module BacktestEngine {
  import opened Construction
  import opened Rounding
  import opened Wrappers

  datatype Ohlc = Ohlc(highs: seq<real>, lows: seq<real>, closes: seq<real>) {
    predicate SameLength() { |highs| == |lows| == |closes| }
  }

  /** What the injected signal function answers for a bar. */
  datatype Answer = NoSignal | Signal(dir: Direction, entry: real, sl: real, tp1: real, tp2: real) | Raises

  datatype Config = Config(start: nat, end: int, balance: real, riskPct: real, slip: real, commission: real,
                           signal: nat -> Answer, stop: nat -> bool)

  datatype Outcome = Win | Loss | Breakeven

  datatype Open = Open(bar: nat, dir: Direction, entry: real, sl: real, tp1: real, tp2: real, lots: real)

  datatype Trade = Trade(open: Open, closeBar: int, closePrice: real, outcome: Outcome, pnl: real)

  /** The local variables of a run; `entered` lists the bars at which a trade was opened. */
  datatype Run = Run(equity: real, curve: seq<real>, trades: seq<Trade>, open: Option<Open>,
                     error: bool, stopped: bool, entered: seq<nat>)

  function Cents(x: real): real { Round(x, 100.0) }

  /** Profit of a move from the entry to `price`. */
  function Gain(o: Open, price: real): real {
    if o.dir == BUY then Times(price - o.entry, o.lots) else -Times(price - o.entry, o.lots)
  }

  /** The exit on one bar, the stop before the targets. */
  function ExitOn(o: Open, bar: nat, high: real, low: real): Option<Trade> {
    var buy := o.dir == BUY;
    if (if buy then low <= o.sl else high >= o.sl) then Some(Trade(o, bar, o.sl, Loss, Cents(Gain(o, o.sl))))
    else if (if buy then high >= o.tp1 else low <= o.tp1) then Some(Trade(o, bar, o.tp1, Win, Cents(Gain(o, o.tp1))))
    else if (if buy then high >= o.tp2 else low <= o.tp2) then Some(Trade(o, bar, o.tp2, Win, Cents(Gain(o, o.tp2))))
    else None
  }

  function LotsFor(equity: real, riskPct: real, slDist: real): real {
    if slDist > 0.0 then Round(Times(equity, riskPct) / slDist, 10000.0) else 0.01
  }

  function Fee(c: Config, lots: real): real { if c.commission > 0.0 then Times(lots, c.commission) else 0.0 }

  function OpenFor(c: Config, equity: real, bar: nat, s: Answer): Open
    requires s.Signal?
  {
    var entry := if s.dir == BUY then s.entry + c.slip else s.entry - c.slip;
    Open(bar, s.dir, entry, s.sl, s.tp1, s.tp2, LotsFor(equity, c.riskPct, Abs(entry - s.sl)))
  }

  function Enter(c: Config, r: Run, bar: nat): Run {
    match c.signal(bar)
    case NoSignal => r
    case Raises => r.(error := true)
    case Signal(_, _, _, _, _) =>
      var o := OpenFor(c, r.equity, bar, c.signal(bar));
      r.(equity := r.equity - Fee(c, o.lots), open := Some(o), entered := r.entered + [bar])
  }

  function Close(r: Run, t: Trade): Run {
    r.(equity := r.equity + t.pnl, curve := r.curve + [r.equity + t.pnl], trades := r.trades + [t], open := None)
  }

  predicate Ended(r: Run) { r.error || r.stopped }

  /** One round of the bar loop. */
  function BarStep(c: Config, b: Ohlc, r: Run, bar: nat): Run
    requires b.SameLength()
  {
    if Ended(r) then r
    else if c.stop(bar) then r.(stopped := true)
    else
      match r.open
      case None => Enter(c, r, bar)
      case Some(o) =>
        if bar >= |b.closes| then r.(error := true)
        else
          match ExitOn(o, bar, b.highs[bar], b.lows[bar])
          case Some(t) => Close(r, t)
          case None => r
  }

  function Begin(c: Config): Run { Run(c.balance, [c.balance], [], None, false, false, []) }

  /** The variables after the first `n` bars of the range. */
  function After(c: Config, b: Ohlc, n: nat): Run
    requires b.SameLength()
  {
    if n == 0 then Begin(c) else BarStep(c, b, After(c, b, n - 1), c.start + n - 1)
  }

  function Bars(c: Config): nat { if c.end < c.start then 0 else c.end - c.start + 1 }

  /** The forced close at the last bar of the range; none of its divisions is guarded. */
  predicate CloseFails(c: Config, b: Ohlc, o: Open) { c.end >= |b.closes| || (o.entry != o.sl && o.lots == 0.0) }

  function ForcedClose(c: Config, b: Ohlc, o: Open): Trade
    requires b.SameLength() && 0 <= c.end < |b.closes|
  {
    Trade(o, c.end, b.closes[c.end], Breakeven, if o.entry == o.sl then 0.0 else Cents(Gain(o, b.closes[c.end])))
  }

  datatype Verdict = Crashed | Finished(run: Run)

  function Finish(c: Config, b: Ohlc): Verdict
    requires b.SameLength()
  {
    var r := After(c, b, Bars(c));
    match r.open
    case None => Finished(r)
    case Some(o) => if c.end < 0 || CloseFails(c, b, o) then Crashed else Finished(Close(r, ForcedClose(c, b, o)))
  }

  method CheckExit(o: Open, bar: nat, high: real, low: real) returns (t: Option<Trade>)
    ensures t == ExitOn(o, bar, high, low)
  {
    var isBuy := o.dir == BUY;
    if (isBuy && low <= o.sl) || (!isBuy && high >= o.sl) {
      var pnl := Times(o.sl - o.entry, o.lots);
      if !isBuy { pnl := -pnl; }
      return Some(Trade(o, bar, o.sl, Loss, Round(pnl, 100.0)));
    }
    if (isBuy && high >= o.tp1) || (!isBuy && low <= o.tp1) {
      var pnl := Times(o.tp1 - o.entry, o.lots);
      if !isBuy { pnl := -pnl; }
      return Some(Trade(o, bar, o.tp1, Win, Round(pnl, 100.0)));
    }
    if (isBuy && high >= o.tp2) || (!isBuy && low <= o.tp2) {
      var pnl := Times(o.tp2 - o.entry, o.lots);
      if !isBuy { pnl := -pnl; }
      return Some(Trade(o, bar, o.tp2, Win, Round(pnl, 100.0)));
    }
    return None;
  }

  /** The fill after spread and slippage, its lots, and the commission. */
  method SizeTrade(c: Config, equity: real, bar: nat, s: Answer) returns (o: Open, fee: real)
    requires s.Signal?
    ensures o == OpenFor(c, equity, bar, s) && fee == Fee(c, o.lots)
  {
    var entry := s.entry;
    if s.dir == BUY { entry := entry + c.slip; } else { entry := entry - c.slip; }
    var slDist := Abs(entry - s.sl);
    var lots := 0.01;
    if slDist > 0.0 {
      lots := Round(Times(equity, c.riskPct) / slDist, 10000.0);
    }
    fee := 0.0;
    if c.commission > 0.0 {
      fee := Times(lots, c.commission);
    }
    o := Open(bar, s.dir, entry, s.sl, s.tp1, s.tp2, lots);
  }

  method Backtest(c: Config, b: Ohlc) returns (v: Verdict)
    requires b.SameLength()
    ensures v == Finish(c, b)
  {
    var equity, curve, trades: seq<Trade>, open: Option<Open> := c.balance, [c.balance], [], None;
    var error, stopped, entered: seq<nat> := false, false, [];
    var n := 0;
    hide Round, Times, OpenFor, Fee, ExitOn, After;
    assert Run(equity, curve, trades, open, error, stopped, entered) == After(c, b, 0) by { AfterNothing(c, b); }
    while n < Bars(c) && !error && !stopped
      invariant n <= Bars(c)
      invariant Run(equity, curve, trades, open, error, stopped, entered) == After(c, b, n)
      decreases Bars(c) - n
    {
      var i := c.start + n;
      AfterOne(c, b, n);
      n := n + 1;
      if c.stop(i) {
        stopped := true;
      } else if open.Some? && i >= |b.closes| {
        error := true;
      } else if open.Some? {
        var closed := CheckExit(open.value, i, b.highs[i], b.lows[i]);
        if closed.Some? {
          equity := equity + closed.value.pnl;
          curve, trades, open := curve + [equity], trades + [closed.value], None;
        }
      } else {
        var s := c.signal(i);
        if s.Raises? {
          error := true;
        } else if s.Signal? {
          var o, fee := SizeTrade(c, equity, i, s);
          equity := equity - fee;
          open, entered := Some(o), entered + [i];
        }
      }
    }
    EndedStays(c, b, n, Bars(c));
    if open.Some? {
      var o := open.value;
      if c.end < 0 || c.end >= |b.closes| {
        return Crashed;
      }
      var price, pnl := b.closes[c.end], 0.0;
      if Abs(o.entry - o.sl) > 0.0 {
        pnl := Times(price - o.entry, o.lots);
        if o.dir == SELL { pnl := -pnl; }
        if o.lots == 0.0 {
          return Crashed;
        }
        pnl := Round(pnl, 100.0);
      }
      equity := equity + pnl;
      curve, trades, open := curve + [equity], trades + [Trade(o, c.end, price, Breakeven, pnl)], None;
    }
    return Finished(Run(equity, curve, trades, open, error, stopped, entered));
  }

  lemma AfterNothing(c: Config, b: Ohlc)
    requires b.SameLength()
    ensures After(c, b, 0) == Begin(c)
  {
  }

  lemma AfterOne(c: Config, b: Ohlc, n: nat)
    requires b.SameLength()
    ensures After(c, b, n + 1) == BarStep(c, b, After(c, b, n), c.start + n)
  {
    hide BarStep;
  }

  lemma {:induction false} EndedStays(c: Config, b: Ohlc, n: nat, m: nat)
    requires b.SameLength() && n <= m && (n == m || Ended(After(c, b, n)))
    ensures After(c, b, m) == After(c, b, n)
    decreases m - n
  {
    if n < m {
      assert After(c, b, n + 1) == After(c, b, n);
      EndedStays(c, b, n + 1, m);
    }
  }

  // ---------------------------------------------------------------- accounting

  function TotalPnl(ts: seq<Trade>): real {
    if ts == [] then 0.0 else TotalPnl(ts[..|ts| - 1]) + ts[|ts| - 1].pnl
  }

  function TotalFees(c: Config, ts: seq<Trade>): real {
    if ts == [] then 0.0 else TotalFees(c, ts[..|ts| - 1]) + Fee(c, ts[|ts| - 1].open.lots)
  }

  function OpenedBars(ts: seq<Trade>): seq<nat> { seq(|ts|, k requires 0 <= k < |ts| => ts[k].open.bar) }

  /** Every cent is accounted for, every opened trade is listed once or still open, and the spans
      of the trades follow each other without overlap before bar `next`. */
  ghost predicate Books(c: Config, r: Run, next: int) {
    && r.equity == c.balance + TotalPnl(r.trades) - TotalFees(c, r.trades) - (if r.open.Some? then Fee(c, r.open.value.lots) else 0.0)
    && |r.curve| == |r.trades| + 1
    && (r.open.None? ==> r.curve[|r.trades|] == r.equity)
    && r.entered == OpenedBars(r.trades) + (if r.open.Some? then [r.open.value.bar] else [])
    && Disjoint(r.trades)
    && (forall k :: 0 <= k < |r.trades| ==> r.trades[k].closeBar < next)
    && (r.open.Some? ==> r.open.value.bar < next && (r.trades != [] ==> r.trades[|r.trades| - 1].closeBar < r.open.value.bar))
  }

  predicate Disjoint(ts: seq<Trade>) {
    && (forall k :: 0 <= k < |ts| ==> ts[k].open.bar <= ts[k].closeBar)
    && (forall k :: 0 <= k < |ts| - 1 ==> ts[k].closeBar < ts[k + 1].open.bar)
  }

  lemma BooksEnter(c: Config, r: Run, bar: nat)
    requires Books(c, r, bar) && r.open.None?
    ensures Books(c, Enter(c, r, bar), bar + 1)
  {
    hide Round;
  }

  lemma BooksClose(c: Config, r: Run, t: Trade, next: int)
    requires Books(c, r, next) && r.open == Some(t.open) && t.closeBar >= t.open.bar
    ensures Books(c, Close(r, t), if t.closeBar < next then next else t.closeBar + 1)
  {
    var ts := r.trades + [t];
    assert ts[..|ts| - 1] == r.trades;
    assert OpenedBars(ts) == OpenedBars(r.trades) + [t.open.bar];
    assert OpenedBars(ts) + [] == OpenedBars(ts);
  }

  lemma BooksBar(c: Config, b: Ohlc, r: Run, bar: nat)
    requires b.SameLength() && Books(c, r, bar)
    ensures Books(c, BarStep(c, b, r, bar), bar + 1)
  {
    if !Ended(r) && !c.stop(bar) {
      if r.open.None? {
        BooksEnter(c, r, bar);
      } else if bar < |b.closes| {
        var t := ExitOn(r.open.value, bar, b.highs[bar], b.lows[bar]);
        if t.Some? {
          BooksClose(c, r, t.value, bar);
        }
      }
    }
    hide Round;
  }

  lemma BooksBegin(c: Config)
    ensures Books(c, Begin(c), c.start)
  {
  }

  lemma {:induction false} BooksAfter(c: Config, b: Ohlc, n: nat)
    requires b.SameLength()
    ensures Books(c, After(c, b, n), c.start + n)
  {
    hide BarStep, Books;
    if n == 0 {
      BooksBegin(c);
    } else {
      BooksAfter(c, b, n - 1);
      BooksBar(c, b, After(c, b, n - 1), c.start + n - 1);
    }
  }

  /** Equity accounting: however a run ends (at the last bar, early, or after an exception), the
      curve ends at start plus all profits minus all commissions, no trade is left open, every
      opened trade is listed exactly once in order, and the bar spans are disjoint. */
  lemma EquityAccounting(c: Config, b: Ohlc)
    requires b.SameLength() && Finish(c, b).Finished?
    ensures var r := Finish(c, b).run;
            && r.open.None? && |r.curve| == |r.trades| + 1 && r.curve[0] == c.balance
            && r.curve[|r.trades|] == c.balance + TotalPnl(r.trades) - TotalFees(c, r.trades)
            && r.entered == OpenedBars(r.trades) && Disjoint(r.trades)
  {
    var n := Bars(c);
    BooksAfter(c, b, n);
    CurveStarts(c, b, n);
    var r := After(c, b, n);
    hide After, Round;
    if r.open.Some? {
      BooksClose(c, r, ForcedClose(c, b, r.open.value), c.start + n);
    }
    assert OpenedBars(Finish(c, b).run.trades) + [] == OpenedBars(Finish(c, b).run.trades);
  }

  lemma {:induction false} CurveStarts(c: Config, b: Ohlc, n: nat)
    requires b.SameLength()
    ensures After(c, b, n).curve != [] && After(c, b, n).curve[0] == c.balance
  {
    if n > 0 {
      CurveStarts(c, b, n - 1);
    }
    hide Round;
  }

  predicate StopTouched(o: Open, high: real, low: real) { if o.dir == BUY then low <= o.sl else high >= o.sl }

  predicate TargetTouched(o: Open, target: real, high: real, low: real) {
    if o.dir == BUY then high >= target else low <= target
  }

  function ExitPrice(o: Open, high: real, low: real): real {
    if StopTouched(o, high, low) then o.sl else if TargetTouched(o, o.tp1, high, low) then o.tp1 else o.tp2
  }

  /** What one bar does to an open trade: it is lost exactly if the bar touches the stop, whatever
      the targets; won exactly if a target is touched and the stop is not, at the first target if
      that is touched; and stays open exactly if nothing is touched. */
  lemma ExitMeaning(o: Open, bar: nat, high: real, low: real)
    ensures var t := ExitOn(o, bar, high, low);
            && (t.Some? && t.value.outcome == Loss <==> StopTouched(o, high, low))
            && (t.Some? && t.value.outcome == Win <==>
                  !StopTouched(o, high, low) && (TargetTouched(o, o.tp1, high, low) || TargetTouched(o, o.tp2, high, low)))
            && (t.None? <==> !StopTouched(o, high, low) && !TargetTouched(o, o.tp1, high, low) && !TargetTouched(o, o.tp2, high, low))
            && (t.Some? ==> t.value.open == o && t.value.closeBar == bar && t.value.outcome != Breakeven)
            && (t.Some? ==> t.value.closePrice == ExitPrice(o, high, low))
            && (t.Some? ==> NearGain(t.value))
  {
    var t := ExitOn(o, bar, high, low);
    if t.Some? {
      CentsNear(Gain(o, t.value.closePrice));
      GainIsMove(o, t.value.closePrice);
    }
    hide Round, Gain;
  }

  /** The profit is that of the move from entry to exit in the direction of the trade, within half a
      cent. */
  predicate NearGain(t: Trade) {
    var move := if t.open.dir == BUY then t.closePrice - t.open.entry else t.open.entry - t.closePrice;
    Abs(t.pnl - Times(move, t.open.lots)) <= 0.005
  }

  lemma GainIsMove(o: Open, price: real)
    ensures Gain(o, price) == Times(if o.dir == BUY then price - o.entry else o.entry - price, o.lots)
  {
    NegativeMove(price - o.entry, o.lots);
    assert o.entry - price == -(price - o.entry);
  }

  lemma NegativeMove(x: real, lots: real)
    ensures -Times(x, lots) == Times(-x, lots)
  {
  }

  /** A trade that is still open at the end closes at the last close of the range, with its profit
      within half a cent, or none if its stop lies at its entry. */
  lemma ForcedCloseMeaning(c: Config, b: Ohlc, o: Open)
    requires b.SameLength() && 0 <= c.end < |b.closes|
    ensures var t := ForcedClose(c, b, o);
            && t.open == o && t.closeBar == c.end && t.closePrice == b.closes[c.end] && t.outcome == Breakeven
            && (if o.entry == o.sl then t.pnl == 0.0 else NearGain(t))
  {
    CentsNear(Gain(o, b.closes[c.end]));
    GainIsMove(o, b.closes[c.end]);
    hide Round, Gain;
  }

  /** What a signal opens: the fill is worse than the asked price by the slip, the lots risk the
      configured share of the equity over the stop distance up to a ten-thousandth of a lot, and
      the commission is taken at once. */
  lemma EnterMeaning(c: Config, r: Run, bar: nat)
    ensures c.signal(bar).NoSignal? ==> Enter(c, r, bar) == r
    ensures c.signal(bar).Raises? ==> Enter(c, r, bar) == r.(error := true)
    ensures c.signal(bar).Signal? ==>
      var s, now := c.signal(bar), Enter(c, r, bar);
      && now.open.Some?
      && var o := now.open.value;
         && o.bar == bar && o.dir == s.dir && o.sl == s.sl && o.tp1 == s.tp1 && o.tp2 == s.tp2
         && (if s.dir == BUY then o.entry - s.entry else s.entry - o.entry) == c.slip
         && (if o.entry == o.sl then o.lots == 0.01
             else Abs(Times(Abs(o.entry - o.sl), o.lots) - Times(r.equity, c.riskPct)) <= 0.00005 * Abs(o.entry - o.sl))
         && r.equity - now.equity == (if c.commission > 0.0 then Times(o.lots, c.commission) else 0.0)
         && now == r.(equity := now.equity, open := now.open, entered := r.entered + [bar])
  {
    if c.signal(bar).Signal? {
      var o := OpenFor(c, r.equity, bar, c.signal(bar));
      if o.entry != o.sl {
        LotsNearShare(Times(r.equity, c.riskPct), Abs(o.entry - o.sl));
      }
    }
    hide Round, Times;
  }

  /** With the stop on the losing side, the targets on the winning side and lots that are not
      negative, a lost trade never gains and a won trade never loses. */
  lemma ExitSign(o: Open, bar: nat, high: real, low: real)
    requires o.lots >= 0.0
    requires if o.dir == BUY then o.sl <= o.entry && o.entry <= o.tp1 && o.entry <= o.tp2
             else o.entry <= o.sl && o.tp1 <= o.entry && o.tp2 <= o.entry
    ensures var t := ExitOn(o, bar, high, low);
            && (t.Some? && t.value.outcome == Loss ==> t.value.pnl <= 0.0)
            && (t.Some? && t.value.outcome == Win ==> t.value.pnl >= 0.0)
  {
    GainSign(o, o.sl);
    GainSign(o, o.tp1);
    GainSign(o, o.tp2);
    CentsSign(Gain(o, o.sl));
    CentsSign(Gain(o, o.tp1));
    CentsSign(Gain(o, o.tp2));
    hide Gain, Round;
  }

  lemma GainSign(o: Open, price: real)
    requires o.lots >= 0.0
    ensures (if o.dir == BUY then price >= o.entry else price <= o.entry) ==> Gain(o, price) >= 0.0
    ensures (if o.dir == BUY then price <= o.entry else price >= o.entry) ==> Gain(o, price) <= 0.0
  {
    TimesSign(price - o.entry, o.lots);
  }

  lemma TimesSign(x: real, y: real)
    requires y >= 0.0
    ensures x >= 0.0 ==> Times(x, y) >= 0.0
    ensures x <= 0.0 ==> Times(x, y) <= 0.0
  {
  }

  lemma CentsSign(x: real)
    ensures x >= 0.0 ==> Cents(x) >= 0.0
    ensures x <= 0.0 ==> Cents(x) <= 0.0
  {
    if x >= 0.0 { RoundMonotone(0.0, x, 100.0); }
    if x <= 0.0 { RoundMonotone(x, 0.0, 100.0); }
    assert Round(0.0, 100.0) == 0.0;
  }

  /** A stopped trade costs the configured share of the equity it was opened on, up to the rounding
      of its lots (over the stop distance) and of its profit. */
  lemma StopCostsTheRisk(c: Config, equity: real, bar: nat, s: Answer, exit: nat, high: real, low: real)
    requires s.Signal?
    requires var o := OpenFor(c, equity, bar, s);
             (if o.dir == BUY then o.sl < o.entry && low <= o.sl else o.entry < o.sl && o.sl <= high)
    ensures var o := OpenFor(c, equity, bar, s);
            var t := ExitOn(o, exit, high, low);
            && t.Some? && t.value.outcome == Loss && t.value.closePrice == o.sl
            && Abs(t.value.pnl + Times(equity, c.riskPct)) <= 0.005 + 0.00005 * Abs(o.entry - o.sl)
  {
    var o := OpenFor(c, equity, bar, s);
    var dist, share := Abs(o.entry - o.sl), Times(equity, c.riskPct);
    hide Round, Times;
    LossIsDistance(o);
    LotsNearShare(share, dist);
    CentsNear(Gain(o, o.sl));
  }

  lemma LossIsDistance(o: Open)
    requires if o.dir == BUY then o.sl < o.entry else o.entry < o.sl
    ensures Gain(o, o.sl) == -Times(Abs(o.entry - o.sl), o.lots)
  {
  }

  lemma LotsNearShare(share: real, dist: real)
    requires dist > 0.0
    ensures Abs(Times(dist, Round(share / dist, 10000.0)) - share) <= 0.00005 * dist
  {
    var lots, exact := Round(share / dist, 10000.0), share / dist;
    RoundNear(exact, 10000.0);
    Quotient(share, dist);
    ScaleGap(lots, exact, dist, 0.00005);
  }

  lemma Quotient(x: real, y: real)
    requires y > 0.0
    ensures Times(y, x / y) == x
  {
  }

  lemma ScaleGap(x: real, y: real, s: real, gap: real)
    requires s > 0.0 && Abs(x - y) <= gap
    ensures Abs(Times(s, x) - Times(s, y)) <= gap * s
  {
    AbsScale(x - y, s);
    assert (x - y) * s == Times(s, x) - Times(s, y);
    ScaleBound(Abs(x - y), gap, s);
  }

  lemma ScaleBound(x: real, y: real, s: real)
    requires x <= y && s > 0.0
    ensures x * s <= y * s
  {
  }

  lemma CentsNear(x: real)
    ensures Abs(Cents(x) - x) <= 0.005
  {
    RoundNear(x, 100.0);
  }

  // ---------------------------------------------------------------- drawdown

  function Peak(eq: seq<real>, j: nat): real
    requires j < |eq|
  {
    if j == 0 then eq[0] else Max(Peak(eq, j - 1), eq[j])
  }

  function DrawdownAt(eq: seq<real>, j: nat): real
    requires j < |eq|
  {
    if Peak(eq, j) > 0.0 then (eq[j] - Peak(eq, j)) / Peak(eq, j) else 0.0
  }

  /** The smallest of the first `n` drawdowns. */
  function Deepest(eq: seq<real>, n: nat): real
    requires 0 < n <= |eq|
  {
    if n == 1 then DrawdownAt(eq, 0) else Min(Deepest(eq, n - 1), DrawdownAt(eq, n - 1))
  }

  function MaxDrawdownPct(eq: seq<real>): real {
    if eq == [] then 0.0 else Round(Deepest(eq, |eq|) * 100.0, 100.0)
  }

  lemma {:induction false} PeakMeaning(eq: seq<real>, j: nat)
    requires j < |eq|
    ensures forall i :: 0 <= i <= j ==> eq[i] <= Peak(eq, j)
    ensures exists i :: 0 <= i <= j && eq[i] == Peak(eq, j)
  {
    if j > 0 {
      PeakMeaning(eq, j - 1);
      var i :| 0 <= i <= j - 1 && eq[i] == Peak(eq, j - 1);
      assert Peak(eq, j) == eq[i] || Peak(eq, j) == eq[j];
    } else {
      assert eq[0] == Peak(eq, 0);
    }
  }

  lemma {:induction false} DeepestMeaning(eq: seq<real>, n: nat)
    requires 0 < n <= |eq|
    ensures forall j :: 0 <= j < n ==> Deepest(eq, n) <= DrawdownAt(eq, j)
    ensures exists j :: 0 <= j < n && Deepest(eq, n) == DrawdownAt(eq, j)
  {
    if n > 1 {
      DeepestMeaning(eq, n - 1);
      var j :| 0 <= j < n - 1 && Deepest(eq, n - 1) == DrawdownAt(eq, j);
      assert Deepest(eq, n) == DrawdownAt(eq, j) || Deepest(eq, n) == DrawdownAt(eq, n - 1);
    } else {
      assert Deepest(eq, 1) == DrawdownAt(eq, 0);
    }
  }

  function Fall(eq: seq<real>, i: nat, j: nat): real
    requires i <= j < |eq| && eq[i] != 0.0
  {
    (eq[j] - eq[i]) / eq[i]
  }

  /** For equity that starts above zero and never goes below it the running-peak drawdown is the
      smallest relative change from any positive point of the curve to any later one. */
  lemma DrawdownIsWorstFall(eq: seq<real>)
    requires eq != [] && eq[0] > 0.0 && forall k :: 0 <= k < |eq| ==> eq[k] >= 0.0
    ensures forall i, j :: 0 <= i <= j < |eq| && eq[i] > 0.0 ==> Deepest(eq, |eq|) <= Fall(eq, i, j)
    ensures exists i, j :: 0 <= i <= j < |eq| && eq[i] > 0.0 && Deepest(eq, |eq|) == Fall(eq, i, j)
  {
    DeepestMeaning(eq, |eq|);
    hide Deepest, DrawdownAt, Peak, Fall;
    forall i, j | 0 <= i <= j < |eq| && eq[i] > 0.0 ensures Deepest(eq, |eq|) <= Fall(eq, i, j) {
      PeakFallIff(eq, i, j);
    }
    var j :| 0 <= j < |eq| && Deepest(eq, |eq|) == DrawdownAt(eq, j);
    PeakMeaning(eq, j);
    var i :| 0 <= i <= j && eq[i] == Peak(eq, j);
    AtPeak(eq, i, j);
  }

  /** The reported percentage is that fall, up to its rounding: within half a hundredth of a percent
      of the fall between some two points, and below none by more than that. */
  lemma MaxDrawdownPctIsWorstFall(eq: seq<real>)
    requires eq != [] && eq[0] > 0.0 && forall k :: 0 <= k < |eq| ==> eq[k] >= 0.0
    ensures forall i, j :: 0 <= i <= j < |eq| && eq[i] > 0.0 ==> MaxDrawdownPct(eq) <= 100.0 * Fall(eq, i, j) + 0.005
    ensures exists i, j :: 0 <= i <= j < |eq| && eq[i] > 0.0 && Abs(MaxDrawdownPct(eq) - 100.0 * Fall(eq, i, j)) <= 0.005
  {
    DrawdownIsWorstFall(eq);
    CentsNear(Deepest(eq, |eq|) * 100.0);
    hide Deepest, Fall, Round;
    var i, j :| 0 <= i <= j < |eq| && eq[i] > 0.0 && Deepest(eq, |eq|) == Fall(eq, i, j);
    assert Abs(MaxDrawdownPct(eq) - 100.0 * Fall(eq, i, j)) <= 0.005;
  }

  /** A curve that is never above zero has no drawdown. */
  lemma {:induction false} NothingToFallFrom(eq: seq<real>, n: nat)
    requires 0 < n <= |eq| && forall k :: 0 <= k < |eq| ==> eq[k] <= 0.0
    ensures Deepest(eq, n) == 0.0
  {
    PeakMeaning(eq, n - 1);
    hide Peak;
    if n > 1 {
      NothingToFallFrom(eq, n - 1);
    }
  }

  /** Profits are whole cents, lots whole ten-thousandths, drawdowns whole hundredths of a percent. */
  lemma WholeUnits(c: Config, b: Ohlc, o: Open, bar: nat, high: real, low: real, equity: real, eq: seq<real>)
    requires b.SameLength()
    ensures ExitOn(o, bar, high, low).Some? ==> OnGrid(ExitOn(o, bar, high, low).value.pnl, 100.0)
    ensures 0 <= c.end < |b.closes| ==> OnGrid(ForcedClose(c, b, o).pnl, 100.0)
    ensures o.entry != o.sl ==> OnGrid(LotsFor(equity, c.riskPct, Abs(o.entry - o.sl)), 10000.0)
    ensures OnGrid(MaxDrawdownPct(eq), 100.0)
  {
    RoundOnGrid(Gain(o, o.sl), 100.0);
    RoundOnGrid(Gain(o, o.tp1), 100.0);
    RoundOnGrid(Gain(o, o.tp2), 100.0);
    if 0 <= c.end < |b.closes| { RoundOnGrid(Gain(o, b.closes[c.end]), 100.0); }
    if o.entry != o.sl { RoundOnGrid(Times(equity, c.riskPct) / Abs(o.entry - o.sl), 10000.0); }
    if eq != [] { RoundOnGrid(Deepest(eq, |eq|) * 100.0, 100.0); }
    ZeroOnGrid(100.0);
    hide Gain, Times, Deepest, Round, OnGrid;
  }

  lemma ZeroOnGrid(scale: real)
    ensures OnGrid(0.0, scale)
  {
  }

  /** The lowest positive value of the curve up to `j`; the first one is positive. */
  function Trough(eq: seq<real>, j: nat): real
    requires j < |eq|
  {
    if j == 0 then eq[0] else if eq[j] > 0.0 then Min(Trough(eq, j - 1), eq[j]) else Trough(eq, j - 1)
  }

  lemma {:induction false} TroughMeaning(eq: seq<real>, j: nat)
    requires j < |eq| && eq[0] > 0.0
    ensures Trough(eq, j) > 0.0 && forall i :: 0 <= i <= j && eq[i] > 0.0 ==> Trough(eq, j) <= eq[i]
    ensures exists i :: 0 <= i <= j && eq[i] > 0.0 && eq[i] == Trough(eq, j)
  {
    if j > 0 {
      TroughMeaning(eq, j - 1);
      var i :| 0 <= i <= j - 1 && eq[i] > 0.0 && eq[i] == Trough(eq, j - 1);
      assert Trough(eq, j) == eq[i] || (eq[j] > 0.0 && Trough(eq, j) == eq[j]);
    } else {
      assert eq[0] == Trough(eq, 0);
    }
  }

  /** Exactly when the drawdown of a whole curve is its worst fall: at every bar with negative
      equity it reaches the fall from the lowest positive value so far, which one pass over the
      curve decides. */
  lemma CurveDrawdownIff(eq: seq<real>)
    requires eq != [] && eq[0] > 0.0
    ensures (forall i, j :: 0 <= i <= j < |eq| && eq[i] > 0.0 ==> Deepest(eq, |eq|) <= Fall(eq, i, j))
            <==> forall j :: 0 <= j < |eq| && eq[j] < 0.0 ==> Deepest(eq, |eq|) <= FallFrom(Trough(eq, j), eq[j])
  {
    DeepestMeaning(eq, |eq|);
    hide Deepest, DrawdownAt, Peak, Trough;
    forall j | 0 <= j < |eq|
      ensures (forall i :: 0 <= i <= j && eq[i] > 0.0 ==> Deepest(eq, |eq|) <= Fall(eq, i, j))
              <==> (eq[j] < 0.0 ==> Deepest(eq, |eq|) <= FallFrom(Trough(eq, j), eq[j]))
    {
      BarFalls(eq, j, Deepest(eq, |eq|));
    }
  }

  function FallFrom(base: real, x: real): real { if base > 0.0 then (x - base) / base else 0.0 }

  lemma BarFalls(eq: seq<real>, j: nat, d: real)
    requires j < |eq| && eq[0] > 0.0 && d <= DrawdownAt(eq, j)
    ensures (forall i :: 0 <= i <= j && eq[i] > 0.0 ==> d <= Fall(eq, i, j))
            <==> (eq[j] < 0.0 ==> d <= FallFrom(Trough(eq, j), eq[j]))
  {
    TroughMeaning(eq, j);
    hide DrawdownAt, Peak, Trough;
    var low :| 0 <= low <= j && eq[low] > 0.0 && eq[low] == Trough(eq, j);
    assert Fall(eq, low, j) == FallFrom(Trough(eq, j), eq[j]);
    forall i | 0 <= i <= j && eq[i] > 0.0 ensures eq[j] >= 0.0 ==> d <= Fall(eq, i, j) {
      PeakFallIff(eq, i, j);
    }
    forall i | 0 <= i <= j && eq[i] > 0.0 ensures eq[j] < 0.0 ==> Fall(eq, low, j) <= Fall(eq, i, j) {
      if eq[j] < 0.0 { DeeperFromLower(eq[j], eq[low], eq[i]); }
    }
  }

  /** A loss below zero is relatively deepest from the lowest base. */
  lemma DeeperFromLower(x: real, y: real, z: real)
    requires x < 0.0 && 0.0 < y <= z
    ensures (x - y) / y <= (x - z) / z
  {
    LessOne(x, y);
    LessOne(x, z);
    Reciprocal(-x, y, z);
    assert -x / y == -(x / y) && -x / z == -(x / z);
  }

  /** Exactly when the drawdown at one bar is the worst fall into it: equity is not negative there,
      or every positive value before it equals the peak. */
  lemma BarDrawdownIff(eq: seq<real>, j: nat)
    requires j < |eq| && eq[0] > 0.0
    ensures (forall i :: 0 <= i <= j && eq[i] > 0.0 ==> DrawdownAt(eq, j) <= Fall(eq, i, j))
            <==> eq[j] >= 0.0 || forall i :: 0 <= i <= j && eq[i] > 0.0 ==> eq[i] == Peak(eq, j)
  {
    hide DrawdownAt, Peak, Fall;
    forall i | 0 <= i <= j && eq[i] > 0.0
      ensures DrawdownAt(eq, j) <= Fall(eq, i, j) <==> eq[j] >= 0.0 || eq[i] == Peak(eq, j)
    {
      PeakFallIff(eq, i, j);
    }
  }

  lemma AtPeak(eq: seq<real>, i: nat, j: nat)
    requires i <= j < |eq| && eq[i] == Peak(eq, j) && eq[i] > 0.0
    ensures DrawdownAt(eq, j) == Fall(eq, i, j)
  {
    hide Peak;
  }

  lemma PeakFallIff(eq: seq<real>, i: nat, j: nat)
    requires i <= j < |eq| && eq[i] > 0.0
    ensures DrawdownAt(eq, j) <= Fall(eq, i, j) <==> eq[j] >= 0.0 || eq[i] == Peak(eq, j)
  {
    PeakMeaning(eq, j);
    RelativeFallIff(eq[j], eq[i], Peak(eq, j));
    hide Peak;
  }

  lemma RelativeFallIff(x: real, y: real, peak: real)
    requires 0.0 < y <= peak
    ensures (x - peak) / peak <= (x - y) / y <==> x >= 0.0 || y == peak
  {
    LessOne(x, peak);
    LessOne(x, y);
    var p, q := x / peak, x / y;
    assert p * peak == x && q * y == x;
    if x >= 0.0 {
      Reciprocal(x, y, peak);
    } else if y < peak {
      DivMonotone(x, 0.0, peak);
      NegativeStretch(p, y, peak);
      StrictDiv(x, p * y, y);
      Quotients(p, y);
    }
  }

  lemma NegativeStretch(p: real, y: real, peak: real)
    requires p * peak < 0.0 && 0.0 < y < peak
    ensures p * peak < p * y
  {
    assert p < 0.0;
    assert p * (peak - y) < 0.0;
    assert p * (peak - y) == p * peak - p * y;
  }

  lemma StrictDiv(x: real, z: real, y: real)
    requires y > 0.0 && x < z
    ensures x / y < z / y
  {
  }

  lemma Quotients(p: real, y: real)
    requires y > 0.0
    ensures p * y / y == p
  {
  }

  lemma LessOne(x: real, y: real)
    requires y > 0.0
    ensures (x - y) / y == x / y - 1.0
  {
    var q := x / y;
    assert q * y == x;
    assert (q - 1.0) * y == x - y;
    Cancel((x - y) / y, q - 1.0, y);
  }

  lemma Cancel(a: real, b: real, y: real)
    requires y > 0.0 && a * y == b * y
    ensures a == b
  {
  }

  lemma Reciprocal(x: real, y: real, z: real)
    requires x >= 0.0 && 0.0 < y <= z
    ensures x / z <= x / y
  {
    DivMonotone(0.0, x, z);
    var q := x / z;
    assert q * z == x;
    NonNegativeStretch(q, y, z);
    DivMonotone(q * y, x, y);
    Quotients(q, y);
  }

  lemma NonNegativeStretch(q: real, y: real, z: real)
    requires q >= 0.0 && y <= z
    ensures q * y <= q * z
  {
  }

  /** It is needed that equity is never negative: once equity is negative, an earlier lower high gives a worse fall. */
  lemma NegativeEquityBreaksIt()
    ensures var eq := [1.0, 2.0, -1.0]; Deepest(eq, 3) == -1.5 && Fall(eq, 0, 2) == -2.0
  {
    var eq := [1.0, 2.0, -1.0];
    assert Peak(eq, 1) == 2.0 && Peak(eq, 2) == 2.0;
    assert Deepest(eq, 1) == 0.0 && Deepest(eq, 2) == 0.0;
  }
}
