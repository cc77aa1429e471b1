/** How a run of the rule-based simulator ends: the forced close that raises, and the early stop that
    reads the future (backtester/engine.py). */
module BacktestEndings {
  import opened BacktestEngine
  import opened Construction
  import opened Rounding
  import opened Wrappers

  // ---------------------------------------------------------------- lots that round to nothing

  /** Lots round to zero exactly when the amount at risk is at most half a ten-thousandth of the
      stop distance. */
  lemma LotsZeroIff(equity: real, riskPct: real, slDist: real)
    requires slDist > 0.0
    ensures LotsFor(equity, riskPct, slDist) == 0.0 <==> Abs(Times(equity, riskPct)) <= 0.00005 * slDist
  {
    var amount := Times(equity, riskPct);
    var q := amount / slDist;
    assert q * slDist == amount;
    RoundsToZeroIff(q * 10000.0);
    ZeroQuotient(RoundInt(q * 10000.0));
    AbsScale(q, slDist);
    ScaledBound(Abs(q), slDist);
    AbsScale(q, 10000.0);
  }

  lemma RoundsToZeroIff(x: real)
    ensures RoundInt(x) == 0 <==> Abs(x) <= 0.5
  {
  }

  lemma ZeroQuotient(n: int)
    ensures n as real / 10000.0 == 0.0 <==> n == 0
  {
  }

  lemma ScaledBound(x: real, s: real)
    requires s > 0.0
    ensures x * s <= 0.00005 * s <==> x <= 0.00005
  {
    if x > 0.00005 { Grows(0.00005, x, s); }
    if x <= 0.00005 && x < 0.00005 { Grows(x, 0.00005, s); }
  }

  lemma Grows(x: real, y: real, s: real)
    requires s > 0.0 && x < y
    ensures x * s < y * s
  {
    assert (y - x) * s > 0.0;
  }

  // ---------------------------------------------------------------- which runs crash

  /** An open trade is the one its signal gives on the equity its bar began with. */
  ghost predicate OpenedAs(c: Config, b: Ohlc, r: Run)
    requires b.SameLength()
  {
    r.open.Some? ==>
      var bar := r.open.value.bar;
      bar >= c.start && c.signal(bar).Signal? && r.open.value == OpenFor(c, After(c, b, bar - c.start).equity, bar, c.signal(bar))
  }

  lemma {:induction false} OpenedAsSignalled(c: Config, b: Ohlc, n: nat)
    requires b.SameLength()
    ensures OpenedAs(c, b, After(c, b, n))
  {
    hide LotsFor, ExitOn, Fee;
    if n > 0 {
      OpenedAsSignalled(c, b, n - 1);
      assert c.start + n - 1 - c.start == n - 1;
    }
  }

  /** A run crashes exactly when a trade is still open at its end, and either the range reaches
      beyond the data, or the amount put at risk when that trade was opened is at most half a
      ten-thousandth of its (positive) stop distance. */
  lemma CrashIff(c: Config, b: Ohlc)
    requires b.SameLength()
    ensures BacktestEngine.Finish(c, b).Crashed? <==>
      var o := After(c, b, Bars(c)).open;
      && o.Some? && o.value.bar >= c.start
      && (c.end >= |b.closes| || RiskTooSmall(c, After(c, b, o.value.bar - c.start).equity, o.value))
  {
    OpenedAsSignalled(c, b, Bars(c));
    var r := After(c, b, Bars(c));
    if r.open.Some? {
      var o := r.open.value;
      if o.entry != o.sl {
        LotsZeroIff(After(c, b, o.bar - c.start).equity, c.riskPct, Abs(o.entry - o.sl));
      }
      RangeNotEmpty(c, b);
    }
    hide After, LotsFor;
  }

  predicate RiskTooSmall(c: Config, equity: real, o: Open) {
    o.entry != o.sl && Abs(Times(equity, c.riskPct)) <= 0.00005 * Abs(o.entry - o.sl)
  }

  lemma RangeNotEmpty(c: Config, b: Ohlc)
    requires b.SameLength() && After(c, b, Bars(c)).open.Some?
    ensures c.end >= 0
  {
  }

  function TinyConfig(): Config {
    Config(0, 0, 10.0, 0.00001, 0.0, 0.0, _ => Answer.Signal(BUY, 100.0, 90.0, 110.0, 120.0), _ => false)
  }

  /** Ten units of equity, a thousandth of a percent at risk, a stop ten away: the trade is sized to
      nothing and the run, one bar long, raises. */
  lemma TinyRiskCrashes()
    ensures BacktestEngine.Finish(TinyConfig(), Ohlc([101.0], [99.0], [100.0])).Crashed?
  {
    var c, b := TinyConfig(), Ohlc([101.0], [99.0], [100.0]);
    TinyTrade();
    hide OpenFor;
    assert After(c, b, 0) == Begin(c) && Begin(c).equity == 10.0;
    assert After(c, b, 1) == BarStep(c, b, Begin(c), 0) == Enter(c, Begin(c), 0);
    hide After, BarStep, ForcedClose;
  }

  lemma TinyTrade()
    ensures var o := OpenFor(TinyConfig(), 10.0, 0, Answer.Signal(BUY, 100.0, 90.0, 110.0, 120.0));
            o.entry == 100.0 && o.sl == 90.0 && o.lots == 0.0
  {
    LotsZeroIff(10.0, 0.00001, 10.0);
    assert Times(10.0, 0.00001) == 0.0001;
    hide LotsFor, Times;
  }

  // ---------------------------------------------------------------- a condition under which none does

  /** What a caller knows of the signals: the stop is on the losing side of the fill and at most
      `reach` away (and at least `near`, where a commission is charged), the targets are on the
      winning side. */
  ghost predicate Sound(c: Config, near: real, reach: real) {
    forall bar: nat :: c.signal(bar).Signal? ==> SoundSignal(c, c.signal(bar), near, reach)
  }

  predicate SoundSignal(c: Config, s: Answer, near: real, reach: real)
    requires s.Signal?
  {
    var entry := if s.dir == BUY then s.entry + c.slip else s.entry - c.slip;
    && (if s.dir == BUY then s.sl < entry && entry <= s.tp1 && entry <= s.tp2
        else entry < s.sl && s.tp1 <= entry && s.tp2 <= entry)
    && Abs(entry - s.sl) <= reach && (c.commission > 0.0 ==> near <= Abs(entry - s.sl))
  }

  /** The share of equity that one stopped trade costs at most: the risk, and the commission on the
      lots that a stop `near` away would give. */
  function Share(c: Config, near: real): real
    requires near > 0.0
  {
    c.riskPct + if c.commission > 0.0 then Times(c.riskPct / near, c.commission) else 0.0
  }

  /** What rounding may add to it. */
  function Slack(c: Config, reach: real): real {
    0.005 + 0.00005 * reach + if c.commission > 0.0 then 0.00005 * c.commission else 0.0
  }

  /** The equity left after `n` trades if each of them is stopped out and every rounding goes
      against us. */
  function Floor(c: Config, near: real, reach: real, n: nat): real
    requires near > 0.0
  {
    if n == 0 then c.balance else Times(Floor(c, near, reach, n - 1), 1.0 - Share(c, near)) - Slack(c, reach)
  }

  /** A start that can afford a worst case of one losing trade a bar, commissions included. */
  predicate Funded(c: Config, near: real, reach: real) {
    && near > 0.0 && reach >= 0.0 && 0.0 < c.riskPct && Share(c, near) <= 1.0
    && Floor(c, near, reach, Bars(c)) >= 0.0 && Times(Floor(c, near, reach, Bars(c)), c.riskPct) > 0.00005 * reach
  }

  lemma ShareBounds(c: Config, near: real, reach: real)
    requires near > 0.0 && reach >= 0.0 && 0.0 < c.riskPct
    ensures Share(c, near) >= c.riskPct && Slack(c, reach) > 0.0
  {
    if c.commission > 0.0 {
      DivMonotone(0.0, c.riskPct, near);
      TimesSign(c.riskPct / near, c.commission);
    }
  }

  /** The floor of a funded start falls with every trade and stays above zero. */
  lemma {:induction false} FloorFalls(c: Config, near: real, reach: real, n: nat, m: nat)
    requires near > 0.0 && reach >= 0.0 && 0.0 < c.riskPct && Share(c, near) <= 1.0 && n <= m
    requires Floor(c, near, reach, m) >= 0.0
    ensures Floor(c, near, reach, n) >= Floor(c, near, reach, m)
    decreases m - n
  {
    if n < m {
      ShareBounds(c, near, reach);
      FloorStep(Floor(c, near, reach, m - 1), Share(c, near), Slack(c, reach));
      FloorFalls(c, near, reach, n, m - 1);
    }
  }

  /** What is left is not negative only if there was more before. */
  lemma FloorStep(x: real, share: real, slack: real)
    requires 0.0 < share <= 1.0 && slack > 0.0 && Times(x, 1.0 - share) - slack >= 0.0
    ensures x >= Times(x, 1.0 - share) - slack && x >= 0.0
  {
    assert Times(x, 1.0 - share) == x - Times(x, share);
    if x < 0.0 {
      NegativeProduct(x, 1.0 - share);
    } else {
      TimesSign(x, share);
    }
  }

  lemma NegativeProduct(x: real, y: real)
    requires x < 0.0 && y >= 0.0
    ensures Times(x, y) <= 0.0
  {
  }

  /** The commission on a trade is at most its share of the equity, up to the rounding of the lots. */
  lemma FeeBound(c: Config, equity: real, near: real, dist: real)
    requires equity >= 0.0 && 0.0 < c.riskPct && near > 0.0 && dist > 0.0 && (c.commission > 0.0 ==> near <= dist)
    ensures Fee(c, LotsFor(equity, c.riskPct, dist))
            <= Times(equity, Share(c, near) - c.riskPct) + (if c.commission > 0.0 then 0.00005 * c.commission else 0.0)
  {
    if c.commission > 0.0 {
      var most := Times(equity, c.riskPct) / near;
      LotsAtMost(equity, c.riskPct, near, dist);
      TimesMonotone(LotsFor(equity, c.riskPct, dist), most + 0.00005, c.commission);
      Regrouped(equity, c.riskPct, near, c.commission);
      TimesSum(most, 0.00005, c.commission);
      hide LotsFor, Times;
    } else {
      hide LotsFor;
    }
  }

  lemma TimesSum(x: real, y: real, s: real)
    ensures Times(x + y, s) == Times(x, s) + y * s
  {
  }

  lemma LotsAtMost(equity: real, riskPct: real, near: real, dist: real)
    requires equity >= 0.0 && riskPct > 0.0 && 0.0 < near <= dist
    ensures LotsFor(equity, riskPct, dist) <= Times(equity, riskPct) / near + 0.00005
  {
    var amount := Times(equity, riskPct);
    TimesSign(equity, riskPct);
    RoundNear(amount / dist, 10000.0);
    BacktestEngine.Reciprocal(amount, near, dist);
    hide Round, Times;
  }

  lemma Regrouped(equity: real, r: real, near: real, fee: real)
    requires near > 0.0
    ensures Times(Times(equity, r) / near, fee) == Times(equity, Times(r / near, fee))
  {
    var q := r / near;
    assert q * near == r;
    assert equity * r == equity * q * near;
    SameQuotient(equity * q, near);
  }

  lemma SameQuotient(x: real, y: real)
    requires y > 0.0
    ensures x * y / y == x
  {
  }

  /** One stopped trade opened at or above the floor leaves the next floor. */
  lemma FloorAfterLoss(c: Config, equity: real, floor: real, near: real, reach: real, fee: real, pnl: real, dist: real)
    requires near > 0.0 && 0.0 < c.riskPct && Share(c, near) <= 1.0 && equity >= floor && 0.0 <= dist <= reach
    requires Abs(pnl + Times(equity, c.riskPct)) <= 0.005 + 0.00005 * dist
    requires fee <= Times(equity, Share(c, near) - c.riskPct) + (if c.commission > 0.0 then 0.00005 * c.commission else 0.0)
    ensures equity - fee + pnl >= Times(floor, 1.0 - Share(c, near)) - Slack(c, reach)
  {
    var share := Share(c, near);
    assert equity - Times(equity, c.riskPct) - Times(equity, share - c.riskPct) == Times(equity, 1.0 - share);
    TimesMonotone(floor, equity, 1.0 - share);
  }

  /** A won trade only loses its commission. */
  lemma FloorAfterWin(c: Config, equity: real, floor: real, near: real, reach: real, fee: real, pnl: real)
    requires near > 0.0 && reach >= 0.0 && 0.0 < c.riskPct && Share(c, near) <= 1.0 && equity >= floor && equity >= 0.0 && pnl >= 0.0
    requires fee <= Times(equity, Share(c, near) - c.riskPct) + (if c.commission > 0.0 then 0.00005 * c.commission else 0.0)
    ensures equity - fee + pnl >= Times(floor, 1.0 - Share(c, near)) - Slack(c, reach)
  {
    var share := Share(c, near);
    TimesSign(equity, c.riskPct);
    assert equity - Times(equity, c.riskPct) - Times(equity, share - c.riskPct) == Times(equity, 1.0 - share);
    TimesMonotone(floor, equity, 1.0 - share);
  }

  /** The open trade was sized on an equity above the floor, of which only its commission is gone. */
  ghost predicate SizedOn(c: Config, r: Run, equity: real, bar: nat) {
    r.open.Some? && c.signal(bar).Signal? && r.open.value == OpenFor(c, equity, bar, c.signal(bar))
    && r.equity == equity - Fee(c, r.open.value.lots)
  }

  /** Along a funded run equity stays above the floor, but for the commission of the open trade. */
  ghost predicate AboveFloor(c: Config, r: Run, near: real, reach: real, n: nat)
    requires near > 0.0
  {
    if r.open.None? then r.equity >= Floor(c, near, reach, n)
    else exists equity: real, bar: nat :: equity >= Floor(c, near, reach, n) && SizedOn(c, r, equity, bar)
  }

  lemma {:induction false} StaysAboveFloor(c: Config, b: Ohlc, near: real, reach: real, n: nat)
    requires b.SameLength() && Sound(c, near, reach) && Funded(c, near, reach) && n <= Bars(c)
    ensures AboveFloor(c, After(c, b, n), near, reach, n)
  {
    hide AboveFloor, BarStep, Sound, Floor, Share;
    if n == 0 {
      BeginsAtFloor(c, near, reach);
    } else {
      StaysAboveFloor(c, b, near, reach, n - 1);
      FloorBar(c, b, After(c, b, n - 1), c.start + n - 1, near, reach, n - 1);
    }
  }

  lemma BeginsAtFloor(c: Config, near: real, reach: real)
    requires near > 0.0
    ensures AboveFloor(c, Begin(c), near, reach, 0)
  {
  }

  lemma FloorBar(c: Config, b: Ohlc, r: Run, bar: nat, near: real, reach: real, n: nat)
    requires b.SameLength() && Sound(c, near, reach) && Funded(c, near, reach) && n < Bars(c) && AboveFloor(c, r, near, reach, n)
    ensures AboveFloor(c, BarStep(c, b, r, bar), near, reach, n + 1)
  {
    FloorFalls(c, near, reach, n + 1, Bars(c));
    FloorFalls(c, near, reach, n, n + 1);
    hide Floor, Share, LotsFor, ExitOn, Times, Fee;
    if r.open.Some? {
      var equity: real, at: nat :| equity >= Floor(c, near, reach, n) && SizedOn(c, r, equity, at);
      if !Ended(r) && !c.stop(bar) && bar < |b.closes| {
        FloorExit(c, r, equity, at, bar, b.highs[bar], b.lows[bar], near, reach, n);
      }
      assert BarStep(c, b, r, bar).open.Some? ==> SizedOn(c, BarStep(c, b, r, bar), equity, at);
    } else if !Ended(r) && !c.stop(bar) && c.signal(bar).Signal? {
      assert SizedOn(c, Enter(c, r, bar), r.equity, bar);
    }
  }

  lemma FloorExit(c: Config, r: Run, equity: real, at: nat, bar: nat, high: real, low: real, near: real, reach: real, n: nat)
    requires Sound(c, near, reach) && Funded(c, near, reach) && n < Bars(c)
    requires equity >= Floor(c, near, reach, n) && SizedOn(c, r, equity, at)
    ensures var t := ExitOn(r.open.value, bar, high, low);
            t.Some? ==> r.equity + t.value.pnl >= Floor(c, near, reach, n + 1)
  {
    var o, s := r.open.value, c.signal(at);
    var dist, floor := Abs(o.entry - o.sl), Floor(c, near, reach, n);
    assert SoundSignal(c, s, near, reach);
    FloorFalls(c, near, reach, n + 1, Bars(c));
    FloorFalls(c, near, reach, n, n + 1);
    LotsNotNegative(equity, c.riskPct, dist);
    FeeBound(c, equity, near, dist);
    ExitMeaning(o, bar, high, low);
    ExitSign(o, bar, high, low);
    assert Floor(c, near, reach, n + 1) == Times(floor, 1.0 - Share(c, near)) - Slack(c, reach);
    hide ExitOn, Sound, LotsFor, Times, Floor, Share, Slack, Fee;
    var t := ExitOn(o, bar, high, low);
    if StopTouched(o, high, low) {
      StopCostsTheRisk(c, equity, at, s, bar, high, low);
      FloorAfterLoss(c, equity, floor, near, reach, Fee(c, o.lots), t.value.pnl, dist);
    } else if t.Some? {
      FloorAfterWin(c, equity, floor, near, reach, Fee(c, o.lots), t.value.pnl);
    }
  }

  lemma LotsNotNegative(equity: real, riskPct: real, dist: real)
    requires equity >= 0.0 && riskPct >= 0.0
    ensures LotsFor(equity, riskPct, dist) >= 0.0
  {
    TimesSign(equity, riskPct);
    if dist > 0.0 {
      DivMonotone(0.0, Times(equity, riskPct), dist);
      RoundMonotone(0.0, Times(equity, riskPct) / dist, 10000.0);
      assert Round(0.0, 10000.0) == 0.0;
    }
  }

  /** A funded start with sound signals never crashes, whatever the prices do and whenever it is
      stopped, as long as its range lies within the data. */
  lemma FundedNeverCrashes(c: Config, b: Ohlc, near: real, reach: real)
    requires b.SameLength() && Sound(c, near, reach) && Funded(c, near, reach) && c.end < |b.closes|
    ensures BacktestEngine.Finish(c, b).Finished?
  {
    var r, n := After(c, b, Bars(c)), Bars(c);
    StaysAboveFloor(c, b, near, reach, n);
    if r.open.Some? {
      RangeNotEmpty(c, b);
      var equity: real, at: nat :| equity >= Floor(c, near, reach, n) && SizedOn(c, r, equity, at);
      var o := r.open.value;
      assert SoundSignal(c, c.signal(at), near, reach);
      TimesMonotone(Floor(c, near, reach, n), equity, c.riskPct);
      LotsZeroIff(equity, c.riskPct, Abs(o.entry - o.sl));
    }
    hide After, Floor, Share, LotsFor, Times;
  }

  lemma TimesMonotone(x: real, y: real, s: real)
    requires x <= y && s >= 0.0
    ensures Times(x, s) <= Times(y, s)
  {
  }

  // ---------------------------------------------------------------- the early stop

  /** The run is stopped at the `k`-th bar of its range, having come that far. */
  predicate StopsAt(c: Config, b: Ohlc, k: nat)
    requires b.SameLength()
  {
    k < Bars(c) && !Ended(After(c, b, k)) && c.stop(c.start + k)
  }

  /** The two series have the same length and agree on all bars before `n`. */
  predicate SameBefore(a: Ohlc, b: Ohlc, n: nat)
    requires a.SameLength() && b.SameLength()
  {
    |a.closes| == |b.closes| && forall i :: 0 <= i < n && i < |a.closes| ==> a.highs[i] == b.highs[i] && a.lows[i] == b.lows[i]
  }

  lemma {:induction false} AfterCausal(c: Config, a: Ohlc, b: Ohlc, n: nat)
    requires a.SameLength() && b.SameLength() && SameBefore(a, b, c.start + n)
    ensures After(c, a, n) == After(c, b, n)
  {
    hide ExitOn, Enter, Close;
    if n > 0 {
      AfterCausal(c, a, b, n - 1);
    }
  }

  lemma StoppedThere(c: Config, a: Ohlc, b: Ohlc, k: nat)
    requires a.SameLength() && b.SameLength() && SameBefore(a, b, c.start + k) && StopsAt(c, a, k)
    ensures After(c, a, Bars(c)) == After(c, a, k).(stopped := true) && After(c, b, Bars(c)) == After(c, a, Bars(c))
  {
    hide ExitOn, Enter, Close, SameBefore;
    AfterCausal(c, a, b, k);
    assert After(c, a, k + 1) == After(c, a, k).(stopped := true);
    assert After(c, b, k + 1) == After(c, b, k).(stopped := true);
    EndedStays(c, a, k + 1, Bars(c));
    EndedStays(c, b, k + 1, Bars(c));
  }

  /** An early stop reads the future: two series that are the same on every bar before the stop
      give different results exactly if a trade is open there whose close does not raise and the
      last closes of the range differ; and they give different final equity exactly if besides the
      rounded gains at those two closes differ. */
  lemma EarlyStopPricesAtTheEnd(c: Config, a: Ohlc, b: Ohlc, k: nat)
    requires a.SameLength() && b.SameLength() && SameBefore(a, b, c.start + k) && StopsAt(c, a, k)
    ensures var open := After(c, a, k).open;
            && (BacktestEngine.Finish(c, a).Crashed? <==> BacktestEngine.Finish(c, b).Crashed?)
            && (BacktestEngine.Finish(c, a) != BacktestEngine.Finish(c, b) <==>
                  open.Some? && 0 <= c.end < |a.closes| && !CloseFails(c, a, open.value) && a.closes[c.end] != b.closes[c.end])
            && (BacktestEngine.Finish(c, a).Finished? ==>
                  (BacktestEngine.Finish(c, a).run.equity != BacktestEngine.Finish(c, b).run.equity <==>
                     open.Some? && 0 <= c.end < |a.closes| && open.value.entry != open.value.sl
                     && Cents(Gain(open.value, a.closes[c.end])) != Cents(Gain(open.value, b.closes[c.end]))))
  {
    StoppedThere(c, a, b, k);
    var r := After(c, a, Bars(c));
    if r.open.Some? {
      RangeNotEmpty(c, a);
      var o := r.open.value;
      if !CloseFails(c, a, o) {
        TradesDiffer(r, ForcedClose(c, a, o), ForcedClose(c, b, o));
      }
    }
    hide After, Cents, Gain, Close;
  }

  /** Two closing trades that differ give different runs. */
  lemma TradesDiffer(r: Run, t: Trade, u: Trade)
    ensures Close(r, t) == Close(r, u) <==> t == u
    ensures Close(r, t).equity == Close(r, u).equity <==> t.pnl == u.pnl
  {
    if Close(r, t) == Close(r, u) {
      assert (r.trades + [t])[|r.trades|] == (r.trades + [u])[|r.trades|];
    }
  }

  function StoppedConfig(): Config {
    Config(0, 2, 10000.0, 0.01, 0.0, 0.0,
           bar => if bar == 0 then Answer.Signal(BUY, 100.0, 90.0, 200.0, 300.0) else NoSignal, bar => bar == 1)
  }

  /** A run stopped at bar 1 books 100 or 200 depending on the close of bar 2. */
  lemma EarlyStopReadsTheFuture()
    ensures var a, b := Ohlc([101.0, 101.0, 130.0], [99.0, 99.0, 99.0], [100.0, 100.0, 110.0]),
                        Ohlc([101.0, 101.0, 130.0], [99.0, 99.0, 99.0], [100.0, 100.0, 120.0]);
            && StopsAt(StoppedConfig(), a, 1) && StopsAt(StoppedConfig(), b, 1)
            && BacktestEngine.Finish(StoppedConfig(), a).Finished? && BacktestEngine.Finish(StoppedConfig(), b).Finished?
            && BacktestEngine.Finish(StoppedConfig(), a).run.equity == 10100.0
            && BacktestEngine.Finish(StoppedConfig(), b).run.equity == 10200.0
  {
    var c := StoppedConfig();
    var a, b := Ohlc([101.0, 101.0, 130.0], [99.0, 99.0, 99.0], [100.0, 100.0, 110.0]),
                Ohlc([101.0, 101.0, 130.0], [99.0, 99.0, 99.0], [100.0, 100.0, 120.0]);
    TenLots();
    var o := Open(0, BUY, 100.0, 90.0, 200.0, 300.0, 10.0);
    assert OpenFor(c, 10000.0, 0, c.signal(0)) == o;
    assert After(c, a, 0) == Begin(c) && After(c, b, 0) == Begin(c);
    assert After(c, a, 1) == BarStep(c, a, Begin(c), 0) && After(c, b, 1) == BarStep(c, b, Begin(c), 0);
    StoppedThere(c, a, b, 1);
    assert Gain(o, 110.0) == 100.0 && Gain(o, 120.0) == 200.0;
    assert Cents(100.0) == 100.0 && Cents(200.0) == 200.0;
  }

  lemma TenLots()
    ensures LotsFor(10000.0, 0.01, 10.0) == 10.0
  {
    assert Times(10000.0, 0.01) == 100.0;
  }
}
