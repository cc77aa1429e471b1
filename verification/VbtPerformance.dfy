/** The second pass of the simulator: pairing the flags, re-deriving outcomes, compounding the
    balance (backtester/vbt_engine.py). */
module VbtPerformance {
  import opened Construction
  import opened Indicators
  import opened Rounding
  import opened VbtEngine
  import opened Wrappers

  // ---------------------------------------------------------------- pairing

  /** The indices below `n` whose flag is set, in order. */
  function Where(flags: seq<bool>, n: nat): seq<nat>
    requires n <= |flags|
  {
    if n == 0 then [] else Where(flags, n - 1) + if flags[n - 1] then [n - 1] else []
  }

  /** The first exit position at or after `j` that lies behind `entry`. */
  function Skip(xs: seq<nat>, j: nat, entry: nat): nat
    requires j <= |xs|
    ensures j <= Skip(xs, j, entry) <= |xs|
    decreases |xs| - j
  {
    if j < |xs| && xs[j] <= entry then Skip(xs, j + 1, entry) else j
  }

  function PairFrom(es: seq<nat>, xs: seq<nat>, j: nat): seq<(nat, nat)>
    requires j <= |xs|
  {
    if es == [] then []
    else
      var k := Skip(xs, j, es[0]);
      if k < |xs| then [(es[0], xs[k])] + PairFrom(es[1..], xs, k + 1) else PairFrom(es[1..], xs, k)
  }

  /** Skipping passes over exactly the exits up to the entry. */
  lemma {:induction false} SkipMeaning(xs: seq<nat>, j: nat, entry: nat)
    requires j <= |xs|
    ensures var k := Skip(xs, j, entry);
            (forall i :: j <= i < k ==> xs[i] <= entry) && (k < |xs| ==> entry < xs[k])
    decreases |xs| - j
  {
    if j < |xs| && xs[j] <= entry {
      SkipMeaning(xs, j + 1, entry);
    }
  }

  /** Whatever the flags, an entry is paired with the first exit behind it that no earlier entry has
      taken, and an entry for which none is left with none. */
  lemma PairingMeaning(es: seq<nat>, xs: seq<nat>, j: nat)
    requires j <= |xs| && es != []
    ensures
      || (exists k :: j <= k < |xs| && es[0] < xs[k] && (forall i :: j <= i < k ==> xs[i] <= es[0])
            && PairFrom(es, xs, j) == [(es[0], xs[k])] + PairFrom(es[1..], xs, k + 1))
      || ((forall i :: j <= i < |xs| ==> xs[i] <= es[0]) && PairFrom(es, xs, j) == PairFrom(es[1..], xs, |xs|))
  {
    SkipMeaning(xs, j, es[0]);
    var k := Skip(xs, j, es[0]);
    assert PairFrom(es, xs, j) == if k < |xs| then [(es[0], xs[k])] + PairFrom(es[1..], xs, k + 1) else PairFrom(es[1..], xs, k);
    hide Skip, PairFrom;
  }

  /** Every pair is an entry with a later exit. */
  lemma {:induction false} PairsGoForward(es: seq<nat>, xs: seq<nat>, j: nat)
    requires j <= |xs|
    ensures forall p :: p in PairFrom(es, xs, j) ==> p.0 in es && p.1 in xs && p.0 < p.1
  {
    if es != [] {
      SkipMeaning(xs, j, es[0]);
      var k := Skip(xs, j, es[0]);
      hide Skip;
      PairsGoForward(es[1..], xs, if k < |xs| then k + 1 else k);
    }
  }

  method PairTrades(es: seq<nat>, xs: seq<nat>) returns (pairs: seq<(nat, nat)>)
    ensures pairs == PairFrom(es, xs, 0)
  {
    pairs := [];
    var j := 0;
    for i := 0 to |es|
      invariant 0 <= j <= |xs|
      invariant pairs + PairFrom(es[i..], xs, j) == PairFrom(es, xs, 0)
    {
      assert es[i..][0] == es[i] && es[i..][1..] == es[i + 1..];
      ghost var was := j;
      while j < |xs| && xs[j] <= es[i]
        invariant was <= j <= |xs| && Skip(xs, j, es[i]) == Skip(xs, was, es[i])
      {
        j := j + 1;
      }
      if j < |xs| {
        pairs := pairs + [(es[i], xs[j])];
        j := j + 1;
      }
    }
  }

  /** Entries and exits take turns, an entry first, and at most one entry is left open. */
  predicate TakeTurns(es: seq<nat>, xs: seq<nat>) {
    && |xs| <= |es| <= |xs| + 1
    && (forall k :: 0 <= k < |xs| ==> es[k] < xs[k])
    && (forall k :: 0 <= k < |xs| && k + 1 < |es| ==> xs[k] < es[k + 1])
  }

  function Zip(es: seq<nat>, xs: seq<nat>): seq<(nat, nat)>
    requires |xs| <= |es|
  {
    seq(|xs|, k requires 0 <= k < |xs| => (es[k], xs[k]))
  }

  /** Pairing entries and exits that take turns gives the k-th entry with the k-th exit. */
  lemma {:induction false} PairingIsZip(es: seq<nat>, xs: seq<nat>, j: nat)
    requires j <= |xs| && j <= |es| && TakeTurns(es, xs)
    ensures PairFrom(es[j..], xs, j) == Zip(es, xs)[j..]
    decreases |es| - j
  {
    if j < |es| {
      assert es[j..][0] == es[j] && es[j..][1..] == es[j + 1..];
      if j < |xs| {
        assert Skip(xs, j, es[j]) == j;
        PairingIsZip(es, xs, j + 1);
      }
    }
  }

  // ---------------------------------------------------------------- the flags of a run take turns

  function Entries(c: Config, b: Bars, n: nat): seq<nat>
    requires b.SameLength() && ValidPeriods(c) && n <= |b.closes|
  {
    if n == 0 then [] else Entries(c, b, n - 1) + if MarkAt(c, b, n - 1).Enter? then [n - 1] else []
  }

  function Exits(c: Config, b: Bars, n: nat): seq<nat>
    requires b.SameLength() && ValidPeriods(c) && n <= |b.closes|
  {
    if n == 0 then [] else Exits(c, b, n - 1) + if MarkAt(c, b, n - 1).Exit? then [n - 1] else []
  }

  /** The k-th exit closes the trade that the k-th entry opened. */
  ghost predicate Matches(c: Config, b: Bars, es: seq<nat>, xs: seq<nat>, n: nat)
    requires b.SameLength() && ValidPeriods(c) && n <= |b.closes| && |xs| <= |es|
  {
    && (forall k :: 0 <= k < |es| ==> es[k] < n && MarkAt(c, b, es[k]).Enter?)
    && (forall k :: 0 <= k < |xs| ==> xs[k] < n && MarkAt(c, b, xs[k]).Exit? && OpenAt(c, b, xs[k]) == Some(MarkAt(c, b, es[k])))
  }

  /** `es` and `xs` are legitimate entries and exits up to bar `n`. */
  ghost predicate Alternate(c: Config, b: Bars, es: seq<nat>, xs: seq<nat>, n: nat)
    requires b.SameLength() && ValidPeriods(c) && n <= |b.closes|
  {
    && TakeTurns(es, xs) && Matches(c, b, es, xs, n)
    && OpenAt(c, b, n) == if |es| > |xs| then Some(MarkAt(c, b, es[|es| - 1])) else None
  }

  /** Entries and exits strictly alternate over every run without an exception, and a trailing
      entry is the trade still open. */
  lemma {:induction false} FlagsTakeTurns(c: Config, b: Bars, n: nat)
    requires b.SameLength() && ValidPeriods(c) && n <= |b.closes|
    requires forall i :: 0 <= i < n ==> MarkAt(c, b, i) != Failed
    ensures Alternate(c, b, Entries(c, b, n), Exits(c, b, n), n)
  {
    hide MarkAt, OpenAt, Alternate;
    if n == 0 {
      AlternateNone(c, b);
    } else {
      FlagsTakeTurns(c, b, n - 1);
      var es, xs, m := Entries(c, b, n - 1), Exits(c, b, n - 1), MarkAt(c, b, n - 1);
      assert Entries(c, b, n) == if m.Enter? then es + [n - 1] else es;
      assert Exits(c, b, n) == if m.Exit? then xs + [n - 1] else xs;
      if m.Enter? {
        EntryAlternates(c, b, es, xs, n - 1);
      } else if m.Exit? {
        ExitAlternates(c, b, es, xs, n - 1);
      } else {
        QuietAlternates(c, b, es, xs, n - 1);
      }
    }
  }

  lemma AlternateNone(c: Config, b: Bars)
    requires b.SameLength() && ValidPeriods(c)
    ensures Alternate(c, b, [], [], 0)
  {
  }

  lemma EntryAlternates(c: Config, b: Bars, es: seq<nat>, xs: seq<nat>, i: nat)
    requires b.SameLength() && ValidPeriods(c) && i < |b.closes| && Alternate(c, b, es, xs, i) && MarkAt(c, b, i).Enter?
    ensures Alternate(c, b, es + [i], xs, i + 1)
  {
    hide MarkAt, OpenAt;
    LastBar(c, b, i);
  }

  lemma ExitAlternates(c: Config, b: Bars, es: seq<nat>, xs: seq<nat>, i: nat)
    requires b.SameLength() && ValidPeriods(c) && i < |b.closes| && Alternate(c, b, es, xs, i) && MarkAt(c, b, i).Exit?
    ensures Alternate(c, b, es, xs + [i], i + 1)
  {
    hide MarkAt, OpenAt, TakeTurns, Matches;
    LastBar(c, b, i);
    OpenMeansOneMore(c, b, es, xs, i);
    AnotherExit(es, xs, i, c, b);
  }

  lemma OpenMeansOneMore(c: Config, b: Bars, es: seq<nat>, xs: seq<nat>, i: nat)
    requires b.SameLength() && ValidPeriods(c) && i < |b.closes| && Alternate(c, b, es, xs, i) && OpenAt(c, b, i).Some?
    ensures |es| == |xs| + 1 && es[|xs|] < i
  {
    hide MarkAt, OpenAt;
  }

  lemma AnotherExit(es: seq<nat>, xs: seq<nat>, i: nat, c: Config, b: Bars)
    requires b.SameLength() && ValidPeriods(c) && i < |b.closes| && TakeTurns(es, xs) && Matches(c, b, es, xs, i)
    requires |es| == |xs| + 1 && MarkAt(c, b, i).Exit? && es[|xs|] < i && OpenAt(c, b, i) == Some(MarkAt(c, b, es[|es| - 1]))
    ensures TakeTurns(es, xs + [i]) && Matches(c, b, es, xs + [i], i + 1)
  {
    hide MarkAt, OpenAt;
  }

  lemma QuietAlternates(c: Config, b: Bars, es: seq<nat>, xs: seq<nat>, i: nat)
    requires b.SameLength() && ValidPeriods(c) && i < |b.closes| && Alternate(c, b, es, xs, i) && MarkAt(c, b, i).Quiet?
    ensures Alternate(c, b, es, xs, i + 1)
  {
    hide MarkAt, OpenAt;
    LastBar(c, b, i);
  }

  lemma LastBar(c: Config, b: Bars, i: nat)
    requires b.SameLength() && ValidPeriods(c) && i < |b.closes|
    ensures var o, m := OpenAt(c, b, i), MarkAt(c, b, i);
            && (m != Failed ==> OpenAt(c, b, i + 1) == if m.Enter? then Some(m) else if m.Quiet? then o else None)
            && (m.Enter? ==> o.None?) && (m.Exit? ==> o.Some?)
  {
    if i >= Lookback(c) {
      BarStep(c, b, i);
    } else {
      assert OpenAt(c, b, i).None?;
    }
    AttemptNeverExits(c, b, i);
    hide Attempt, ViewAt;
  }

  lemma AttemptNeverExits(c: Config, b: Bars, i: nat)
    requires b.SameLength() && ValidPeriods(c) && i < |b.closes|
    ensures OpenAt(c, b, i).Some? ==> !MarkAt(c, b, i).Enter?
  {
  }

  lemma {:induction false} WhereIs(f: Flags, c: Config, b: Bars, n: nat)
    requires b.SameLength() && ValidPeriods(c) && n <= |b.closes| && Records(f, c, b, |b.closes|)
    ensures Where(f.entries, n) == Entries(c, b, n) && Where(f.exits, n) == Exits(c, b, n)
  {
    if n > 0 {
      WhereIs(f, c, b, n - 1);
      assert RecordsBar(f, MarkAt(c, b, n - 1), n - 1);
    }
  }

  /** The two passes agree: the pairing of a run's flags is the k-th entry with the k-th exit; the
      loss re-derived from the exit bar is the stop the loop saw first; and a trade that is not a
      loss really reached its target on that bar. */
  lemma TwoPassesAgree(c: Config, b: Bars, f: Flags, k: nat)
    requires b.SameLength() && ValidPeriods(c) && Records(f, c, b, |b.closes|)
    requires forall i :: 0 <= i < |b.closes| ==> MarkAt(c, b, i) != Failed
    ensures var es, xs := Where(f.entries, |b.closes|), Where(f.exits, |b.closes|);
            && TakeTurns(es, xs) && PairFrom(es, xs, 0) == Zip(es, xs)
            && (k < |xs| ==>
                  && es[k] < xs[k] < |b.closes|
                  && OpenAt(c, b, xs[k]) == Some(MarkAt(c, b, es[k])) && MarkAt(c, b, es[k]).Enter?
                  && SettledAs(ClosedTrade(f, b, es[k], xs[k]), MarkAt(c, b, es[k]), b.highs[xs[k]], b.lows[xs[k]]))
  {
    hide Where, OpenAt, MarkAt, PairFrom;
    var n := |b.closes|;
    WhereIs(f, c, b, n);
    FlagsTakeTurns(c, b, n);
    var es, xs := Where(f.entries, n), Where(f.exits, n);
    PairingIsZip(es, xs, 0);
    assert es[0..] == es && Zip(es, xs)[0..] == Zip(es, xs);
    if k < |xs| {
      assert RecordsBar(f, MarkAt(c, b, es[k]), es[k]);
      ExitMeansHit(c, b, xs[k]);
    }
  }

  /** A trade settled at the prices of its entry: lost exactly if the exit bar reaches its stop, and
      otherwise that bar reaches its target. */
  predicate SettledAs(t: Closed, m: Mark, high: real, low: real)
    requires m.Enter?
  {
    && t.price == m.price && t.sl == m.sl && t.tp == m.tp
    && (t.lost <==> if m.dir == BUY then low <= m.sl else high >= m.sl)
    && (!t.lost ==> if m.dir == BUY then high >= m.tp else low <= m.tp)
  }

  lemma ExitMeansHit(c: Config, b: Bars, i: nat)
    requires b.SameLength() && ValidPeriods(c) && i < |b.closes| && MarkAt(c, b, i).Exit?
    ensures OpenAt(c, b, i).Some? && OpenAt(c, b, i).value.Enter?
    ensures StopHit(OpenAt(c, b, i).value, b.highs[i], b.lows[i]) || TargetHit(OpenAt(c, b, i).value, b.highs[i], b.lows[i])
  {
    BarStep(c, b, i);
  }

  /** The second pass looks only at the stop. */
  predicate BookedLoss(f: Flags, entry: nat, high: real, low: real)
    requires entry < |f.dirs| && entry < |f.sls|
  {
    if f.dirs[entry] == 1 then low <= f.sls[entry] else high >= f.sls[entry]
  }

  // ---------------------------------------------------------------- sizing and equity

  datatype Account = Account(pip: real, pipValue: real, minLot: real, maxLot: real, riskPct: real)

  predicate ValidAccount(a: Account) { a.pip > 0.0 && a.pipValue > 0.0 }

  /** A paired trade as the second pass sees it. */
  datatype Closed = Closed(price: real, sl: real, tp: real, lost: bool)

  function Risk(t: Closed): real { Abs(t.price - t.sl) }

  function RawLots(t: Closed, a: Account, balance: real): real
    requires ValidAccount(a) && Risk(t) > 0.0 && Risk(t) / a.pip * a.pipValue != 0.0
  {
    balance * a.riskPct / (Risk(t) / a.pip * a.pipValue)
  }

  function Lots(raw: real, a: Account): real { Max(a.minLot, Min(raw, a.maxLot)) }

  function Pnl(t: Closed, a: Account, lots: real): real
    requires ValidAccount(a)
  {
    if t.lost then Money(-Risk(t), lots, a) else Money(Abs(t.tp - t.price), lots, a)
  }

  /** A price move in account currency. */
  function Money(move: real, lots: real, a: Account): real
    requires ValidAccount(a)
  {
    move * lots * (1.0 / a.pip) * a.pipValue
  }

  lemma LossPerLot(t: Closed, a: Account)
    requires ValidAccount(a) && Risk(t) > 0.0
    ensures Risk(t) / a.pip * a.pipValue > 0.0
  {
    PositiveQuotient(Risk(t), a.pip);
    PositiveProduct(Risk(t) / a.pip, a.pipValue);
  }

  lemma PositiveQuotient(x: real, y: real)
    requires x > 0.0 && y > 0.0
    ensures x / y > 0.0
  {
  }

  lemma PositiveProduct(x: real, y: real)
    requires x > 0.0 && y > 0.0
    ensures x * y > 0.0
  {
  }

  /** What trade `t` books on `balance`; a trade without risk is skipped. */
  function Booked(t: Closed, a: Account, balance: real): Option<real>
    requires ValidAccount(a)
  {
    if Risk(t) <= 0.0 then None
    else
      LossPerLot(t, a);
      Some(Pnl(t, a, Lots(RawLots(t, a, balance), a)))
  }

  /** The profits booked over the first trades, and the equity curve they draw. */
  function Ledger(ts: seq<Closed>, a: Account, start: real): (seq<real>, seq<real>)
    requires ValidAccount(a)
    ensures |Ledger(ts, a, start).1| == |Ledger(ts, a, start).0| + 1
  {
    if ts == [] then ([], [start])
    else
      var (pnls, equity) := Ledger(ts[..|ts| - 1], a, start);
      match Booked(ts[|ts| - 1], a, equity[|equity| - 1])
      case None => (pnls, equity)
      case Some(pnl) => (pnls + [pnl], equity + [equity[|equity| - 1] + pnl])
  }

  function ClosedTrade(f: Flags, b: Bars, entry: nat, exit: nat): Closed
    requires b.SameLength() && entry < |f.dirs| && |f.dirs| == |f.prices| == |f.sls| == |f.tps| && exit < |b.closes|
  {
    Closed(f.prices[entry], f.sls[entry], f.tps[entry], BookedLoss(f, entry, b.highs[exit], b.lows[exit]))
  }

  function ClosedTrades(f: Flags, b: Bars, pairs: seq<(nat, nat)>): seq<Closed>
    requires b.SameLength() && |f.dirs| == |f.prices| == |f.sls| == |f.tps|
    requires forall k :: 0 <= k < |pairs| ==> pairs[k].0 < |f.dirs| && pairs[k].1 < |b.closes|
  {
    seq(|pairs|, k requires 0 <= k < |pairs| => ClosedTrade(f, b, pairs[k].0, pairs[k].1))
  }

  method Settle(f: Flags, b: Bars, pairs: seq<(nat, nat)>, a: Account, start: real)
    returns (pnls: seq<real>, equity: seq<real>)
    requires b.SameLength() && |f.dirs| == |f.prices| == |f.sls| == |f.tps| && ValidAccount(a)
    requires forall k :: 0 <= k < |pairs| ==> pairs[k].0 < |f.dirs| && pairs[k].1 < |b.closes|
    ensures (pnls, equity) == Ledger(ClosedTrades(f, b, pairs), a, start)
  {
    var balance := start;
    pnls, equity := [], [start];
    ghost var ts := ClosedTrades(f, b, pairs);
    hide Booked;
    for k := 0 to |pairs|
      invariant (pnls, equity) == Ledger(ts[..k], a, start)
      invariant |equity| > 0 && balance == equity[|equity| - 1]
    {
      assert ts[..k + 1][..k] == ts[..k] && ts[..k + 1][k] == ts[k];
      var (entry, exit) := pairs[k];
      var pnl := BookTrade(f, b, entry, exit, a, balance);
      if pnl.Some? {
        balance := balance + pnl.value;
        pnls, equity := pnls + [pnl.value], equity + [balance];
      }
    }
    assert ts[..|pairs|] == ts;
  }

  /** One round of the second pass: the outcome from the exit bar, the lots from the balance. */
  method BookTrade(f: Flags, b: Bars, entry: nat, exit: nat, a: Account, balance: real) returns (pnl: Option<real>)
    requires b.SameLength() && |f.dirs| == |f.prices| == |f.sls| == |f.tps| && ValidAccount(a)
    requires entry < |f.dirs| && exit < |b.closes|
    ensures pnl == Booked(ClosedTrade(f, b, entry, exit), a, balance)
  {
    var price, sl, tp := f.prices[entry], f.sls[entry], f.tps[entry];
    var high, low := b.highs[exit], b.lows[exit];
    var risk := Abs(price - sl);
    if risk <= 0.0 {
      return None;
    }
    LossPerLot(ClosedTrade(f, b, entry, exit), a);
    hide Money;
    var lots := balance * a.riskPct / (risk / a.pip * a.pipValue);
    lots := Max(a.minLot, Min(lots, a.maxLot));
    if f.dirs[entry] == 1 {
      if low <= sl {
        return Some(Money(-risk, lots, a));
      }
      return Some(Money(Abs(tp - price), lots, a));
    }
    if high >= sl {
      return Some(Money(-risk, lots, a));
    }
    return Some(Money(Abs(tp - price), lots, a));
  }

  /** Each step of the equity curve is the booked profit. */
  lemma {:induction false} EquitySteps(ts: seq<Closed>, a: Account, start: real)
    requires ValidAccount(a)
    ensures var (pnls, equity) := Ledger(ts, a, start);
            equity[0] == start && forall k :: 0 <= k < |pnls| ==> equity[k + 1] - equity[k] == pnls[k]
  {
    if ts != [] {
      EquitySteps(ts[..|ts| - 1], a, start);
    }
  }

  /** Lots stay within the limits when these are ordered, and the lower one wins when they are not. */
  lemma LotsInRange(raw: real, a: Account)
    ensures a.minLot <= Lots(raw, a)
    ensures Lots(raw, a) <= a.maxLot <==> a.minLot <= a.maxLot
    ensures a.minLot <= a.maxLot ==> (Lots(raw, a) <= raw <==> a.minLot <= raw)
  {
  }

  lemma PnlPerLot(distance: real, a: Account, lots: real)
    requires ValidAccount(a)
    ensures distance * lots * (1.0 / a.pip) * a.pipValue == lots * (distance / a.pip * a.pipValue)
    ensures -distance * lots * (1.0 / a.pip) * a.pipValue == -(lots * (distance / a.pip * a.pipValue))
  {
    var inv := 1.0 / a.pip;
    assert distance / a.pip == distance * inv;
    assert distance * lots * inv == lots * (distance * inv);
    assert -distance * lots * inv == -(lots * (distance * inv));
    assert lots * (distance * inv) * a.pipValue == lots * (distance * inv * a.pipValue);
    assert -(lots * (distance * inv)) * a.pipValue == -(lots * (distance * inv * a.pipValue));
  }

  /** A stop loses the configured share of the balance, or what the smallest or largest permitted
      lots lose over the stop distance where these limits bind; no trade is booked exactly when
      entry and stop coincide. */
  lemma LossMeaning(t: Closed, a: Account, balance: real)
    requires ValidAccount(a)
    ensures Booked(t, a, balance).None? <==> t.price == t.sl
    ensures t.price != t.sl && t.lost && a.minLot <= a.maxLot ==>
      var unit, share := Times(Abs(t.price - t.sl) / a.pip, a.pipValue), Times(balance, a.riskPct);
      Booked(t, a, balance) == Some(-(if share < Times(a.minLot, unit) then Times(a.minLot, unit)
                                      else if share > Times(a.maxLot, unit) then Times(a.maxLot, unit) else share))
  {
    if t.price != t.sl {
      LossPerLot(t, a);
      var unit, raw := Times(Risk(t) / a.pip, a.pipValue), RawLots(t, a, balance);
      RawTimesUnit(t, a, balance);
      if t.lost { StopLoses(t, a, balance); }
      assert unit == Times(Abs(t.price - t.sl) / a.pip, a.pipValue) && unit > 0.0;
      hide RawLots, Lots, Times, Booked;
      if a.minLot <= a.maxLot { ClampedShare(raw, a, unit, Times(balance, a.riskPct)); }
    }
  }

  lemma StopLoses(t: Closed, a: Account, balance: real)
    requires ValidAccount(a) && Risk(t) > 0.0 && Risk(t) / a.pip * a.pipValue > 0.0 && t.lost
    ensures Booked(t, a, balance) == Some(-Times(Lots(RawLots(t, a, balance), a), Times(Risk(t) / a.pip, a.pipValue)))
  {
    var lots := Lots(RawLots(t, a, balance), a);
    PnlPerLot(Risk(t), a, lots);
    assert Money(-Risk(t), lots, a) == -Times(lots, Times(Risk(t) / a.pip, a.pipValue));
    hide RawLots, Lots, Money;
  }

  lemma ClampedShare(raw: real, a: Account, unit: real, share: real)
    requires unit > 0.0 && a.minLot <= a.maxLot && Times(raw, unit) == share
    ensures Times(Lots(raw, a), unit) == if share < Times(a.minLot, unit) then Times(a.minLot, unit)
                                         else if share > Times(a.maxLot, unit) then Times(a.maxLot, unit) else share
  {
    TimesIff(a.minLot, raw, unit);
    TimesIff(raw, a.maxLot, unit);
    hide Times;
  }

  lemma TimesIff(x: real, y: real, u: real)
    requires u > 0.0
    ensures Times(x, u) <= Times(y, u) <==> x <= y
  {
    ScaleIff(x, y, u);
  }

  lemma RawTimesUnit(t: Closed, a: Account, balance: real)
    requires ValidAccount(a) && Risk(t) > 0.0 && Risk(t) / a.pip * a.pipValue > 0.0
    ensures Times(RawLots(t, a, balance), Times(Risk(t) / a.pip, a.pipValue)) == Times(balance, a.riskPct)
  {
  }

  /** A target gains for its distance what the stop would have lost for its own: win and loss of
      the same trade on the same balance are in the ratio of target to stop distance. */
  lemma WinMeaning(t: Closed, a: Account, balance: real)
    requires ValidAccount(a) && t.price != t.sl && !t.lost
    ensures Booked(t, a, balance).Some? && Booked(t.(lost := true), a, balance).Some?
    ensures Times(Booked(t, a, balance).value, Abs(t.price - t.sl))
            == -Times(Booked(t.(lost := true), a, balance).value, Abs(t.tp - t.price))
  {
    LossPerLot(t, a);
    var lots := Lots(RawLots(t, a, balance), a);
    assert Risk(t.(lost := true)) == Risk(t) && RawLots(t.(lost := true), a, balance) == RawLots(t, a, balance);
    hide RawLots, Lots;
    MoneySwap(Risk(t), Abs(t.tp - t.price), lots, a);
  }

  lemma MoneySwap(x: real, y: real, lots: real, a: Account)
    requires ValidAccount(a)
    ensures Times(Money(y, lots, a), x) == -Times(Money(-x, lots, a), y)
  {
    var k := lots * (1.0 / a.pip) * a.pipValue;
    MoneyIs(y, lots, a);
    MoneyIs(-x, lots, a);
    hide Money;
    assert y * k * x == -(-x * k * y);
  }

  lemma MoneyIs(move: real, lots: real, a: Account)
    requires ValidAccount(a)
    ensures Money(move, lots, a) == move * (lots * (1.0 / a.pip) * a.pipValue)
  {
    assert move * lots * (1.0 / a.pip) == move * (lots * (1.0 / a.pip));
    var q := lots * (1.0 / a.pip);
    assert move * q * a.pipValue == move * (q * a.pipValue);
  }

  /** Where the lot limits do not bind, a win is the configured share of the balance times the
      ratio of target to stop distance. */
  lemma UnclampedWin(t: Closed, a: Account, balance: real)
    requires ValidAccount(a) && t.price != t.sl && !t.lost && a.minLot <= a.maxLot
    requires var unit := Times(Abs(t.price - t.sl) / a.pip, a.pipValue);
             Times(a.minLot, unit) <= Times(balance, a.riskPct) <= Times(a.maxLot, unit)
    ensures Booked(t, a, balance)
            == Some(Times(Times(balance, a.riskPct), Abs(t.tp - t.price)) / Abs(t.price - t.sl))
  {
    WinMeaning(t, a, balance);
    LossMeaning(t.(lost := true), a, balance);
    hide Booked, Times;
    var won, distance := Booked(t, a, balance).value, Abs(t.price - t.sl);
    NegTimes(Times(balance, a.riskPct), Abs(t.tp - t.price));
    Quotient(won, distance, Times(Times(balance, a.riskPct), Abs(t.tp - t.price)));
  }

  lemma NegTimes(x: real, y: real)
    ensures Times(-x, y) == -Times(x, y)
  {
  }

  lemma Quotient(x: real, y: real, z: real)
    requires y > 0.0 && Times(x, y) == z
    ensures x == z / y
  {
  }

  /** A trade books at least minus the configured share of the balance exactly when it is no loss
      or the minimum lot does not exceed what that share would buy. */
  lemma LossBoundIff(t: Closed, a: Account, balance: real)
    requires ValidAccount(a) && Risk(t) > 0.0 && 0.0 <= a.minLot <= a.maxLot && balance >= 0.0 && a.riskPct >= 0.0
    requires Risk(t) / a.pip * a.pipValue > 0.0
    ensures Booked(t, a, balance).value >= -(balance * a.riskPct) <==> !t.lost || a.minLot <= RawLots(t, a, balance)
  {
    var raw, unit := RawLots(t, a, balance), Times(Risk(t) / a.pip, a.pipValue);
    LotsInRange(raw, a);
    NonNegativeProduct(balance, a.riskPct);
    if t.lost {
      StopLoses(t, a, balance);
      RawTimesUnit(t, a, balance);
      ScaleIff(Lots(raw, a), raw, unit);
      assert unit == Risk(t) / a.pip * a.pipValue;
      assert Times(balance, a.riskPct) == balance * a.riskPct;
    } else {
      WinBooked(t, a, balance);
    }
    hide RawLots, Lots, Booked, Risk;
  }

  lemma WinBooked(t: Closed, a: Account, balance: real)
    requires ValidAccount(a) && Risk(t) > 0.0 && 0.0 <= a.minLot <= a.maxLot && !t.lost
    ensures Booked(t, a, balance).Some? && Booked(t, a, balance).value >= 0.0
  {
    LossPerLot(t, a);
    var lots := Lots(RawLots(t, a, balance), a);
    LotsInRange(RawLots(t, a, balance), a);
    hide RawLots, Lots;
    PnlPerLot(Abs(t.tp - t.price), a, lots);
    WinNotNegative(Abs(t.tp - t.price), a, lots);
  }

  /** One percent of 100 at risk, a stop ten away and a minimum of one lot: the stop costs 10, not 1. */
  lemma MinimumLotBreaksLimit()
    ensures var t, a := Closed(100.0, 90.0, 120.0, true), Account(1.0, 1.0, 1.0, 10.0, 0.01);
            ValidAccount(a) && Booked(t, a, 100.0) == Some(-10.0) && -10.0 < -(100.0 * a.riskPct)
  {
    var t, a := Closed(100.0, 90.0, 120.0, true), Account(1.0, 1.0, 1.0, 10.0, 0.01);
    LossPerLot(t, a);
    assert Risk(t) == 10.0 && RawLots(t, a, 100.0) == 0.1;
    assert Lots(0.1, a) == 1.0 && Money(-10.0, 1.0, a) == -10.0;
  }

  /** Entry 100, stop 90, target 130, one lot: the target books 30, three times what the stop costs. */
  lemma TargetPaysItsDistance()
    ensures var t, a := Closed(100.0, 90.0, 130.0, false), Account(1.0, 1.0, 1.0, 1.0, 0.01);
            Booked(t, a, 1000.0) == Some(30.0) && Booked(t.(lost := true), a, 1000.0) == Some(-10.0)
  {
    var t, a := Closed(100.0, 90.0, 130.0, false), Account(1.0, 1.0, 1.0, 1.0, 0.01);
    LossMeaning(t.(lost := true), a, 1000.0);
    WinMeaning(t, a, 1000.0);
    hide Booked;
  }

  lemma NonNegativeProduct(x: real, y: real)
    requires x >= 0.0 && y >= 0.0
    ensures x * y >= 0.0
  {
  }

  lemma WinNotNegative(distance: real, a: Account, lots: real)
    requires ValidAccount(a) && distance >= 0.0 && lots >= 0.0
    ensures lots * (distance / a.pip * a.pipValue) >= 0.0
  {
    DivMonotone(0.0, distance, a.pip);
    NonNegativeProduct(distance / a.pip, a.pipValue);
    NonNegativeProduct(lots, distance / a.pip * a.pipValue);
  }

  lemma ScaleIff(x: real, y: real, u: real)
    requires u > 0.0
    ensures x * u <= y * u <==> x <= y
  {
    if x > y { PositiveProduct(x - y, u); }
    if x <= y { NonNegativeProduct(y - x, u); }
  }

  function Power(x: real, n: nat): real { if n == 0 then 1.0 else Power(x, n - 1) * x }

  /** The minimum lot never binds: every losing trade could afford it. */
  ghost predicate Affordable(ts: seq<Closed>, a: Account, start: real)
    requires ValidAccount(a)
  {
    forall k :: 0 <= k < |ts| && Risk(ts[k]) > 0.0 && ts[k].lost ==> AffordsMinimum(ts, a, start, k)
  }

  ghost predicate AffordsMinimum(ts: seq<Closed>, a: Account, start: real, k: nat)
    requires ValidAccount(a) && k < |ts| && Risk(ts[k]) > 0.0
  {
    var equity := Ledger(ts[..k], a, start).1;
    LossPerLot(ts[k], a);
    a.minLot <= RawLots(ts[k], a, equity[|equity| - 1])
  }

  /** Compounding risk bound: if the minimum lot never binds, after n booked trades at least
      start * (1 - riskPct)^n is left. */
  lemma {:induction false} CompoundingBound(ts: seq<Closed>, a: Account, start: real)
    requires ValidAccount(a) && 0.0 <= a.minLot <= a.maxLot && start >= 0.0 && 0.0 <= a.riskPct <= 1.0
    requires Affordable(ts, a, start)
    ensures var (pnls, equity) := Ledger(ts, a, start);
            equity[|pnls|] >= Times(start, Power(1.0 - a.riskPct, |pnls|)) >= 0.0
  {
    if ts != [] {
      var front, last := ts[..|ts| - 1], ts[|ts| - 1];
      forall k | 0 <= k < |front| && Risk(front[k]) > 0.0 && front[k].lost ensures AffordsMinimum(front, a, start, k) {
        assert front[..k] == ts[..k] && front[k] == ts[k];
        assert AffordsMinimum(ts, a, start, k);
      }
      CompoundingBound(front, a, start);
      if Risk(last) > 0.0 {
        if last.lost { assert AffordsMinimum(ts, a, start, |ts| - 1); }
        OneMore(front, last, a, start);
      }
    }
  }

  lemma OneMore(front: seq<Closed>, last: Closed, a: Account, start: real)
    requires ValidAccount(a) && 0.0 <= a.minLot <= a.maxLot && start >= 0.0 && 0.0 <= a.riskPct <= 1.0 && Risk(last) > 0.0
    requires last.lost ==> AffordsMinimum(front + [last], a, start, |front|)
    requires var (pnls, equity) := Ledger(front, a, start);
             equity[|pnls|] >= Times(start, Power(1.0 - a.riskPct, |pnls|)) >= 0.0
    ensures var (pnls, equity) := Ledger(front + [last], a, start);
            equity[|pnls|] >= Times(start, Power(1.0 - a.riskPct, |pnls|)) >= 0.0
  {
    hide Booked, AffordsMinimum, RawLots, Times, Ledger;
    var (pnls, equity) := Ledger(front, a, start);
    var balance, power := equity[|pnls|], Power(1.0 - a.riskPct, |pnls|);
    BookedFloor(front, last, a, start);
    var pnl := Booked(last, a, balance).value;
    LedgerStep(front, last, a, start, pnl);
    Compound(balance, Times(start, power), a.riskPct, pnl);
    PowerStep(start, 1.0 - a.riskPct, |pnls|);
    assert (equity + [balance + pnl])[|pnls + [pnl]|] == balance + pnl;
  }

  lemma LedgerStep(front: seq<Closed>, last: Closed, a: Account, start: real, pnl: real)
    requires ValidAccount(a)
    requires var (pnls, equity) := Ledger(front, a, start); Booked(last, a, equity[|pnls|]) == Some(pnl)
    ensures var (pnls, equity) := Ledger(front, a, start);
            Ledger(front + [last], a, start) == (pnls + [pnl], equity + [equity[|pnls|] + pnl])
  {
    hide Booked;
    assert (front + [last])[..|front|] == front;
  }

  lemma BookedFloor(front: seq<Closed>, last: Closed, a: Account, start: real)
    requires ValidAccount(a) && 0.0 <= a.minLot <= a.maxLot && a.riskPct >= 0.0 && Risk(last) > 0.0
    requires last.lost ==> AffordsMinimum(front + [last], a, start, |front|)
    requires var (pnls, equity) := Ledger(front, a, start); equity[|pnls|] >= 0.0
    ensures var (pnls, equity) := Ledger(front, a, start);
            Booked(last, a, equity[|pnls|]).Some? && Booked(last, a, equity[|pnls|]).value >= -(equity[|pnls|] * a.riskPct)
  {
    assert (front + [last])[..|front|] == front;
    var (pnls, equity) := Ledger(front, a, start);
    LossPerLot(last, a);
    hide Ledger, Pnl, Lots, RawLots;
    LossBoundIff(last, a, equity[|pnls|]);
  }

  lemma PowerStep(x: real, r: real, n: nat)
    ensures Times(Times(x, Power(r, n)), r) == Times(x, Power(r, n + 1))
  {
  }

  lemma Compound(balance: real, floor: real, r: real, pnl: real)
    requires balance >= floor >= 0.0 && 0.0 <= r <= 1.0 && pnl >= -(balance * r)
    ensures balance + pnl >= Times(floor, 1.0 - r) >= 0.0
  {
    assert balance - balance * r == balance * (1.0 - r);
    NonNegativeProduct(balance - floor, 1.0 - r);
    NonNegativeProduct(floor, 1.0 - r);
    assert (balance - floor) * (1.0 - r) == balance * (1.0 - r) - floor * (1.0 - r);
  }

  // ---------------------------------------------------------------- the whole backtest

  datatype Backtest = Finished(flags: Flags, pnls: seq<real>, equity: seq<real>)

  /** Both passes: the profits and the equity curve are those of the k-th entry with the k-th exit. */
  method RunBacktest(c: Config, b: Bars, a: Account, start: real) returns (r: Result<Backtest, Error>)
    requires b.SameLength() && ValidAccount(a)
    ensures r.Ok? <==>
      |b.closes| >= 60 && ValidPeriods(c) && forall i :: 0 <= i < |b.closes| ==> MarkAt(c, b, i) != Failed
    ensures r.Ok? ==>
      var n := |b.closes|;
      && Records(r.value.flags, c, b, n) && TakeTurns(Entries(c, b, n), Exits(c, b, n))
      && PairsInRange(Zip(Entries(c, b, n), Exits(c, b, n)), n)
      && (r.value.pnls, r.value.equity) == Ledger(ClosedTrades(r.value.flags, b, Zip(Entries(c, b, n), Exits(c, b, n))), a, start)
  {
    var flags := Simulate(c, b);
    if flags.Err? {
      return Err(flags.error);
    }
    var f, n := flags.value, |b.closes|;
    PairsOfRun(c, b, f);
    hide Records, PairFrom, Entries, Exits, Where, ClosedTrades, MarkAt;
    var pairs := PairTrades(Where(f.entries, n), Where(f.exits, n));
    var pnls, equity := Settle(f, b, pairs, a, start);
    return Ok(Finished(f, pnls, equity));
  }

  predicate PairsInRange(pairs: seq<(nat, nat)>, n: nat) {
    forall k :: 0 <= k < |pairs| ==> pairs[k].0 < n && pairs[k].1 < n
  }

  lemma PairsOfRun(c: Config, b: Bars, f: Flags)
    requires b.SameLength() && ValidPeriods(c) && Records(f, c, b, |b.closes|) && |b.closes| <= |f.entries| && |b.closes| <= |f.exits|
    requires forall i :: 0 <= i < |b.closes| ==> MarkAt(c, b, i) != Failed
    ensures var n := |b.closes|;
            && |f.dirs| == |f.prices| == |f.sls| == |f.tps| == n
            && TakeTurns(Entries(c, b, n), Exits(c, b, n))
            && PairFrom(Where(f.entries, n), Where(f.exits, n), 0) == Zip(Entries(c, b, n), Exits(c, b, n))
            && PairsInRange(Zip(Entries(c, b, n), Exits(c, b, n)), n)
  {
    hide MarkAt, OpenAt, PairFrom;
    var n := |b.closes|;
    WhereIs(f, c, b, n);
    FlagsTakeTurns(c, b, n);
    var es, xs := Entries(c, b, n), Exits(c, b, n);
    PairingIsZip(es, xs, 0);
    assert es[0..] == es && Zip(es, xs)[0..] == Zip(es, xs);
  }
}
