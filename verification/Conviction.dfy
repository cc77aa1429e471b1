/** The conviction score and its penalty budget (pipeline/conviction.py). */
module Conviction {
  import opened Rounding
  import opened Wrappers

  datatype Kind = Invalidation | Conflict | Portfolio

  /** The open macro exposure, if any, and the remaining share of the risk budget. */
  datatype Context = Context(macro: bool, budgetLeft: real)

  /** What a score is computed from; `raw` is the blended and calibrated conviction, `groups` the
      group scores that are present. */
  datatype Inputs = Inputs(raw: real, invalidation: real, groups: seq<real>, portfolio: Option<Context>,
                           ceiling: real, minEntry: real, strongEntry: real, floorTriggered: bool)

  datatype Decision = TRADE | HOLD

  /** `score` is the one the decision is taken on, before it is rounded for display. */
  datatype Score = Score(score: real, decision: Decision, size: real, penalties: map<Kind, real>, total: real, prorated: bool)

  datatype Error = ZeroDivision

  function Greatest(xs: seq<real>): real
    requires xs != []
  {
    if |xs| == 1 then xs[0] else Max(Greatest(xs[..|xs| - 1]), xs[|xs| - 1])
  }

  function Least(xs: seq<real>): real
    requires xs != []
  {
    if |xs| == 1 then xs[0] else Min(Least(xs[..|xs| - 1]), xs[|xs| - 1])
  }

  function Spread(groups: seq<real>): real { if |groups| < 2 then 0.0 else Greatest(groups) - Least(groups) }

  function ConflictFor(spread: real): real {
    if spread < 40.0 then 0.0 else Min((spread - 40.0) * 0.75, 30.0)
  }

  function ConflictPenalty(groups: seq<real>): real { if |groups| < 2 then 0.0 else ConflictFor(Spread(groups)) }

  function BudgetPenalty(left: real): real {
    if left < 0.03 then Max(5.0, 20.0 - Max(0.0, left) / 0.03 * 15.0) else 0.0
  }

  function PortfolioPenalty(ctx: Context): real {
    Min((if ctx.macro then 8.0 else 0.0) + BudgetPenalty(ctx.budgetLeft), 25.0)
  }

  function Part(penalties: map<Kind, real>, k: Kind): real { if k in penalties then penalties[k] else 0.0 }

  function Sum(penalties: map<Kind, real>): real {
    Part(penalties, Invalidation) + Part(penalties, Conflict) + Part(penalties, Portfolio)
  }

  /** The penalty of one kind before proration. */
  function RawPart(i: Inputs, k: Kind): real {
    match k
    case Invalidation => Max(i.invalidation, 0.0)
    case Conflict => ConflictPenalty(i.groups)
    case Portfolio => if i.portfolio.Some? then PortfolioPenalty(i.portfolio.value) else 0.0
  }

  function RawTotal(i: Inputs): real { RawPart(i, Invalidation) + RawPart(i, Conflict) + RawPart(i, Portfolio) }

  /** The unrounded score. */
  function Adjusted(raw: real, penalty: real, ceiling: real): real { Min(Max(0.0, raw - penalty), ceiling) }

  function SizeFor(i: Inputs, score: real): real {
    if i.floorTriggered then 0.0 else if score >= i.strongEntry then 1.0 else if score >= i.minEntry then 0.6 else 0.0
  }

  class ConvictionScorer {
    const maxPenalty: real

    constructor (maxPenalty: real)
      ensures this.maxPenalty == maxPenalty
    {
      this.maxPenalty := maxPenalty;
    }

    /** The penalties that remain are the raw ones scaled so that they add up to the budget when
        they exceed it.  A negative budget with nothing to scale divides by zero. */
    method ScoreOf(i: Inputs) returns (r: Result<Score, Error>)
      ensures r.Err? <==> maxPenalty < 0.0 && RawTotal(i) == 0.0
      ensures r.Ok? ==>
        && Sum(r.value.penalties) == r.value.total == Min(RawTotal(i), maxPenalty)
        && r.value.prorated == (RawTotal(i) > maxPenalty)
        && (forall k: Kind :: Times(Part(r.value.penalties, k), RawTotal(i)) == Times(RawPart(i, k), r.value.total))
        && r.value.score == Adjusted(i.raw, r.value.total, i.ceiling)
        && r.value.size == SizeFor(i, r.value.score)
        && (r.value.decision == TRADE <==> !i.floorTriggered && r.value.score >= Min(i.strongEntry, i.minEntry))
      ensures r.Ok? ==>
        var a, c := if i.invalidation > 0.0 then i.invalidation else 0.0, ConflictPenalty(i.groups);
        var p := if i.portfolio.Some? then PortfolioPenalty(i.portfolio.value) else 0.0;
        if a + c + p > maxPenalty then r.value.total == maxPenalty && r.value.prorated
        else
          && r.value.total == a + c + p && !r.value.prorated
          && Part(r.value.penalties, Invalidation) == a && Part(r.value.penalties, Conflict) == c && Part(r.value.penalties, Portfolio) == p
      ensures r.Ok? ==> r.value.score == FinalScore(i, maxPenalty)
      ensures r.Ok? ==>
        && r.value.score <= i.ceiling
        && (0.0 <= i.raw - r.value.total <= i.ceiling ==> r.value.score == i.raw - r.value.total)
        && (i.raw - r.value.total < 0.0 <= i.ceiling ==> r.value.score == 0.0)
        && (r.value.score < i.ceiling ==> r.value.score >= i.raw - r.value.total)
      ensures r.Ok? ==>
        && (r.value.size == 1.0 <==> !i.floorTriggered && r.value.score >= i.strongEntry)
        && (r.value.size == 0.6 <==> !i.floorTriggered && i.minEntry <= r.value.score < i.strongEntry)
        && (r.value.size == 0.0 <==> r.value.decision == HOLD)
    {
      var penalties := Collect(i);
      RawNonNegative(i);
      RawMeaning(i);
      var total, prorated := Sum(penalties), false;
      hide RawPart, ConflictPenalty, PortfolioPenalty;
      if total > maxPenalty {
        if total == 0.0 {
          return Err(ZeroDivision);
        }
        Proration(penalties, maxPenalty);
        var scale := maxPenalty / total;
        penalties := map k | k in penalties :: penalties[k] * scale;
        total, prorated := maxPenalty, true;
      }
      hide Part, Sum;
      var score := if 0.0 > i.raw - total then 0.0 else i.raw - total;
      if i.ceiling < score {
        score := i.ceiling;
      }
      var decision, size := Decide(i, score);
      return Ok(Score(score, decision, size, penalties, total, prorated));
    }

    /** The penalties before proration; those that are zero are not listed. */
    method Collect(i: Inputs) returns (penalties: map<Kind, real>)
      ensures forall k: Kind :: Part(penalties, k) == RawPart(i, k)
    {
      hide ConflictPenalty, PortfolioPenalty;
      RawNonNegative(i);
      penalties := map[];
      if i.invalidation > 0.0 {
        penalties := penalties[Invalidation := i.invalidation];
      }
      var conflict := ConflictPenalty(i.groups);
      if conflict > 0.0 {
        penalties := penalties[Conflict := conflict];
      }
      if i.portfolio.Some? {
        var portfolio := PortfolioPenalty(i.portfolio.value);
        if portfolio > 0.0 {
          penalties := penalties[Portfolio := portfolio];
        }
      }
    }

    /** A floor holds; otherwise full size from the strong threshold on, 0.6 from the lower one on. */
    method Decide(i: Inputs, score: real) returns (decision: Decision, size: real)
      ensures decision == TRADE <==> !i.floorTriggered && score >= Min(i.strongEntry, i.minEntry)
      ensures size == SizeFor(i, score)
      ensures size == 1.0 <==> !i.floorTriggered && score >= i.strongEntry
      ensures size == 0.6 <==> !i.floorTriggered && i.minEntry <= score < i.strongEntry
      ensures size == 0.0 <==> decision == HOLD
    {
      decision, size := HOLD, 0.0;
      if i.floorTriggered {
      } else if score >= i.strongEntry {
        decision, size := TRADE, 1.0;
      } else if score >= i.minEntry {
        decision, size := TRADE, 0.6;
      }
    }
  }

  /** A budget of -1 and no reason for any penalty: the score divides by zero. */
  method NegativeBudgetRaises() returns (r: Result<Score, Error>)
    ensures r.Err?
  {
    var scorer := new ConvictionScorer(-1.0);
    var i := Inputs(80.0, 0.0, [], None, 100.0, 60.0, 75.0, false);
    assert RawTotal(i) == 0.0;
    r := scorer.ScoreOf(i);
  }

  /** The three penalties before proration. */
  lemma RawMeaning(i: Inputs)
    ensures RawPart(i, Invalidation) == if i.invalidation > 0.0 then i.invalidation else 0.0
    ensures RawPart(i, Conflict) == ConflictPenalty(i.groups)
    ensures RawPart(i, Portfolio) == if i.portfolio.Some? then PortfolioPenalty(i.portfolio.value) else 0.0
  {
  }

  lemma RawNonNegative(i: Inputs)
    ensures RawPart(i, Invalidation) >= 0.0 && RawPart(i, Conflict) >= 0.0 && RawPart(i, Portfolio) >= 0.0
  {
    if i.portfolio.Some? {
      BudgetRange(i.portfolio.value.budgetLeft);
    }
  }

  /** Scaling by budget over sum makes the parts add up to the budget and keeps their shares. */
  lemma Proration(penalties: map<Kind, real>, budget: real)
    requires Sum(penalties) != 0.0
    ensures var scaled := map k | k in penalties :: penalties[k] * (budget / Sum(penalties));
            && Sum(scaled) == budget
            && forall k: Kind :: Times(Part(scaled, k), Sum(penalties)) == Times(Part(penalties, k), budget)
  {
    var total := Sum(penalties);
    var scale := budget / total;
    assert scale * total == budget;
    var scaled := map k | k in penalties :: penalties[k] * scale;
    forall k: Kind ensures Part(scaled, k) == Part(penalties, k) * scale && Times(Part(scaled, k), total) == Times(Part(penalties, k), budget) {
      Shuffle(Part(penalties, k), scale, total, budget);
    }
    Distribute(Part(penalties, Invalidation), Part(penalties, Conflict), Part(penalties, Portfolio), scale);
  }

  lemma Shuffle(x: real, scale: real, total: real, budget: real)
    requires scale * total == budget
    ensures Times(x * scale, total) == Times(x, budget)
  {
  }

  lemma Distribute(x: real, y: real, z: real, s: real)
    ensures x * s + y * s + z * s == (x + y + z) * s
  {
  }

  // ---------------------------------------------------------------- what the penalties are

  /** The widest gap between two groups. */
  ghost predicate IsWidest(groups: seq<real>, gap: real) {
    && (exists x, y :: x in groups && y in groups && x - y == gap)
    && (forall x, y :: x in groups && y in groups ==> x - y <= gap)
  }

  /** With two groups or more, the conflict penalty is nothing up to a widest gap of 40, rises by
      0.75 per point from there, and stops at 30, which a gap of 80 reaches. */
  lemma ConflictMeaning(groups: seq<real>, gap: real)
    requires |groups| >= 2 ==> IsWidest(groups, gap)
    ensures ConflictPenalty(groups) == if |groups| < 2 || gap <= 40.0 then 0.0 else if gap >= 80.0 then 30.0 else 0.75 * gap - 30.0
  {
    if |groups| >= 2 {
      GreatestBounds(groups);
      assert Greatest(groups) - Least(groups) <= gap;
    }
  }

  /** The portfolio penalty: 8 for an open macro exposure, and below three percent of budget 20
      less 5 for every percent left, but at least 5 and never more than 20; capped at 25. */
  lemma PortfolioMeaning(ctx: Context)
    ensures var budget := if ctx.budgetLeft >= 0.03 then 0.0
                          else if ctx.budgetLeft <= 0.0 then 20.0
                          else 20.0 - 500.0 * ctx.budgetLeft;
            PortfolioPenalty(ctx) == if ctx.macro then (if budget > 17.0 then 25.0 else 8.0 + budget) else budget
  {
    if 0.0 <= ctx.budgetLeft < 0.03 {
      assert ctx.budgetLeft / 0.03 * 15.0 == 500.0 * ctx.budgetLeft;
    }
  }

  // ---------------------------------------------------------------- ranges and monotonicity

  lemma {:induction false} GreatestBounds(xs: seq<real>)
    requires xs != []
    ensures forall x :: x in xs ==> Least(xs) <= x <= Greatest(xs)
    ensures Least(xs) in xs && Greatest(xs) in xs
  {
    if |xs| > 1 {
      GreatestBounds(xs[..|xs| - 1]);
      assert xs == xs[..|xs| - 1] + [xs[|xs| - 1]];
    }
  }

  /** A wider disagreement never costs less, the penalty lies in [0, 30], and it is the largest
      gap between any two groups that counts. */
  lemma ConflictGrowsWithSpread(groups: seq<real>, wider: seq<real>)
    requires Spread(groups) <= Spread(wider)
    ensures 0.0 <= ConflictPenalty(groups) <= ConflictPenalty(wider) <= 30.0
    ensures forall x, y :: x in groups && y in groups ==> x - y <= Spread(groups)
  {
    if |groups| >= 2 { GreatestBounds(groups); }
    if |wider| >= 2 { GreatestBounds(wider); }
  }

  /** The budget penalty jumps to 5 below the threshold and never exceeds 20. */
  lemma BudgetRange(left: real)
    ensures BudgetPenalty(left) == 0.0 <==> left >= 0.03
    ensures left < 0.03 ==> 5.0 <= BudgetPenalty(left) <= 20.0
    ensures left <= 0.0 ==> BudgetPenalty(left) == 20.0
  {
    DivMonotone(0.0, Max(0.0, left), 0.03);
  }

  /** Less remaining budget, or an added macro exposure, never lowers the penalty. */
  lemma PortfolioAntitone(a: Context, b: Context)
    requires b.budgetLeft <= a.budgetLeft && (a.macro ==> b.macro)
    ensures 0.0 <= PortfolioPenalty(a) <= PortfolioPenalty(b) <= 25.0
  {
    BudgetRange(a.budgetLeft);
    BudgetRange(b.budgetLeft);
    if a.budgetLeft < 0.03 {
      DivMonotone(Max(0.0, b.budgetLeft), Max(0.0, a.budgetLeft), 0.03);
    }
  }

  /** One set of inputs is penalised at least as much as another in every kind. */
  predicate Harsher(i: Inputs, j: Inputs) {
    && j == i.(invalidation := j.invalidation, groups := j.groups, portfolio := j.portfolio)
    && i.invalidation <= j.invalidation && Spread(i.groups) <= Spread(j.groups)
    && (i.portfolio.Some? ==> j.portfolio.Some? && j.portfolio.value.budgetLeft <= i.portfolio.value.budgetLeft
                              && (i.portfolio.value.macro ==> j.portfolio.value.macro))
  }

  function FinalScore(i: Inputs, budget: real): real { Adjusted(i.raw, Min(RawTotal(i), budget), i.ceiling) }

  /** At fixed raw conviction no score and no position size ever rises when any penalty grows or
      the groups drift apart; and the score lies in [0, ceiling] exactly when the ceiling is not
      negative. */
  lemma HarsherNeverHelps(i: Inputs, j: Inputs, budget: real)
    requires Harsher(i, j)
    ensures RawTotal(i) <= RawTotal(j)
    ensures FinalScore(j, budget) <= FinalScore(i, budget)
    ensures SizeFor(j, FinalScore(j, budget)) <= SizeFor(i, FinalScore(i, budget))
    ensures 0.0 <= FinalScore(i, budget) <= i.ceiling <==> i.ceiling >= 0.0
  {
    ConflictGrowsWithSpread(i.groups, j.groups);
    if i.portfolio.Some? {
      PortfolioAntitone(i.portfolio.value, j.portfolio.value);
    }
    RawNonNegative(j);
    hide ConflictPenalty, PortfolioPenalty, Spread;
  }
}
