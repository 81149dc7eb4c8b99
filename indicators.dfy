/** The dashboard's derived numbers (src/pages/Dashboard.tsx): the two period-over-period
    variations, JavaScript division as the category share uses it, the highest-spend
    category, the tip table and the stats-card badges. */
module Indicators {
  import opened Wrappers

  function Abs(x: real): (r: real)
    ensures r >= 0.0 && (r == x || r == -x)
  {
    if x < 0.0 then -x else x
  }

  // ---------------------------------------------------------------------------
  // Variations
  // ---------------------------------------------------------------------------

  /** `variacaoPercentualReceitas`: relative change against the previous period when that
      had income, 100 when income appears from nothing, 0 otherwise. It never divides by 0. */
  function IncomeVariation(prev: real, cur: real): real {
    if prev > 0.0 then ((cur - prev) / prev) * 100.0
    else if cur > 0.0 then 100.0
    else 0.0
  }

  /** `variacaoPercentualSaldo`: five branches, the first that applies wins. Against a
      negative previous balance the change is taken relative to its magnitude. */
  function BalanceVariation(prev: real, cur: real): real {
    if prev > 0.0 then ((cur - prev) / prev) * 100.0
    else if prev < 0.0 && cur >= 0.0 then 100.0
    else if prev == 0.0 && cur != 0.0 then (if cur > 0.0 then 100.0 else -100.0)
    else if prev < 0.0 && cur < 0.0 then ((cur - prev) / Abs(prev)) * 100.0
    else 0.0
  }

  /** What the income variation is, case by case, written without division: the change
      relative to the previous income when that was positive; otherwise 100 when income
      appeared and 0 when it did not. */
  lemma IncomeVariationCases(prev: real, cur: real)
    ensures prev > 0.0 ==> IncomeVariation(prev, cur) * prev == (cur - prev) * 100.0
    ensures prev <= 0.0 && cur > 0.0 ==> IncomeVariation(prev, cur) == 100.0
    ensures prev <= 0.0 && cur <= 0.0 ==> IncomeVariation(prev, cur) == 0.0
  {
  }

  /** The balance variation case by case: relative to the previous balance's magnitude when
      it was positive, or when both balances are negative; +100 out of a deficit into a
      non-negative balance; ±100 from a zero balance, by the new balance's sign. */
  lemma BalanceVariationCases(prev: real, cur: real)
    ensures prev > 0.0 || (prev < 0.0 && cur < 0.0) ==> BalanceVariation(prev, cur) * Abs(prev) == (cur - prev) * 100.0
    ensures prev < 0.0 && cur >= 0.0 ==> BalanceVariation(prev, cur) == 100.0
    ensures prev == 0.0 ==> BalanceVariation(prev, cur) == (if cur > 0.0 then 100.0 else if cur < 0.0 then -100.0 else 0.0)
  {
  }

  /** A product with a positive factor has the sign of the other factor. */
  lemma SignOfProduct(v: real, p: real, d: real)
    requires p > 0.0 && v * p == d
    ensures v > 0.0 <==> d > 0.0
    ensures v < 0.0 <==> d < 0.0
  {
    if v > 0.0 {
      assert v * p > 0.0;
    } else if v < 0.0 {
      assert v * p < 0.0;
    }
  }

  /** The balance variation always has the sign of the change in balance: positive exactly
      when the balance grew, negative exactly when it fell. */
  lemma BalanceVariationSign(prev: real, cur: real)
    ensures BalanceVariation(prev, cur) > 0.0 <==> cur > prev
    ensures BalanceVariation(prev, cur) < 0.0 <==> cur < prev
    ensures BalanceVariation(prev, cur) == 0.0 <==> cur == prev
  {
    var v := BalanceVariation(prev, cur);
    BalanceVariationCases(prev, cur);
    if prev > 0.0 || (prev < 0.0 && cur < 0.0) {
      SignOfProduct(v, Abs(prev), (cur - prev) * 100.0);
    }
  }

  /** For non-negative incomes the income variation has the sign of the change, and it never
      falls below -100 (income cannot drop by more than all of it). */
  lemma IncomeVariationSign(prev: real, cur: real)
    requires prev >= 0.0 && cur >= 0.0
    ensures IncomeVariation(prev, cur) > 0.0 <==> cur > prev
    ensures IncomeVariation(prev, cur) < 0.0 <==> cur < prev
    ensures IncomeVariation(prev, cur) >= -100.0
  {
    var v := IncomeVariation(prev, cur);
    IncomeVariationCases(prev, cur);
    if prev > 0.0 {
      SignOfProduct(v, prev, (cur - prev) * 100.0);
      assert (v + 100.0) * prev == cur * 100.0;
      SignOfProduct(v + 100.0, prev, cur * 100.0);
    }
  }

  /** The branch order matters: a deficit turned into a break-even counts as +100%. */
  lemma BalanceVariationExamples()
    ensures BalanceVariation(-50.0, 0.0) == 100.0
    ensures BalanceVariation(-50.0, -25.0) == 50.0
    ensures BalanceVariation(-50.0, -100.0) == -100.0
    ensures BalanceVariation(0.0, -10.0) == -100.0
    ensures BalanceVariation(200.0, 100.0) == -50.0
    ensures IncomeVariation(0.0, 100.0) == 100.0 && IncomeVariation(0.0, 0.0) == 0.0
  {
  }

  // ---------------------------------------------------------------------------
  // JavaScript division
  // ---------------------------------------------------------------------------

  /** A JavaScript number as far as the share computation needs it: dividing by 0 gives an
      infinity or NaN rather than an error. */
  datatype JsNumber = Finite(value: real) | PosInfinity | NegInfinity | NaN

  /** `a / b` on JavaScript numbers. */
  function Divide(a: real, b: real): (q: JsNumber)
    ensures b != 0.0 ==> q.Finite? && q.value * b == a
    ensures b == 0.0 ==> (q == PosInfinity <==> a > 0.0) && (q == NegInfinity <==> a < 0.0) && (q == NaN <==> a == 0.0)
  {
    if b != 0.0 then Finite(a / b)
    else if a > 0.0 then PosInfinity
    else if a < 0.0 then NegInfinity
    else NaN
  }

  /** `q * f` for a positive constant `f`: infinities and NaN are kept. */
  function Scale(q: JsNumber, f: real): (r: JsNumber)
    requires f > 0.0
    ensures r.Finite? <==> q.Finite?
    ensures r.Finite? ==> r.value == q.value * f
    ensures !q.Finite? ==> r == q
  {
    if q.Finite? then Finite(q.value * f) else q
  }

  /** `q > x`: every comparison with NaN is false. */
  predicate GreaterThan(q: JsNumber, x: real) {
    match q
    case Finite(v) => v > x
    case PosInfinity => true
    case NegInfinity => false
    case NaN => false
  }

  /** `(valor / totalDespesas) * 100`. */
  function Share(valor: real, total: real): JsNumber {
    Scale(Divide(valor, total), 100.0)
  }

  /** A finite share whenever the expenses total is not 0: the category's percentage of it. */
  lemma ShareFinite(valor: real, total: real)
    ensures total != 0.0 ==> Share(valor, total).Finite? && Share(valor, total).value * total == valor * 100.0
    ensures total == 0.0 ==> Share(valor, total) == (if valor > 0.0 then PosInfinity else if valor < 0.0 then NegInfinity else NaN)
  {
  }

  /** When the expenses add up to something positive, the share exceeds 40 exactly when the
      category holds more than two fifths of them; when they add up to 0, exactly when the
      category's own total is positive (an infinite share). */
  lemma ShareOver40(valor: real, total: real)
    ensures total > 0.0 ==> (GreaterThan(Share(valor, total), 40.0) <==> valor * 5.0 > total * 2.0)
    ensures total == 0.0 ==> (GreaterThan(Share(valor, total), 40.0) <==> valor > 0.0)
  {
    ShareFinite(valor, total);
    if total > 0.0 {
      var s := Share(valor, total).value;
      assert (s - 40.0) * total == valor * 100.0 - 40.0 * total;
      SignOfProduct(s - 40.0, total, valor * 100.0 - 40.0 * total);
    }
  }

  // ---------------------------------------------------------------------------
  // Highest-spend category
  // ---------------------------------------------------------------------------

  /** `Object.entries(gastosPorCategoria).sort(([,a], [,b]) => b - a)[0]`: the sort is
      stable, so its head is the first entry with the largest amount. */
  function TopIndex(es: seq<(string, real)>): (i: int)
    requires |es| > 0
    ensures 0 <= i < |es|
    ensures forall j :: 0 <= j < |es| ==> es[j].1 <= es[i].1
    ensures forall j :: 0 <= j < i ==> es[j].1 < es[i].1
  {
    if |es| == 1 then 0
    else
      var i := TopIndex(es[..|es| - 1]);
      if es[|es| - 1].1 > es[i].1 then |es| - 1 else i
  }

  /** Ties go to the category inserted first. */
  lemma TopIndexTie()
    ensures TopIndex([("Lazer", 50.0), ("Moradia", 80.0), ("Transporte", 80.0)]) == 1
  {
  }

  // ---------------------------------------------------------------------------
  // dicasPorCategoria
  // ---------------------------------------------------------------------------

  datatype Tip = PlanMeals | PublicTransport | RenegotiateHousing | FreeLeisure

  /** The tip table: an entry for exactly four category names. */
  function TipFor(categoria: string): (t: Option<Tip>)
    ensures t.Some? <==> categoria in {"Alimentação", "Transporte", "Moradia", "Lazer"}
    ensures t == Some(PlanMeals) <==> categoria == "Alimentação"
    ensures t == Some(PublicTransport) <==> categoria == "Transporte"
    ensures t == Some(RenegotiateHousing) <==> categoria == "Moradia"
    ensures t == Some(FreeLeisure) <==> categoria == "Lazer"
  {
    if categoria == "Alimentação" then Some(PlanMeals)
    else if categoria == "Transporte" then Some(PublicTransport)
    else if categoria == "Moradia" then Some(RenegotiateHousing)
    else if categoria == "Lazer" then Some(FreeLeisure)
    else None
  }

  // ---------------------------------------------------------------------------
  // Stats-card badges
  // ---------------------------------------------------------------------------

  /** The "Saúde Financeira" badge of the Despesas/Receitas card. */
  datatype Health = Bom | Regular | Ruim

  function HealthBadge(percentualDespesas: real): (h: Health)
    ensures h == Bom <==> percentualDespesas < 80.0
    ensures h == Regular <==> 80.0 <= percentualDespesas < 90.0
    ensures h == Ruim <==> percentualDespesas >= 90.0
  {
    if percentualDespesas < 80.0 then Bom
    else if percentualDespesas < 90.0 then Regular
    else Ruim
  }

  /** The "Variação" badge of the balance card: "Crescimento" (good) for a non-negative
      variation, "Queda" (bad) otherwise. */
  datatype Trend = Crescimento | Queda

  function BalanceBadge(variacaoPercentualSaldo: real): (t: Trend)
    ensures t == Crescimento <==> variacaoPercentualSaldo >= 0.0
  {
    if variacaoPercentualSaldo >= 0.0 then Crescimento else Queda
  }

  /** The balance badge shows growth exactly when the balance did not fall. */
  lemma BalanceBadgeFollowsBalance(prev: real, cur: real)
    ensures BalanceBadge(BalanceVariation(prev, cur)) == Crescimento <==> cur >= prev
  {
    BalanceVariationSign(prev, cur);
  }
}
