/** `gerarInsights` of src/pages/Dashboard.tsx: an ordered list of observations about the
    period's figures, one rule after the other. Each insight is its kind and the numbers
    its message quotes; the message text itself is presentation. */
module Insights {
  import opened Wrappers
  import opened Calendar
  import opened DateKeys
  import opened Periods
  import opened Aggregation
  import opened Indicators
  import opened Dashboard

  datatype Insight =
    | PositiveBalance(amount: real)
    | Overspent(shortfall: real)
    | ExpensesCritical
    | ExpensesHigh
    | ExpensesControlled
    | CategoryDominant(categoria: string, share: JsNumber, amount: real)
    | CategoryTip(tip: Tip)
    | SavingsShortfall(gap: real)

  /** The position of each kind in the rule list. */
  function Rank(i: Insight): (r: nat)
    ensures r <= 5
  {
    match i
    case PositiveBalance(_) => 0
    case Overspent(_) => 0
    case ExpensesCritical => 1
    case ExpensesHigh => 1
    case ExpensesControlled => 1
    case CategoryDominant(_, _, _) => 2
    case CategoryTip(_) => 3
    case SavingsShortfall(_) => 4
  }

  // ---------------------------------------------------------------------------
  // The rules
  // ---------------------------------------------------------------------------

  /** The overall balance. */
  function BalanceRule(saldo: real): seq<Insight> {
    if saldo > 0.0 then [PositiveBalance(saldo)]
    else if saldo < 0.0 then [Overspent(Abs(saldo))]
    else []
  }

  /** The expense ratio: the first threshold that applies. */
  function RatioRule(percentualDespesas: real): seq<Insight> {
    if percentualDespesas > 90.0 then [ExpensesCritical]
    else if percentualDespesas > 80.0 then [ExpensesHigh]
    else if percentualDespesas < 70.0 then [ExpensesControlled]
    else []
  }

  /** The highest-spend category: its share when over 40%, then its tip whatever the share. */
  function CategoryRule(gastos: seq<(string, real)>, totalDespesas: real): seq<Insight> {
    if |gastos| == 0 then []
    else
      var (categoria, valor) := gastos[TopIndex(gastos)];
      var percentualCategoria := Share(valor, totalDespesas);
      (if GreaterThan(percentualCategoria, 40.0) then [CategoryDominant(categoria, percentualCategoria, valor)] else [])
      + (if TipFor(categoria).Some? then [CategoryTip(TipFor(categoria).value)] else [])
  }

  /** The savings goal: 20% of income. */
  function SavingsRule(receitas: real, despesas: real): seq<Insight> {
    var metaEconomia := receitas * 0.2;
    var economiaAtual := receitas - despesas;
    if economiaAtual < metaEconomia && receitas > 0.0 then [SavingsShortfall(metaEconomia - economiaAtual)] else []
  }

  /** Every rule's insights, in rule order. */
  function InsightsFor(f: Figures): seq<Insight> {
    BalanceRule(f.saldoPeriodo) + RatioRule(f.percentualDespesas)
    + CategoryRule(f.gastosPorCategoria, f.totalDespesas) + SavingsRule(f.totalReceitas, f.totalDespesas)
  }

  /** `gerarInsights()`: pushes each rule's insight onto the list. */
  method GerarInsights(f: Figures) returns (insights: seq<Insight>)
    ensures insights == InsightsFor(f)
  {
    insights := [];
    if f.saldoPeriodo > 0.0 {
      insights := insights + [PositiveBalance(f.saldoPeriodo)];
    } else if f.saldoPeriodo < 0.0 {
      insights := insights + [Overspent(Abs(f.saldoPeriodo))];
    }
    assert insights == BalanceRule(f.saldoPeriodo);
    if f.percentualDespesas > 90.0 {
      insights := insights + [ExpensesCritical];
    } else if f.percentualDespesas > 80.0 {
      insights := insights + [ExpensesHigh];
    } else if f.percentualDespesas < 70.0 {
      insights := insights + [ExpensesControlled];
    }
    assert insights == BalanceRule(f.saldoPeriodo) + RatioRule(f.percentualDespesas);
    insights := PushCategoryInsights(insights, f.gastosPorCategoria, f.totalDespesas);
    var metaEconomia := f.totalReceitas * 0.2;
    var economiaAtual := f.totalReceitas - f.totalDespesas;
    if economiaAtual < metaEconomia && f.totalReceitas > 0.0 {
      insights := insights + [SavingsShortfall(metaEconomia - economiaAtual)];
    }
  }

  /** The category block of `gerarInsights()`: the highest-spend category's share insight
      and tip, pushed after the insights so far. */
  method PushCategoryInsights(insights: seq<Insight>, gastos: seq<(string, real)>, totalDespesas: real) returns (pushed: seq<Insight>)
    ensures pushed == insights + CategoryRule(gastos, totalDespesas)
  {
    pushed := insights;
    if |gastos| > 0 {
      var (categoria, valor) := gastos[TopIndex(gastos)];
      var percentualCategoria := Share(valor, totalDespesas);
      if GreaterThan(percentualCategoria, 40.0) {
        pushed := pushed + [CategoryDominant(categoria, percentualCategoria, valor)];
      }
      var dica := TipFor(categoria);
      if dica.Some? {
        pushed := pushed + [CategoryTip(dica.value)];
      }
    }
  }

  // ---------------------------------------------------------------------------
  // What the list says
  // ---------------------------------------------------------------------------

  predicate RanksIncrease(s: seq<Insight>) {
    forall i, j :: 0 <= i < j < |s| ==> Rank(s[i]) < Rank(s[j])
  }

  predicate RanksWithin(s: seq<Insight>, lo: nat, hi: nat) {
    forall k :: 0 <= k < |s| ==> lo <= Rank(s[k]) < hi
  }

  lemma RanksConcat(a: seq<Insight>, b: seq<Insight>, lo: nat, mid: nat, hi: nat)
    requires lo <= mid <= hi
    requires RanksIncrease(a) && RanksWithin(a, lo, mid)
    requires RanksIncrease(b) && RanksWithin(b, mid, hi)
    ensures RanksIncrease(a + b) && RanksWithin(a + b, lo, hi)
  {
    RanksWithinConcat(a, b, lo, mid, hi);
    forall i, j | 0 <= i < j < |a + b|
      ensures Rank((a + b)[i]) < Rank((a + b)[j])
    {
      if j < |a| {
        assert (a + b)[i] == a[i] && (a + b)[j] == a[j];
      } else if i >= |a| {
        assert (a + b)[i] == b[i - |a|] && (a + b)[j] == b[j - |a|];
      } else {
        assert (a + b)[i] == a[i] && (a + b)[j] == b[j - |a|];
        assert Rank(a[i]) < mid <= Rank(b[j - |a|]);
      }
    }
  }

  lemma RanksWithinConcat(a: seq<Insight>, b: seq<Insight>, lo: nat, mid: nat, hi: nat)
    requires lo <= mid <= hi
    requires RanksWithin(a, lo, mid) && RanksWithin(b, mid, hi)
    ensures RanksWithin(a + b, lo, hi)
  {
    forall k | 0 <= k < |a + b|
      ensures lo <= Rank((a + b)[k]) && Rank((a + b)[k]) < hi
    {
      if k < |a| {
        assert (a + b)[k] == a[k];
        assert lo <= Rank(a[k]) < mid;
      } else {
        assert (a + b)[k] == b[k - |a|];
        assert mid <= Rank(b[k - |a|]) < hi;
      }
    }
  }

  /** Each rule contributes kinds of its own rank, in increasing order. */
  lemma RuleRanks(f: Figures)
    ensures RanksIncrease(BalanceRule(f.saldoPeriodo)) && RanksWithin(BalanceRule(f.saldoPeriodo), 0, 1)
    ensures RanksIncrease(RatioRule(f.percentualDespesas)) && RanksWithin(RatioRule(f.percentualDespesas), 1, 2)
    ensures RanksIncrease(CategoryRule(f.gastosPorCategoria, f.totalDespesas)) && RanksWithin(CategoryRule(f.gastosPorCategoria, f.totalDespesas), 2, 4)
    ensures RanksIncrease(SavingsRule(f.totalReceitas, f.totalDespesas)) && RanksWithin(SavingsRule(f.totalReceitas, f.totalDespesas), 4, 5)
  {
    BalanceRuleOrder(f.saldoPeriodo);
    RatioRuleOrder(f.percentualDespesas);
    CategoryRuleOrder(f.gastosPorCategoria, f.totalDespesas);
    SavingsRuleOrder(f.totalReceitas, f.totalDespesas);
  }

  lemma BalanceRuleOrder(saldo: real)
    ensures RanksIncrease(BalanceRule(saldo)) && RanksWithin(BalanceRule(saldo), 0, 1)
  {
  }

  lemma RatioRuleOrder(pct: real)
    ensures RanksIncrease(RatioRule(pct)) && RanksWithin(RatioRule(pct), 1, 2)
  {
  }

  lemma CategoryRuleOrder(gastos: seq<(string, real)>, total: real)
    ensures RanksIncrease(CategoryRule(gastos, total)) && RanksWithin(CategoryRule(gastos, total), 2, 4)
  {
    if |gastos| > 0 {
      var (categoria, valor) := gastos[TopIndex(gastos)];
      var share := Share(valor, total);
      var dominant := if GreaterThan(share, 40.0) then [CategoryDominant(categoria, share, valor)] else [];
      var tip := if TipFor(categoria).Some? then [CategoryTip(TipFor(categoria).value)] else [];
      assert CategoryRule(gastos, total) == dominant + tip;
      RanksConcat(dominant, tip, 2, 3, 4);
    }
  }

  lemma SavingsRuleOrder(receitas: real, despesas: real)
    ensures RanksIncrease(SavingsRule(receitas, despesas)) && RanksWithin(SavingsRule(receitas, despesas), 4, 5)
  {
  }

  /** The insights follow the rule order, each kind at most once: only the first can be
      the balance insight and only the last the savings insight. */
  lemma InsightsInRuleOrder(f: Figures)
    ensures RanksIncrease(InsightsFor(f))
    ensures forall i :: 0 < i < |InsightsFor(f)| ==> Rank(InsightsFor(f)[i]) > 0
    ensures forall i :: 0 <= i < |InsightsFor(f)| - 1 ==> Rank(InsightsFor(f)[i]) < 4
  {
    var b, r, c, s := BalanceRule(f.saldoPeriodo), RatioRule(f.percentualDespesas),
      CategoryRule(f.gastosPorCategoria, f.totalDespesas), SavingsRule(f.totalReceitas, f.totalDespesas);
    RuleRanks(f);
    RanksConcat(b, r, 0, 1, 2);
    RanksConcat(b + r, c, 0, 2, 4);
    RanksConcat(b + r + c, s, 0, 4, 5);
    var all := InsightsFor(f);
    assert all == b + r + c + s;
    IncreasingRanksBounds(all);
  }

  /** With strictly increasing ranks from 0 to 4, only the first can have rank 0 and only
      the last rank 4. */
  lemma IncreasingRanksBounds(s: seq<Insight>)
    requires RanksIncrease(s) && RanksWithin(s, 0, 5)
    ensures forall i :: 0 < i < |s| ==> Rank(s[i]) > 0
    ensures forall i :: 0 <= i < |s| - 1 ==> Rank(s[i]) < 4
  {
    forall i | 0 < i < |s|
      ensures Rank(s[i]) > 0
    {
      assert Rank(s[0]) < Rank(s[i]);
    }
    forall i | 0 <= i < |s| - 1
      ensures Rank(s[i]) < 4
    {
      assert Rank(s[i]) < Rank(s[|s| - 1]) <= 4;
    }
  }

  /** The balance insight appears exactly when the balance is not zero, carries its sign,
      and quotes the balance (or its magnitude). */
  lemma BalanceInsight(f: Figures)
    ensures f.saldoPeriodo > 0.0 ==> InsightsFor(f)[0] == PositiveBalance(f.saldoPeriodo)
    ensures f.saldoPeriodo < 0.0 ==> InsightsFor(f)[0] == Overspent(-f.saldoPeriodo)
    ensures f.saldoPeriodo == 0.0 ==> forall x :: x in InsightsFor(f) ==> Rank(x) != 0
  {
    var b, r, c, s := BalanceRule(f.saldoPeriodo), RatioRule(f.percentualDespesas),
      CategoryRule(f.gastosPorCategoria, f.totalDespesas), SavingsRule(f.totalReceitas, f.totalDespesas);
    RatioRuleRanks(f.percentualDespesas);
    CategoryRuleRanks(f.gastosPorCategoria, f.totalDespesas);
    assert InsightsFor(f) == b + (r + c + s);
  }

  /** An insight is in the list exactly when one of the rules produces it. */
  lemma InsightsMembers(f: Figures)
    ensures forall x :: x in InsightsFor(f) <==>
      x in BalanceRule(f.saldoPeriodo) || x in RatioRule(f.percentualDespesas)
      || x in CategoryRule(f.gastosPorCategoria, f.totalDespesas) || x in SavingsRule(f.totalReceitas, f.totalDespesas)
  {
    var b, r, c, s := BalanceRule(f.saldoPeriodo), RatioRule(f.percentualDespesas),
      CategoryRule(f.gastosPorCategoria, f.totalDespesas), SavingsRule(f.totalReceitas, f.totalDespesas);
    assert InsightsFor(f) == b + r + c + s;
  }

  lemma BalanceRuleRanks(saldo: real)
    ensures forall x :: x in BalanceRule(saldo) ==> Rank(x) == 0
  {
  }

  lemma SavingsRuleRanks(receitas: real, despesas: real)
    ensures forall x :: x in SavingsRule(receitas, despesas) ==> Rank(x) == 4
  {
  }

  lemma RatioRuleRanks(pct: real)
    ensures forall x :: x in RatioRule(pct) ==> Rank(x) == 1
  {
  }

  lemma CategoryRuleRanks(gastos: seq<(string, real)>, total: real)
    ensures forall x :: x in CategoryRule(gastos, total) ==> 2 <= Rank(x) <= 3
  {
  }

  /** At most one expense-ratio insight: critical above 90, high above 80, controlled below
      70, and none for a ratio from 70 to 80 inclusive. */
  lemma RatioInsight(f: Figures)
    ensures ExpensesCritical in InsightsFor(f) <==> f.percentualDespesas > 90.0
    ensures ExpensesHigh in InsightsFor(f) <==> 80.0 < f.percentualDespesas <= 90.0
    ensures ExpensesControlled in InsightsFor(f) <==> f.percentualDespesas < 70.0
    ensures (forall x :: x in InsightsFor(f) ==> Rank(x) != 1) <==> 70.0 <= f.percentualDespesas <= 80.0
  {
    var b, r, c, s := BalanceRule(f.saldoPeriodo), RatioRule(f.percentualDespesas),
      CategoryRule(f.gastosPorCategoria, f.totalDespesas), SavingsRule(f.totalReceitas, f.totalDespesas);
    CategoryRuleRanks(f.gastosPorCategoria, f.totalDespesas);
    BalanceRuleRanks(f.saldoPeriodo);
    SavingsRuleRanks(f.totalReceitas, f.totalDespesas);
    InsightsMembers(f);
  }

  /** The category insights concern the highest-spend category only: its share insight
      appears exactly when the share exceeds 40, and its tip exactly when the tip table has
      an entry for it, whatever the share. Without expenses there are neither. */
  lemma CategoryInsight(f: Figures)
    ensures |f.gastosPorCategoria| == 0 ==> forall x :: x in InsightsFor(f) ==> Rank(x) != 2 && Rank(x) != 3
    ensures |f.gastosPorCategoria| > 0 ==>
      var (categoria, valor) := f.gastosPorCategoria[TopIndex(f.gastosPorCategoria)];
      var share := Share(valor, f.totalDespesas);
      && (forall x :: x in InsightsFor(f) && x.CategoryDominant? ==> x == CategoryDominant(categoria, share, valor))
      && (CategoryDominant(categoria, share, valor) in InsightsFor(f) <==> GreaterThan(share, 40.0))
      && (forall t :: CategoryTip(t) in InsightsFor(f) <==> TipFor(categoria) == Some(t))
  {
    var b, r, c, s := BalanceRule(f.saldoPeriodo), RatioRule(f.percentualDespesas),
      CategoryRule(f.gastosPorCategoria, f.totalDespesas), SavingsRule(f.totalReceitas, f.totalDespesas);
    RatioRuleRanks(f.percentualDespesas);
    InsightsMembers(f);
  }

  /** The savings insight appears exactly when there is income and less than 20% of it
      was saved, and quotes the (positive) amount missing to reach 20%. */
  lemma SavingsInsight(f: Figures)
    ensures forall g :: SavingsShortfall(g) in InsightsFor(f) <==>
      f.totalReceitas > 0.0 && f.totalReceitas - f.totalDespesas < f.totalReceitas / 5.0
      && g == f.totalReceitas / 5.0 - (f.totalReceitas - f.totalDespesas)
    ensures forall x :: x in InsightsFor(f) && x.SavingsShortfall? ==> x.gap > 0.0
  {
    var b, r, c, s := BalanceRule(f.saldoPeriodo), RatioRule(f.percentualDespesas),
      CategoryRule(f.gastosPorCategoria, f.totalDespesas), SavingsRule(f.totalReceitas, f.totalDespesas);
    RatioRuleRanks(f.percentualDespesas);
    CategoryRuleRanks(f.gastosPorCategoria, f.totalDespesas);
    InsightsMembers(f);
  }

  /** The stats badge and the ratio insight use different thresholds: a controlled ratio
      always has the "Bom" badge and a critical one "Ruim", but at exactly 80 the badge
      already reads "Regular" with no ratio insight, and at exactly 90 it reads "Ruim"
      beside the milder "high" insight. */
  lemma BadgeAndRatioInsight(f: Figures)
    ensures ExpensesControlled in InsightsFor(f) ==> HealthBadge(f.percentualDespesas) == Bom
    ensures ExpensesCritical in InsightsFor(f) ==> HealthBadge(f.percentualDespesas) == Ruim
    ensures ExpensesHigh in InsightsFor(f) ==> HealthBadge(f.percentualDespesas) != Bom
    ensures f.percentualDespesas == 80.0 ==> HealthBadge(80.0) == Regular && forall x :: x in InsightsFor(f) ==> Rank(x) != 1
    ensures f.percentualDespesas == 90.0 ==> HealthBadge(90.0) == Ruim && ExpensesHigh in InsightsFor(f)
  {
    RatioInsight(f);
  }

  // ---------------------------------------------------------------------------
  // Scenarios
  // ---------------------------------------------------------------------------

  /** With no transactions the figures are all zero, and a zero ratio is "below 70%": the
      list holds the controlled-expenses insight alone. */
  lemma NoTransactions(p: Period, now: Date, custom: Option<CustomRange>)
    requires Valid(now) && ValidCustom(custom)
    ensures InsightsFor(ComputeFigures(false, [], p, now, custom)) == [ExpensesControlled]
  {
  }

  /** A tip without the share insight: the top category holds 35% of the expenses. */
  lemma TipWithoutDominance()
    ensures InsightsFor(Figures(100.0, 100.0, 0.0, 100.0, 0.0, 0.0, 0.0, 0.0, [("Lazer", 30.0), ("Moradia", 35.0), ("Outros", 35.0)]))
      == [ExpensesCritical, CategoryTip(RenegotiateHousing), SavingsShortfall(20.0)]
  {
    assert TopIndex([("Lazer", 30.0), ("Moradia", 35.0), ("Outros", 35.0)]) == 1;
  }
}
