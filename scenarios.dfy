/** Worked scenarios of the dashboard: concrete transactions run through the period
    filter, the figures and the insights. */
module Scenarios {
  import opened Wrappers
  import opened Calendar
  import opened DateKeys
  import opened Periods
  import opened Aggregation
  import opened Indicators
  import opened Dashboard
  import opened Insights

  /** The transactions of the scenario below. */
  function ScenarioTransactions(): seq<Transacao> {
    [Transacao("1", "2024-03-01", 1000.0, Receita, None),
     Transacao("2", "2024-03-05", 800.0, Despesa, Some("Food"))]
  }

  /** On the Month tab nothing is filtered out and the previous period is empty, whatever
      the day. */
  lemma ScenarioSubsets(now: Date)
    requires Valid(now)
    ensures Current(ScenarioTransactions(), ParsePeriod(InitialTab), now, None) == ScenarioTransactions()
    ensures Previous(ScenarioTransactions(), PreviousInterval(ParsePeriod(InitialTab), now, None)) == []
  {
    MonthTabIsUnrecognised();
    UnrecognisedKeepsAll(ScenarioTransactions(), InitialTab, now, None);
    ScenarioInterval(now);
    ScenarioPrevious();
  }

  lemma ScenarioInterval(now: Date)
    requires Valid(now)
    ensures PreviousInterval(ParsePeriod(InitialTab), now, None) == Interval("", "")
  {
    MonthTabIsUnrecognised();
    PreviousFallback(now, InitialTab, "");
  }

  lemma ScenarioPrevious()
    ensures Previous(ScenarioTransactions(), Interval("", "")) == []
  {
    SplitNoSeparator("2024-03-01", 'T');
    SplitNoSeparator("2024-03-05", 'T');
    FallbackIsEmpty(ScenarioTransactions());
  }

  lemma ScenarioTotals()
    ensures Total(ScenarioTransactions(), Receita) == 1000.0
    ensures Total(ScenarioTransactions(), Despesa) == 800.0
    ensures CategoryEntries(ScenarioTransactions()) == [("Food", 800.0)]
  {
    ScenarioTotal(Receita);
    ScenarioTotal(Despesa);
    ScenarioCategories();
  }

  lemma ScenarioTotal(k: Tipo)
    ensures Total(ScenarioTransactions(), k) == if k == Receita then 1000.0 else 800.0
  {
    var ts := ScenarioTransactions();
    var t1, t2 := ts[0], ts[1];
    TotalSnoc([t1], t2, k);
    TotalSingle(t1, k);
    assert [t1] + [t2] == ts;
  }

  lemma ScenarioCategories()
    ensures CategoryEntries(ScenarioTransactions()) == [("Food", 800.0)]
  {
    var ts := ScenarioTransactions();
    var t1, t2 := ts[0], ts[1];
    assert ts[..1] == [t1];
    assert CategoryOrder([t1]) == [] by { assert [t1][..0] == []; }
    assert CategoryOrder(ts) == ["Food"];
    assert CategorySum([t1], "Food") == 0.0 by { assert [t1][..0] == []; }
    assert CategorySum(ts, "Food") == 800.0;
  }

  /** The scenario's figures, for any day. */
  function ScenarioResult(): Figures {
    Figures(1000.0, 800.0, 200.0, 80.0, 0.0, 100.0, 0.0, 100.0, [("Food", 800.0)])
  }

  lemma ScenarioFigures(now: Date)
    requires Valid(now)
    ensures ComputeFigures(false, ScenarioTransactions(), ParsePeriod(InitialTab), now, None) == ScenarioResult()
  {
    var ts, p := ScenarioTransactions(), ParsePeriod(InitialTab);
    ComputeFiguresLoaded(ts, p, now, None);
    ScenarioSubsets(now);
    ScenarioFiguresOf();
  }

  lemma ScenarioFiguresOf()
    ensures FiguresOf(ScenarioTransactions(), []) == ScenarioResult()
  {
    ScenarioTotals();
    TotalEmpty(Receita);
    TotalEmpty(Despesa);
    assert ExpenseRatio(1000.0, 800.0) == 80.0;
    assert IncomeVariation(0.0, 1000.0) == 100.0;
    assert BalanceVariation(0.0, 200.0) == 100.0;
  }

  /** 1000 of income and an 800 expense filed as "Food", on the dashboard's initial Month
      tab, on any day: a positive balance of 200 and Food's 100% share are reported; the
      ratio is exactly 80 and savings exactly 20%, so neither of those rules fires. */
  lemma MonthTabScenario(now: Date)
    requires Valid(now)
    ensures InsightsFor(ComputeFigures(false, ScenarioTransactions(), ParsePeriod(InitialTab), now, None))
      == [PositiveBalance(200.0), CategoryDominant("Food", Finite(100.0), 800.0)]
  {
    ScenarioFigures(now);
    ScenarioInsights();
  }

  lemma ScenarioInsights()
    ensures InsightsFor(ScenarioResult()) == [PositiveBalance(200.0), CategoryDominant("Food", Finite(100.0), 800.0)]
  {
    var f := ScenarioResult();
    assert BalanceRule(f.saldoPeriodo) == [PositiveBalance(200.0)];
    assert RatioRule(f.percentualDespesas) == [];
    assert TopIndex(f.gastosPorCategoria) == 0;
    assert TipFor("Food") == None;
    assert Share(800.0, 800.0) == Finite(100.0);
    assert CategoryRule(f.gastosPorCategoria, f.totalDespesas) == [CategoryDominant("Food", Finite(100.0), 800.0)];
    assert SavingsRule(f.totalReceitas, f.totalDespesas) == [];
  }
}
