/** `processedData` of src/pages/Dashboard.tsx: the current and previous period's figures
    and the newest-first list of the current period's transactions. */
module Dashboard {
  import opened Wrappers
  import opened Calendar
  import opened DateKeys
  import opened Periods
  import opened Aggregation
  import opened Indicators

  /** Everything `processedData` returns except the transaction list. */
  datatype Figures = Figures(
    totalReceitas: real,
    totalDespesas: real,
    saldoPeriodo: real,
    percentualDespesas: real,
    receitasPeriodoAnterior: real,
    variacaoPercentualReceitas: real,
    saldoPeriodoAnterior: real,
    variacaoPercentualSaldo: real,
    /** `Object.entries(gastosPorCategoria)`, in insertion order. */
    gastosPorCategoria: seq<(string, real)>)

  datatype Processed = Processed(transacoesFiltradas: seq<Transacao>, figures: Figures)

  /** What is shown while the transactions load, or when there are none. */
  const NoFigures: Figures := Figures(0.0, 0.0, 0.0, 0.0, 0.0, 0.0, 0.0, 0.0, [])

  /** `percentualDespesas`: expenses as a percentage of income, 0 without income. */
  function ExpenseRatio(receitas: real, despesas: real): real {
    if receitas > 0.0 then (despesas / receitas) * 100.0 else 0.0
  }

  /** The ratio without division: expenses are `pct` percent of a positive income. */
  lemma ExpenseRatioMeaning(receitas: real, despesas: real)
    ensures receitas > 0.0 ==> ExpenseRatio(receitas, despesas) * receitas == despesas * 100.0
    ensures receitas <= 0.0 ==> ExpenseRatio(receitas, despesas) == 0.0
  {
  }

  /** The category totals of `ts` as entries, keys in insertion order. */
  function CategoryEntries(ts: seq<Transacao>): (es: seq<(string, real)>)
    ensures |es| == |CategoryOrder(ts)|
    ensures forall i :: 0 <= i < |es| ==> es[i] == (CategoryOrder(ts)[i], CategorySum(ts, CategoryOrder(ts)[i]))
  {
    EntriesOf(CategoryOrder(ts), ts)
  }

  function EntriesOf(keys: seq<string>, ts: seq<Transacao>): (es: seq<(string, real)>)
    ensures |es| == |keys|
    ensures forall i :: 0 <= i < |es| ==> es[i] == (keys[i], CategorySum(ts, keys[i]))
  {
    if |keys| == 0 then [] else EntriesOf(keys[..|keys| - 1], ts) + [(keys[|keys| - 1], CategorySum(ts, keys[|keys| - 1]))]
  }

  /** The sum of the entries' amounts. */
  function EntriesSum(es: seq<(string, real)>): real {
    if |es| == 0 then 0.0 else EntriesSum(es[..|es| - 1]) + es[|es| - 1].1
  }

  lemma {:induction false} EntriesSumOver(keys: seq<string>, ts: seq<Transacao>)
    ensures EntriesSum(EntriesOf(keys, ts)) == SumOver(keys, ts)
  {
    if |keys| > 0 {
      var es := EntriesOf(keys, ts);
      assert es[..|es| - 1] == EntriesOf(keys[..|keys| - 1], ts);
      EntriesSumOver(keys[..|keys| - 1], ts);
    }
  }

  /** The figures from the current income and expense totals, the previous income and
      balance, and the current category entries. */
  function FiguresFrom(receitas: real, despesas: real, receitasAnterior: real, saldoAnterior: real,
                       gastos: seq<(string, real)>): Figures {
    Figures(receitas, despesas, receitas - despesas, ExpenseRatio(receitas, despesas),
            receitasAnterior, IncomeVariation(receitasAnterior, receitas),
            saldoAnterior, BalanceVariation(saldoAnterior, receitas - despesas), gastos)
  }

  /** The figures of a current-period subset `cur` against a previous-period subset `anterior`. */
  function FiguresOf(cur: seq<Transacao>, anterior: seq<Transacao>): Figures {
    FiguresFrom(Total(cur, Receita), Total(cur, Despesa), Total(anterior, Receita),
                Total(anterior, Receita) - Total(anterior, Despesa), CategoryEntries(cur))
  }

  /** The body of `processedData`, the sorting aside. */
  function ComputeFigures(loading: bool, ts: seq<Transacao>, p: Period, now: Date, custom: Option<CustomRange>): Figures
    requires Valid(now) && ValidCustom(custom)
  {
    if loading || |ts| == 0 then NoFigures
    else FiguresOf(Current(ts, p, now, custom), Previous(ts, PreviousInterval(p, now, custom)))
  }

  /** What each figure is, in terms of the totals it is built from: the balance is income
      minus expenses, the ratio is expenses as a percentage of positive income (0 without
      income), and the balance variation has the sign of the change in balance. */
  lemma FiguresFromFields(r: real, d: real, ra: real, sa: real, gastos: seq<(string, real)>)
    ensures var f := FiguresFrom(r, d, ra, sa, gastos);
      && f.totalReceitas == r && f.totalDespesas == d && f.saldoPeriodo == r - d
      && f.percentualDespesas == ExpenseRatio(r, d)
      && f.receitasPeriodoAnterior == ra && f.saldoPeriodoAnterior == sa
      && (f.variacaoPercentualSaldo > 0.0 <==> r - d > sa)
      && (f.variacaoPercentualSaldo < 0.0 <==> r - d < sa)
      && (f.variacaoPercentualSaldo == 0.0 <==> r - d == sa)
      && f.gastosPorCategoria == gastos
  {
    BalanceTrend(FiguresFrom(r, d, ra, sa, gastos));
  }

  /** Figures whose balance variation is computed from their two balances show a rise, a
      fall or no change exactly when the balance rose, fell or stayed. */
  lemma BalanceTrend(f: Figures)
    requires f.variacaoPercentualSaldo == BalanceVariation(f.saldoPeriodoAnterior, f.saldoPeriodo)
    ensures f.variacaoPercentualSaldo > 0.0 <==> f.saldoPeriodo > f.saldoPeriodoAnterior
    ensures f.variacaoPercentualSaldo < 0.0 <==> f.saldoPeriodo < f.saldoPeriodoAnterior
    ensures f.variacaoPercentualSaldo == 0.0 <==> f.saldoPeriodo == f.saldoPeriodoAnterior
  {
    BalanceVariationSign(f.saldoPeriodoAnterior, f.saldoPeriodo);
  }

  /** Figures whose ratio is computed from their totals: expenses are that percentage of a
      positive income, and the ratio is 0 without income. */
  lemma RatioOfFigures(f: Figures, r: real, d: real)
    requires f.totalReceitas == r && f.totalDespesas == d && f.percentualDespesas == ExpenseRatio(r, d)
    ensures f.totalReceitas > 0.0 ==> f.percentualDespesas * f.totalReceitas == f.totalDespesas * 100.0
    ensures f.totalReceitas <= 0.0 ==> f.percentualDespesas == 0.0
  {
    ExpenseRatioMeaning(r, d);
  }

  /** The figures' own identities: the balance is income minus expenses, the ratio is
      expenses over income (0 without income), and the category totals are distinct keys
      that add up to the expenses. */
  lemma FiguresConsistent(cur: seq<Transacao>, anterior: seq<Transacao>)
    ensures var f := FiguresOf(cur, anterior);
      && f.saldoPeriodo == f.totalReceitas - f.totalDespesas
      && f.percentualDespesas == ExpenseRatio(f.totalReceitas, f.totalDespesas)
      && EntriesSum(f.gastosPorCategoria) == f.totalDespesas
      && (forall i, j :: 0 <= i < j < |f.gastosPorCategoria| ==> f.gastosPorCategoria[i].0 != f.gastosPorCategoria[j].0)
  {
    FiguresFromFields(Total(cur, Receita), Total(cur, Despesa), Total(anterior, Receita),
                      Total(anterior, Receita) - Total(anterior, Despesa), CategoryEntries(cur));
    CategoryEntriesAddUp(cur);
    CategoryEntriesDistinct(cur);
  }

  lemma CategoryEntriesAddUp(cur: seq<Transacao>)
    ensures EntriesSum(CategoryEntries(cur)) == Total(cur, Despesa)
  {
    EntriesSumOver(CategoryOrder(cur), cur);
    CategoryTotalsAddUp(cur);
  }

  lemma CategoryEntriesDistinct(cur: seq<Transacao>)
    ensures forall i, j :: 0 <= i < j < |CategoryEntries(cur)| ==> CategoryEntries(cur)[i].0 != CategoryEntries(cur)[j].0
  {
    CategoryOrderKeys(cur);
  }

  /** The figures come from the two subsets: the totals are theirs, the balance variation
      has the sign of the change in balance, and the categories are those of the current
      subset (see `CategoryEntriesKeys`). */
  lemma FiguresOfSubsets(cur: seq<Transacao>, anterior: seq<Transacao>)
    ensures var f := FiguresOf(cur, anterior);
      && f.totalReceitas == Total(cur, Receita) && f.totalDespesas == Total(cur, Despesa)
      && f.receitasPeriodoAnterior == Total(anterior, Receita)
      && f.saldoPeriodoAnterior == Total(anterior, Receita) - Total(anterior, Despesa)
      && (f.variacaoPercentualSaldo > 0.0 <==> f.saldoPeriodo > f.saldoPeriodoAnterior)
      && (f.variacaoPercentualSaldo < 0.0 <==> f.saldoPeriodo < f.saldoPeriodoAnterior)
      && f.gastosPorCategoria == CategoryEntries(cur)
  {
    FiguresFromFields(Total(cur, Receita), Total(cur, Despesa), Total(anterior, Receita),
                      Total(anterior, Receita) - Total(anterior, Despesa), CategoryEntries(cur));
  }

  /** A key has an entry, carrying its total, exactly when some expense of `cur` has that key. */
  lemma CategoryEntriesKeys(cur: seq<Transacao>)
    ensures forall key :: (exists i :: 0 <= i < |CategoryEntries(cur)| && CategoryEntries(cur)[i] == (key, CategorySum(cur, key))) <==>
      exists t :: t in cur && t.tipo == Despesa && CategoryKey(t) == key
  {
    var es := CategoryEntries(cur);
    CategoryOrderKeys(cur);
    forall key
      ensures (exists i :: 0 <= i < |es| && es[i] == (key, CategorySum(cur, key))) <==> key in CategoryOrder(cur)
    {
      if key in CategoryOrder(cur) {
        var i :| 0 <= i < |CategoryOrder(cur)| && CategoryOrder(cur)[i] == key;
        assert es[i] == (key, CategorySum(cur, key));
      }
    }
  }

  /** While loading, or without any transaction, the figures are all zero with no categories. */
  lemma FiguresWhenEmpty(loading: bool, ts: seq<Transacao>, p: Period, now: Date, custom: Option<CustomRange>)
    requires Valid(now) && ValidCustom(custom) && (loading || |ts| == 0)
    ensures ComputeFigures(loading, ts, p, now, custom) == NoFigures
    ensures NoFigures.gastosPorCategoria == [] && NoFigures.totalReceitas == NoFigures.percentualDespesas == 0.0
  {
  }

  /** The accumulator built by the loop, read back as entries, is `CategoryEntries`. */
  lemma AccumulatedEntries(cur: seq<Transacao>, keys: seq<string>, amounts: map<string, real>)
    requires keys == CategoryOrder(cur)
    requires forall key :: key in amounts <==> key in keys
    requires forall key :: key in amounts ==> amounts[key] == CategorySum(cur, key)
    ensures Entries(keys, amounts) == CategoryEntries(cur)
  {
  }

  lemma ComputeFiguresLoaded(ts: seq<Transacao>, p: Period, now: Date, custom: Option<CustomRange>)
    requires Valid(now) && ValidCustom(custom) && |ts| > 0
    ensures ComputeFigures(false, ts, p, now, custom) == FiguresOf(Current(ts, p, now, custom), Previous(ts, PreviousInterval(p, now, custom)))
  {
  }

  /** `Object.entries(gastosPorCategoria)`, accumulated by the loop. */
  method GastosPorCategoria(cur: seq<Transacao>) returns (gastos: seq<(string, real)>)
    ensures gastos == CategoryEntries(cur)
  {
    var keys, amounts := CategoryTotals(cur);
    gastos := Entries(keys, amounts);
    AccumulatedEntries(cur, keys, amounts);
  }

  /** The totals, ratio, variations and category entries of the two subsets. */
  method ComputeFiguresOf(cur: seq<Transacao>, anterior: seq<Transacao>) returns (figures: Figures)
    ensures figures == FiguresOf(cur, anterior)
  {
    var receitas, despesas := Total(cur, Receita), Total(cur, Despesa);
    var receitasAnterior := Total(anterior, Receita);
    var saldoAnterior := receitasAnterior - Total(anterior, Despesa);
    var gastos := GastosPorCategoria(cur);
    figures := FiguresFrom(receitas, despesas, receitasAnterior, saldoAnterior, gastos);
  }

  /** `processedData`: the figures, and the current period's transactions sorted newest
      first. */
  method ProcessData(loading: bool, ts: seq<Transacao>, p: Period, now: Date, custom: Option<CustomRange>) returns (r: Processed)
    requires Valid(now) && ValidCustom(custom)
    ensures r.figures == ComputeFigures(loading, ts, p, now, custom)
    ensures NewestFirst(r.transacoesFiltradas)
    ensures multiset(r.transacoesFiltradas) == multiset(if loading || |ts| == 0 then [] else Current(ts, p, now, custom))
  {
    if loading || |ts| == 0 {
      return Processed([], NoFigures);
    }
    var cur := Current(ts, p, now, custom);
    var anterior := Previous(ts, PreviousInterval(p, now, custom));
    var figures := ComputeFiguresOf(cur, anterior);
    ComputeFiguresLoaded(ts, p, now, custom);
    var sorted := SortFiltered(cur);
    r := Processed(sorted, figures);
  }

  /** `transacoesFiltradas.sort(...)`: the array `filter` returned, holding the subset, sorted
      newest first in place. */
  method SortFiltered(cur: seq<Transacao>) returns (sorted: seq<Transacao>)
    ensures NewestFirst(sorted)
    ensures multiset(sorted) == multiset(cur)
  {
    var a := new Transacao[|cur|]((i: int) requires 0 <= i < |cur| => cur[i]);
    assert a[..] == cur;
    SortNewestFirst(a);
    sorted := a[..];
  }
}
