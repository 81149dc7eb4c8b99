/** The transaction snapshot and what the dashboard computes from it in
    `processedData` (src/pages/Dashboard.tsx): the period filters, the income and
    expense sums, the per-category expense totals and the newest-first ordering. */
module Aggregation {
  import opened Wrappers
  import opened Calendar
  import opened DateKeys
  import opened Periods
  import opened Seqs

  datatype Tipo = Receita | Despesa

  /** A stored transaction. `data` is the stored date text (`YYYY-MM-DD`, possibly
      followed by a `T…` time part); `categoria` is the joined category's name, when the
      join produced one. */
  datatype Transacao = Transacao(id: string, data: string, valor: real, tipo: Tipo, categoria: Option<string>)

  /** The current-period subset, `transacoesFiltradas` before it is sorted. */
  function Current(ts: seq<Transacao>, p: Period, now: Date, custom: Option<CustomRange>): seq<Transacao>
    requires Valid(now) && ValidCustom(custom)
  {
    Filter(ts, (t: Transacao) => InCurrentPeriod(p, now, custom, DatePart(t.data)))
  }

  /** `transacoesPeriodoAnterior`: the transactions whose date part is inside the interval. */
  function Previous(ts: seq<Transacao>, iv: Interval): seq<Transacao> {
    Filter(ts, (t: Transacao) => InInterval(iv, DatePart(t.data)))
  }

  /** On an unrecognised selector value, such as the accented Month tab, the current
      period holds every transaction. */
  lemma UnrecognisedKeepsAll(ts: seq<Transacao>, tag: string, now: Date, custom: Option<CustomRange>)
    requires Valid(now) && ValidCustom(custom) && ParsePeriod(tag).Unrecognised?
    ensures Current(ts, ParsePeriod(tag), now, custom) == ts
  {
    forall t | t in ts
      ensures InCurrentPeriod(ParsePeriod(tag), now, custom, DatePart(t.data))
    {
      CurrentUnrecognised(now, custom, tag, DatePart(t.data));
    }
    FilterAll(ts, (t: Transacao) => InCurrentPeriod(ParsePeriod(tag), now, custom, DatePart(t.data)));
  }

  /** The fallback interval `("", "")` leaves no transaction with a date in the previous
      period, and so leaves it empty. */
  lemma FallbackIsEmpty(ts: seq<Transacao>)
    requires forall t :: t in ts ==> DatePart(t.data) != ""
    ensures Previous(ts, Interval("", "")) == []
  {
    forall t | t in ts
      ensures !InInterval(Interval("", ""), DatePart(t.data))
    {
      PreviousFallback(Date(2000, 1, 1), "", DatePart(t.data));
    }
    FilterNone(ts, (t: Transacao) => InInterval(Interval("", ""), DatePart(t.data)));
  }

  // ---------------------------------------------------------------------------
  // Sums
  // ---------------------------------------------------------------------------

  /** `reduce((total, t) => total + Number(t.valor), 0)`, a left fold. */
  function Sum(ts: seq<Transacao>): real {
    if |ts| == 0 then 0.0 else Sum(ts[..|ts| - 1]) + ts[|ts| - 1].valor
  }

  /** The test `(t) => t.tipo === k`. */
  function OfKind(k: Tipo): Transacao -> bool {
    (t: Transacao) => t.tipo == k
  }

  /** `filter((t) => t.tipo === k).reduce(…)`: the total of one kind of transaction. */
  function Total(ts: seq<Transacao>, k: Tipo): real {
    Sum(Filter(ts, OfKind(k)))
  }

  lemma {:induction false} SumConcat(a: seq<Transacao>, b: seq<Transacao>)
    ensures Sum(a + b) == Sum(a) + Sum(b)
    decreases |b|
  {
    if |b| == 0 {
      assert a + b == a;
    } else {
      assert (a + b)[..|a + b| - 1] == a + b[..|b| - 1];
      SumConcat(a, b[..|b| - 1]);
    }
  }

  /** The total of a kind is additive over a split of the snapshot, counts a transaction
      of that kind with its amount and ignores a transaction of the other kind. */
  lemma TotalConcat(a: seq<Transacao>, b: seq<Transacao>, k: Tipo)
    ensures Total(a + b, k) == Total(a, k) + Total(b, k)
  {
    FilterConcat(a, b, OfKind(k));
    SumConcat(Filter(a, OfKind(k)), Filter(b, OfKind(k)));
  }

  lemma TotalSingle(t: Transacao, k: Tipo)
    ensures Total([t], k) == if t.tipo == k then t.valor else 0.0
  {
    assert [t][1..] == [] && [t][..0] == [];
    assert Sum([t]) == t.valor;
    if t.tipo == k {
      assert OfKind(k)(t);
      assert Filter([t], OfKind(k)) == [t];
    } else {
      assert Filter([t], OfKind(k)) == [];
    }
  }

  /** Step rule for the totals, appending one transaction. */
  lemma TotalSnoc(ts: seq<Transacao>, t: Transacao, k: Tipo)
    ensures Total(ts + [t], k) == Total(ts, k) + (if t.tipo == k then t.valor else 0.0)
  {
    TotalConcat(ts, [t], k);
    TotalSingle(t, k);
  }

  lemma TotalEmpty(k: Tipo)
    ensures Total([], k) == 0.0
  {
  }

  // ---------------------------------------------------------------------------
  // gastosPorCategoria
  // ---------------------------------------------------------------------------

  /** `transacao.categorias?.nome || "Outros"`: a missing or empty name is filed under "Outros". */
  function CategoryKey(t: Transacao): (k: string)
    ensures k != ""
    ensures k == "Outros" <==> t.categoria.None? || t.categoria.value == "" || t.categoria.value == "Outros"
    ensures k != "Outros" ==> t.categoria == Some(k)
  {
    if t.categoria.Some? && t.categoria.value != "" then t.categoria.value else "Outros"
  }

  /** The expense total of one category key over `ts`. */
  function CategorySum(ts: seq<Transacao>, key: string): real {
    if |ts| == 0 then 0.0
    else
      var t := ts[|ts| - 1];
      CategorySum(ts[..|ts| - 1], key) + (if t.tipo == Despesa && CategoryKey(t) == key then t.valor else 0.0)
  }

  /** The accumulator object's keys in insertion order: each expense's key the first
      time it is seen. */
  function CategoryOrder(ts: seq<Transacao>): seq<string> {
    if |ts| == 0 then []
    else
      var prefix := CategoryOrder(ts[..|ts| - 1]);
      var t := ts[|ts| - 1];
      if t.tipo == Despesa && CategoryKey(t) !in prefix then prefix + [CategoryKey(t)] else prefix
  }

  predicate Distinct(keys: seq<string>) {
    forall i, j :: 0 <= i < j < |keys| ==> keys[i] != keys[j]
  }

  /** The keys are distinct, and a key is present exactly when some expense carries it. */
  lemma {:induction false} CategoryOrderKeys(ts: seq<Transacao>)
    ensures Distinct(CategoryOrder(ts))
    ensures forall key :: key in CategoryOrder(ts) <==> exists t :: t in ts && t.tipo == Despesa && CategoryKey(t) == key
  {
    if |ts| > 0 {
      var init, t := ts[..|ts| - 1], ts[|ts| - 1];
      CategoryOrderKeys(init);
      assert ts == init + [t];
      forall key ensures key in CategoryOrder(ts) <==> exists u :: u in ts && u.tipo == Despesa && CategoryKey(u) == key {
        if key in CategoryOrder(ts) && !(key in CategoryOrder(init)) {
          assert t in ts && t.tipo == Despesa && CategoryKey(t) == key;
        }
        if exists u :: u in ts && u.tipo == Despesa && CategoryKey(u) == key {
          var u :| u in ts && u.tipo == Despesa && CategoryKey(u) == key;
          if u != t {
            assert u in init;
          }
        }
      }
    }
  }

  /** A key no expense carries has total 0. */
  lemma {:induction false} CategorySumAbsent(ts: seq<Transacao>, key: string)
    requires key !in CategoryOrder(ts)
    ensures CategorySum(ts, key) == 0.0
  {
    if |ts| > 0 {
      var init := ts[..|ts| - 1];
      assert key !in CategoryOrder(init);
      CategorySumAbsent(init, key);
    }
  }

  /** Income transactions contribute nothing: the category totals only see expenses. */
  lemma {:induction false} CategorySumIgnoresIncome(ts: seq<Transacao>, t: Transacao, key: string)
    requires t.tipo == Receita
    ensures CategorySum(ts + [t], key) == CategorySum(ts, key)
    ensures CategoryOrder(ts + [t]) == CategoryOrder(ts)
  {
    assert (ts + [t])[..|ts + [t]| - 1] == ts;
  }

  /** The sum, over a list of distinct keys, of the category totals. */
  function SumOver(keys: seq<string>, ts: seq<Transacao>): real {
    if |keys| == 0 then 0.0 else SumOver(keys[..|keys| - 1], ts) + CategorySum(ts, keys[|keys| - 1])
  }

  /** Adding `v` to the total of key `k0` adds `v` to the sum over any distinct list that holds `k0`. */
  lemma {:induction false} SumOverStep(keys: seq<string>, ts: seq<Transacao>, t: Transacao)
    requires Distinct(keys) && t.tipo == Despesa
    ensures SumOver(keys, ts + [t]) == SumOver(keys, ts) + (if CategoryKey(t) in keys then t.valor else 0.0)
  {
    if |keys| > 0 {
      var init, last := keys[..|keys| - 1], keys[|keys| - 1];
      assert keys == init + [last];
      SumOverStep(init, ts, t);
      assert (ts + [t])[..|ts + [t]| - 1] == ts;
      assert last !in init;
    }
  }

  lemma SumOverAppend(keys: seq<string>, key: string, ts: seq<Transacao>)
    ensures SumOver(keys + [key], ts) == SumOver(keys, ts) + CategorySum(ts, key)
  {
    assert (keys + [key])[..|keys + [key]| - 1] == keys;
  }

  /** The category totals add up to the total expense. */
  lemma {:induction false} CategoryTotalsAddUp(ts: seq<Transacao>)
    ensures SumOver(CategoryOrder(ts), ts) == Total(ts, Despesa)
  {
    if |ts| == 0 {
      TotalEmpty(Despesa);
    } else {
      var init, t := ts[..|ts| - 1], ts[|ts| - 1];
      assert ts == init + [t];
      CategoryTotalsAddUp(init);
      if t.tipo == Receita {
        AddUpIncome(init, t);
      } else {
        AddUpExpense(init, t);
      }
    }
  }

  lemma AddUpIncome(init: seq<Transacao>, t: Transacao)
    requires t.tipo == Receita && SumOver(CategoryOrder(init), init) == Total(init, Despesa)
    ensures SumOver(CategoryOrder(init + [t]), init + [t]) == Total(init + [t], Despesa)
  {
    TotalSnoc(init, t, Despesa);
    CategorySumIgnoresIncome(init, t, "");
    SumOverIgnoresIncome(CategoryOrder(init), init, t);
  }

  lemma AddUpExpense(init: seq<Transacao>, t: Transacao)
    requires t.tipo == Despesa && SumOver(CategoryOrder(init), init) == Total(init, Despesa)
    ensures SumOver(CategoryOrder(init + [t]), init + [t]) == Total(init + [t], Despesa)
  {
    var keys, key := CategoryOrder(init), CategoryKey(t);
    TotalSnoc(init, t, Despesa);
    CategoryOrderDistinct(init);
    SumOverStep(keys, init, t);
    if key !in keys {
      NewKeyTotal(init, t);
    } else {
      KnownKeyOrder(init, t);
    }
  }

  /** An expense with a key already seen leaves the key order as it was. */
  lemma KnownKeyOrder(init: seq<Transacao>, t: Transacao)
    requires CategoryKey(t) in CategoryOrder(init)
    ensures CategoryOrder(init + [t]) == CategoryOrder(init)
  {
    assert (init + [t])[..|init + [t]| - 1] == init;
  }

  /** An expense with a key not seen before appends its key, whose total is then its amount. */
  lemma NewKeyTotal(init: seq<Transacao>, t: Transacao)
    requires t.tipo == Despesa && CategoryKey(t) !in CategoryOrder(init)
    ensures CategoryOrder(init + [t]) == CategoryOrder(init) + [CategoryKey(t)]
    ensures SumOver(CategoryOrder(init + [t]), init + [t]) == SumOver(CategoryOrder(init), init + [t]) + t.valor
  {
    assert (init + [t])[..|init + [t]| - 1] == init;
    SumOverAppend(CategoryOrder(init), CategoryKey(t), init + [t]);
    CategorySumAbsent(init, CategoryKey(t));
  }

  lemma CategoryOrderDistinct(ts: seq<Transacao>)
    ensures Distinct(CategoryOrder(ts))
  {
    CategoryOrderKeys(ts);
  }

  lemma {:induction false} SumOverIgnoresIncome(keys: seq<string>, ts: seq<Transacao>, t: Transacao)
    requires t.tipo == Receita
    ensures SumOver(keys, ts + [t]) == SumOver(keys, ts)
  {
    if |keys| > 0 {
      SumOverIgnoresIncome(keys[..|keys| - 1], ts, t);
      CategorySumIgnoresIncome(ts, t, keys[|keys| - 1]);
    }
  }

  /** The reduce over the expenses: the accumulator object as its keys in insertion order
      and their values. */
  method CategoryTotals(ts: seq<Transacao>) returns (keys: seq<string>, amounts: map<string, real>)
    ensures keys == CategoryOrder(ts)
    ensures forall key :: key in amounts <==> key in keys
    ensures forall key :: key in amounts ==> amounts[key] == CategorySum(ts, key)
  {
    keys, amounts := [], map[];
    var i := 0;
    while i < |ts|
      invariant 0 <= i <= |ts|
      invariant keys == CategoryOrder(ts[..i])
      invariant forall key :: key in amounts <==> key in keys
      invariant forall key :: key in amounts ==> amounts[key] == CategorySum(ts[..i], key)
    {
      var t := ts[i];
      assert ts[..i + 1][..i] == ts[..i];
      if t.tipo == Despesa {
        var key := CategoryKey(t);
        if key !in amounts {
          CategorySumAbsent(ts[..i], key);
          keys := keys + [key];
        }
        var before := if key in amounts then amounts[key] else 0.0;
        amounts := amounts[key := before + t.valor];
      }
      i := i + 1;
    }
    assert ts[..i] == ts;
  }

  /** `Object.entries(gastosPorCategoria)`, in insertion order. */
  function Entries(keys: seq<string>, amounts: map<string, real>): (es: seq<(string, real)>)
    requires forall key :: key in keys ==> key in amounts
    ensures |es| == |keys|
    ensures forall i :: 0 <= i < |es| ==> es[i] == (keys[i], amounts[keys[i]])
  {
    if |keys| == 0 then [] else [(keys[0], amounts[keys[0]])] + Entries(keys[1..], amounts)
  }

  // ---------------------------------------------------------------------------
  // Sorting the filtered transactions newest first, by their date text
  // ---------------------------------------------------------------------------

  /** Newest first: no later element's date text is greater than an earlier one's. */
  predicate NewestFirst(s: seq<Transacao>) {
    forall i, j :: 0 <= i < j < |s| ==> !StrLess(s[i].data, s[j].data)
  }

  lemma NotLessTransitive(a: string, b: string, c: string)
    requires !StrLess(a, b) && !StrLess(b, c)
    ensures !StrLess(a, c)
  {
    StrLessTotal(a, b);
    if StrLess(a, c) && a != b {
      StrLessTransitive(b, a, c);
    }
  }

  /** The insertion step's state over `s[..i+1]`, with the moving element at `j`: apart from
      it everything is in order, and the elements after it are smaller. */
  predicate Inserting(s: seq<Transacao>, i: int, j: int)
    requires 0 <= j <= i < |s|
  {
    && (forall k, l :: 0 <= k < l <= i && k != j && l != j ==> !StrLess(s[k].data, s[l].data))
    && (forall l :: j < l <= i ==> StrLess(s[l].data, s[j].data))
  }

  /** Before the step, only the new element can be out of place. */
  lemma InsertingStart(s: seq<Transacao>, i: int)
    requires 0 <= i < |s| && NewestFirst(s[..i])
    ensures Inserting(s, i, i)
  {
    forall k, l | 0 <= k < l < i
      ensures !StrLess(s[k].data, s[l].data)
    {
      assert s[k] == s[..i][k] && s[l] == s[..i][l];
    }
  }

  /** Swapping the moving element with a smaller predecessor keeps the state. */
  lemma InsertingSwap(s: seq<Transacao>, i: int, j: int)
    requires 0 < j <= i < |s| && Inserting(s, i, j) && StrLess(s[j - 1].data, s[j].data)
    ensures Inserting(s[j - 1 := s[j]][j := s[j - 1]], i, j - 1)
  {
  }

  /** Once the moving element has stopped, `s[..i+1]` is in order. */
  lemma InsertingDone(s: seq<Transacao>, i: int, j: int)
    requires 0 <= j <= i < |s| && Inserting(s, i, j)
    requires j > 0 ==> !StrLess(s[j - 1].data, s[j].data)
    ensures NewestFirst(s[..i + 1])
  {
    forall k, l | 0 <= k < l <= i
      ensures !StrLess(s[k].data, s[l].data)
    {
      if l == j && k < j - 1 {
        NotLessTransitive(s[k].data, s[j - 1].data, s[j].data);
      } else if k == j {
        StrLessTotal(s[l].data, s[j].data);
      }
    }
  }

  /** One insertion step: moves `a[i]` left past the strictly smaller elements. */
  method Insert(a: array<Transacao>, i: int)
    requires 0 <= i < a.Length && NewestFirst(a[..i])
    modifies a
    ensures NewestFirst(a[..i + 1])
    ensures a[i + 1..] == old(a[i + 1..])
    ensures multiset(a[..]) == multiset(old(a[..]))
  {
    InsertingStart(a[..], i);
    var j := i;
    while j > 0 && StrLess(a[j - 1].data, a[j].data)
      invariant 0 <= j <= i && Inserting(a[..], i, j)
      invariant a[i + 1..] == old(a[i + 1..])
      invariant multiset(a[..]) == multiset(old(a[..]))
    {
      InsertingSwap(a[..], i, j);
      a[j - 1], a[j] := a[j], a[j - 1];
      j := j - 1;
    }
    InsertingDone(a[..], i, j);
  }

  /** Sorts in place, newest first, by insertion: an element only moves past elements
      whose date text is strictly smaller, so ties keep their order. */
  method SortNewestFirst(a: array<Transacao>)
    modifies a
    ensures NewestFirst(a[..])
    ensures multiset(a[..]) == multiset(old(a[..]))
  {
    var i := 0;
    while i < a.Length
      invariant 0 <= i <= a.Length
      invariant NewestFirst(a[..i])
      invariant multiset(a[..]) == multiset(old(a[..]))
    {
      Insert(a, i);
      i := i + 1;
    }
    assert a[..i] == a[..];
  }
}
