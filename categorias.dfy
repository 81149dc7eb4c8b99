/** The user's category list as the `useCategorias` hook (src/hooks/useCategorias.ts)
    keeps it: a local copy of the remote table that each operation updates only once the
    remote call has succeeded. Every remote answer is a parameter. */
module Categorias {
  import opened Wrappers
  import opened Seqs

  datatype Tipo = Receita | Despesa

  /** A stored category row. */
  datatype Categoria = Categoria(
    id: string, user_id: string, nome: string, tipo: Tipo, cor: string, icone: string,
    descricao: Option<string>, created_at: string, updated_at: string)

  /** What `createCategoria` is given: a row without its id, owner and timestamps. */
  datatype NovaCategoria = NovaCategoria(nome: string, tipo: Tipo, cor: string, icone: string, descricao: Option<string>)

  /** The error object of a failed remote call. */
  datatype RemoteError = RemoteError(message: string)

  // ---------------------------------------------------------------------------
  // The list operations
  // ---------------------------------------------------------------------------

  /** `prev.map(cat => cat.id === id ? data : cat)`. */
  function ReplaceById(cs: seq<Categoria>, id: string, c: Categoria): (r: seq<Categoria>)
    ensures |r| == |cs|
    ensures forall i :: 0 <= i < |cs| && cs[i].id == id ==> r[i] == c
    ensures forall i :: 0 <= i < |cs| && cs[i].id != id ==> r[i] == cs[i]
  {
    if |cs| == 0 then []
    else ReplaceById(cs[..|cs| - 1], id, c) + [if cs[|cs| - 1].id == id then c else cs[|cs| - 1]]
  }

  function WithoutId(id: string): Categoria -> bool {
    (c: Categoria) => c.id != id
  }

  /** `prev.filter(cat => cat.id !== id)`. */
  function RemoveById(cs: seq<Categoria>, id: string): (r: seq<Categoria>)
    ensures forall c :: c in r <==> c in cs && c.id != id
    ensures |r| <= |cs|
  {
    Filter(cs, WithoutId(id))
  }

  function OfTipo(t: Tipo): Categoria -> bool {
    (c: Categoria) => c.tipo == t
  }

  /** `categoriasReceita` and `categoriasDespesa`. */
  function ByTipo(cs: seq<Categoria>, t: Tipo): (r: seq<Categoria>)
    ensures forall c :: c in r <==> c in cs && c.tipo == t
    ensures multiset(r) <= multiset(cs)
  {
    Filter(cs, OfTipo(t))
  }

  /** Removing keeps the relative order of what is left: it works piece by piece. */
  lemma RemoveByIdConcat(a: seq<Categoria>, b: seq<Categoria>, id: string)
    ensures RemoveById(a + b, id) == RemoveById(a, id) + RemoveById(b, id)
  {
    FilterConcat(a, b, WithoutId(id));
  }

  /** Deleting a record that was just appended, when no other entry has its id, gives the
      list back as it was before the create. */
  lemma CreateThenDelete(cs: seq<Categoria>, c: Categoria)
    requires forall x :: x in cs ==> x.id != c.id
    ensures RemoveById(cs + [c], c.id) == cs
  {
    RemoveByIdConcat(cs, [c], c.id);
    FilterAll(cs, WithoutId(c.id));
    assert [c][1..] == [];
  }

  /** A delete after an update of the same id is the same as the delete alone: the update
      touched nothing else. */
  lemma {:induction false} UpdateThenDelete(cs: seq<Categoria>, id: string, c: Categoria)
    requires c.id == id
    ensures RemoveById(ReplaceById(cs, id, c), id) == RemoveById(cs, id)
  {
    if |cs| > 0 {
      var init, last := cs[..|cs| - 1], cs[|cs| - 1];
      assert cs == init + [last];
      var x := if last.id == id then c else last;
      UpdateThenDelete(init, id, c);
      RemoveByIdConcat(ReplaceById(init, id, c), [x], id);
      RemoveByIdConcat(init, [last], id);
      assert [x][1..] == [] && [last][1..] == [];
    }
  }

  /** Updating twice with the same record is updating once. */
  lemma UpdateIdempotent(cs: seq<Categoria>, id: string, c: Categoria)
    requires c.id == id
    ensures ReplaceById(ReplaceById(cs, id, c), id, c) == ReplaceById(cs, id, c)
  {
  }

  /** Deleting twice is deleting once. */
  lemma DeleteIdempotent(cs: seq<Categoria>, id: string)
    ensures RemoveById(RemoveById(cs, id), id) == RemoveById(cs, id)
  {
    FilterAll(RemoveById(cs, id), WithoutId(id));
  }

  /** The two type filters split the list: every category is in exactly one of them, as
      often as in the list. */
  lemma {:induction false} ByTipoPartition(cs: seq<Categoria>)
    ensures multiset(ByTipo(cs, Receita)) + multiset(ByTipo(cs, Despesa)) == multiset(cs)
  {
    if |cs| > 0 {
      var head, tail := [cs[0]], cs[1..];
      assert cs == head + tail;
      ByTipoPartition(tail);
      ByTipoConcat(head, tail);
      ByTipoSingle(cs[0]);
      var hr, hd := multiset(ByTipo(head, Receita)), multiset(ByTipo(head, Despesa));
      var tr, td := multiset(ByTipo(tail, Receita)), multiset(ByTipo(tail, Despesa));
      assert multiset(ByTipo(cs, Receita)) == hr + tr;
      assert multiset(ByTipo(cs, Despesa)) == hd + td;
      assert hr + hd == multiset(head) && tr + td == multiset(tail);
      assert (hr + tr) + (hd + td) == (hr + hd) + (tr + td);
      assert multiset(cs) == multiset(head) + multiset(tail);
    }
  }

  /** So the two lists together are as long as the whole list. */
  lemma ByTipoLengths(cs: seq<Categoria>)
    ensures |ByTipo(cs, Receita)| + |ByTipo(cs, Despesa)| == |cs|
  {
    ByTipoPartition(cs);
    assert |multiset(ByTipo(cs, Receita)) + multiset(ByTipo(cs, Despesa))| == |multiset(cs)|;
  }

  lemma ByTipoConcat(a: seq<Categoria>, b: seq<Categoria>)
    ensures ByTipo(a + b, Receita) == ByTipo(a, Receita) + ByTipo(b, Receita)
    ensures ByTipo(a + b, Despesa) == ByTipo(a, Despesa) + ByTipo(b, Despesa)
  {
    FilterConcat(a, b, OfTipo(Receita));
    FilterConcat(a, b, OfTipo(Despesa));
  }

  /** A single category lands in the list of its own type only. */
  lemma ByTipoSingle(c: Categoria)
    ensures multiset(ByTipo([c], Receita)) + multiset(ByTipo([c], Despesa)) == multiset([c])
  {
    assert [c][1..] == [];
    if c.tipo == Receita {
      FilterAll([c], OfTipo(Receita));
      FilterNone([c], OfTipo(Despesa));
    } else {
      FilterNone([c], OfTipo(Receita));
      FilterAll([c], OfTipo(Despesa));
    }
  }

  // ---------------------------------------------------------------------------
  // The default categories
  // ---------------------------------------------------------------------------

  function Padrao(nome: string, tipo: Tipo, cor: string, icone: string): NovaCategoria {
    NovaCategoria(nome, tipo, cor, icone, None)
  }

  /** `categoriasPadrao`, in the order they are created. */
  function Defaults(): (ds: seq<NovaCategoria>)
    ensures |ds| == 14
    ensures forall i :: 0 <= i < 5 ==> ds[i].tipo == Receita
    ensures forall i :: 5 <= i < 14 ==> ds[i].tipo == Despesa
    ensures forall i :: 0 <= i < 14 ==> ds[i].descricao == None
  {
    [ Padrao("Salário", Receita, "#10B981", "DollarSign"),
      Padrao("Outras receitas", Receita, "#3B82F6", "Briefcase"),
      Padrao("Investimentos", Receita, "#8B5CF6", "TrendingUp"),
      Padrao("Vendas", Receita, "#F59E0B", "ShoppingBag"),
      Padrao("Aluguel Recebido", Receita, "#059669", "Home"),
      Padrao("Alimentação", Despesa, "#EF4444", "Utensils"),
      Padrao("Transporte", Despesa, "#F97316", "Car"),
      Padrao("Moradia", Despesa, "#6366F1", "Home"),
      Padrao("Saúde", Despesa, "#EC4899", "Heart"),
      Padrao("Educação", Despesa, "#14B8A6", "BookOpen"),
      Padrao("Lazer", Despesa, "#8B5CF6", "Gamepad2"),
      Padrao("Roupas", Despesa, "#F59E0B", "Shirt"),
      Padrao("Tecnologia", Despesa, "#6B7280", "Smartphone"),
      Padrao("Outras despesas", Despesa, "#84CC16", "DollarSign") ]
  }

  /** Whether a remote create answered with a record. */
  predicate Succeeded(r: Result<Categoria, RemoteError>) {
    r.Success?
  }

  /** The records that the successful creates returned, in call order. */
  function Created(responses: seq<Result<Categoria, RemoteError>>): (cs: seq<Categoria>)
    ensures |cs| <= |responses|
    ensures forall c :: c in cs <==> Success(c) in responses
  {
    if |responses| == 0 then []
    else
      var init := responses[..|responses| - 1];
      assert responses == init + [responses[|responses| - 1]];
      Created(init) + (if responses[|responses| - 1].Success? then [responses[|responses| - 1].value] else [])
  }

  /** The created records match the successful answers one to one and in call order: the
      `j`-th record is the value of the `j`-th success. */
  lemma {:induction false} CreatedInOrder(responses: seq<Result<Categoria, RemoteError>>)
    ensures |Created(responses)| == |Filter(responses, Succeeded)|
    ensures forall j :: 0 <= j < |Created(responses)| ==> Filter(responses, Succeeded)[j] == Success(Created(responses)[j])
  {
    if |responses| > 0 {
      var init := responses[..|responses| - 1];
      var last := responses[|responses| - 1];
      assert responses == init + [last];
      CreatedInOrder(init);
      FilterConcat(init, [last], Succeeded);
      assert [last][1..] == [];
    }
  }

  /** `checkHasCategorias`: the exact row count must be known and positive; a failed
      query answers false. */
  function HasCategorias(response: Result<Option<int>, RemoteError>): (b: bool)
    ensures b ==> response.Success?
    ensures response.Success? ==> (b <==> response.value.Some? && response.value.value > 0)
  {
    match response
    case Success(count) => count.Some? && count.value > 0
    case Failure(_) => false
  }

  // ---------------------------------------------------------------------------
  // The hook's state
  // ---------------------------------------------------------------------------

  class CategoryStore {
    var categorias: seq<Categoria>
    var loading: bool

    /** The initial state: no categories yet, loading. */
    constructor ()
      ensures categorias == [] && loading
    {
      categorias := [];
      loading := true;
    }

    function Receitas(): (r: seq<Categoria>)
      reads this
      ensures forall c :: c in r <==> c in categorias && c.tipo == Receita
    {
      ByTipo(categorias, Receita)
    }

    function Despesas(): (r: seq<Categoria>)
      reads this
      ensures forall c :: c in r <==> c in categorias && c.tipo == Despesa
    {
      ByTipo(categorias, Despesa)
    }

    /** `fetchCategorias`: the rows received replace the list (no rows: an empty list); on
        an error the list stays as it was. Loading ends either way. */
    method Fetch(response: Result<Option<seq<Categoria>>, RemoteError>)
      modifies this
      ensures !loading
      ensures response.Success? && response.value.Some? ==> categorias == response.value.value
      ensures response.Success? && response.value.None? ==> categorias == []
      ensures response.Failure? ==> categorias == old(categorias)
    {
      if response.Success? {
        categorias := if response.value.Some? then response.value.value else [];
      }
      loading := false;
    }

    /** `createCategoria`: the inserted record comes back from the remote call and is
        appended; an error is returned and changes nothing. */
    method Create(nova: NovaCategoria, response: Result<Categoria, RemoteError>) returns (r: Result<Categoria, RemoteError>)
      modifies this`categorias
      ensures r == response
      ensures categorias == if response.Success? then old(categorias) + [response.value] else old(categorias)
    {
      r := response;
      if response.Success? {
        categorias := categorias + [response.value];
      }
    }

    /** `updateCategoria`: the returned record replaces every entry with that id. */
    method Update(id: string, response: Result<Categoria, RemoteError>) returns (r: Result<Categoria, RemoteError>)
      modifies this`categorias
      ensures r == response
      ensures categorias == if response.Success? then ReplaceById(old(categorias), id, response.value) else old(categorias)
    {
      r := response;
      if response.Success? {
        categorias := ReplaceById(categorias, id, response.value);
      }
    }

    /** `deleteCategoria`: the answer is the remote error, if any. */
    method Delete(id: string, response: Option<RemoteError>) returns (error: Option<RemoteError>)
      modifies this`categorias
      ensures error == response
      ensures categorias == if response.None? then RemoveById(old(categorias), id) else old(categorias)
    {
      error := response;
      if response.None? {
        categorias := RemoveById(categorias, id);
      }
    }

    /** `importarCategoriasPadrao`: creates the defaults one after the other, in the listed
        order, each with its own remote answer. A failed create reports its own error and
        the loop goes on, so the import always reports success. */
    method ImportDefaults(responses: seq<Result<Categoria, RemoteError>>) returns (issued: seq<NovaCategoria>, success: bool)
      requires |responses| == |Defaults()|
      modifies this`categorias
      ensures issued == Defaults()
      ensures categorias == old(categorias) + Created(responses)
      ensures success
    {
      issued := CreateAll(Defaults(), responses);
      success := true;
    }

    /** The loop of the import: one create per entry of `ds`, in order, each with its own
        remote answer. */
    method CreateAll(ds: seq<NovaCategoria>, responses: seq<Result<Categoria, RemoteError>>) returns (issued: seq<NovaCategoria>)
      requires |responses| == |ds|
      modifies this`categorias
      ensures issued == ds
      ensures categorias == old(categorias) + Created(responses)
    {
      issued := [];
      var i := 0;
      while i < |ds|
        invariant 0 <= i <= |ds|
        invariant issued == ds[..i]
        invariant categorias == old(categorias) + Created(responses[..i])
      {
        var _ := Create(ds[i], responses[i]);
        assert responses[..i + 1][..i] == responses[..i];
        issued := issued + [ds[i]];
        i := i + 1;
      }
      assert responses[..i] == responses;
    }
  }
}
