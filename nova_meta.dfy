/** The new-goal dialog (src/components/NovaMetaModal.tsx): its text form, the required
    fields, the goal record built from the form, the reset after a submit and the import
    of the default goal categories. `Number(...)` and the callbacks are parameters. */
module NovaMeta {
  import opened Wrappers
  import opened DateKeys
  import opened Indicators

  /** The dialog's form state: every input as the text typed into it. */
  datatype FormData = FormData(
    titulo: string, tipo: string, valorAlvo: string, valorAtual: string,
    dataInicio: string, dataLimite: string, categoriaId: string, descricao: string)

  /** The names `handleInputChange` is called with. */
  datatype Field = Titulo | TipoMeta | ValorAlvo | ValorAtual | DataInicio | DataLimite | CategoriaId | Descricao

  datatype Status = Ativa | Concluida | Pausada | Vencida

  /** `MetaForm`, the record handed to `onAdicionarMeta`. */
  datatype MetaForm = MetaForm(
    titulo: string, tipo: string, valor_alvo: JsNumber, valor_atual: JsNumber,
    data_inicio: string, data_limite: string, status: Status,
    categoria_meta_id: string, descricao: string)

  /** A default goal category as handed to `onCriarCategoria`. */
  datatype CategoriaMetaNova = CategoriaMetaNova(nome: string, cor: string, descricao: string, ativa: bool)

  /** The initial form, and the one a successful submit resets to. */
  function EmptyForm(): (f: FormData)
    ensures f.tipo == "economia"
    ensures f.titulo == f.valorAlvo == f.valorAtual == f.dataInicio == f.dataLimite == f.categoriaId == f.descricao == ""
  {
    FormData("", "economia", "", "", "", "", "", "")
  }

  // ---------------------------------------------------------------------------
  // handleInputChange
  // ---------------------------------------------------------------------------

  function Get(f: FormData, field: Field): string {
    match field
    case Titulo => f.titulo
    case TipoMeta => f.tipo
    case ValorAlvo => f.valorAlvo
    case ValorAtual => f.valorAtual
    case DataInicio => f.dataInicio
    case DataLimite => f.dataLimite
    case CategoriaId => f.categoriaId
    case Descricao => f.descricao
  }

  /** `{ ...prev, [field]: value }`: the named field takes the value and no other changes. */
  function Set(f: FormData, field: Field, value: string): (g: FormData)
    ensures Get(g, field) == value
    ensures forall other :: other != field ==> Get(g, other) == Get(f, other)
  {
    match field
    case Titulo => f.(titulo := value)
    case TipoMeta => f.(tipo := value)
    case ValorAlvo => f.(valorAlvo := value)
    case ValorAtual => f.(valorAtual := value)
    case DataInicio => f.(dataInicio := value)
    case DataLimite => f.(dataLimite := value)
    case CategoriaId => f.(categoriaId := value)
    case Descricao => f.(descricao := value)
  }

  /** A form is determined by its fields, so setting a field to what it holds changes
      nothing, and a later change of the same field overrides an earlier one. */
  lemma SetLaws(f: FormData, field: Field, v: string, w: string)
    ensures Set(f, field, Get(f, field)) == f
    ensures Set(Set(f, field, v), field, w) == Set(f, field, w)
  {
  }

  // ---------------------------------------------------------------------------
  // handleSubmit
  // ---------------------------------------------------------------------------

  /** The guard: title, target value, deadline and category must all be filled in. */
  predicate MissingRequired(f: FormData) {
    f.titulo == "" || f.valorAlvo == "" || f.dataLimite == "" || f.categoriaId == ""
  }

  /** `x || 0` on a number: NaN and 0 are falsy, so both become 0. */
  function OrZero(n: JsNumber): (r: JsNumber)
    ensures r != NaN
    ensures n == NaN || n == Finite(0.0) ==> r == Finite(0.0)
    ensures n != NaN ==> r == n
  {
    if n == NaN || n == Finite(0.0) then Finite(0.0) else n
  }

  /** `x || y` on strings: the empty string is falsy. */
  function OrElse(s: string, fallback: string): (r: string)
    ensures s != "" ==> r == s
    ensures s == "" ==> r == fallback
  {
    if s != "" then s else fallback
  }

  /** `novaMeta`. `parse` is JavaScript's `Number` on strings, `nowIso` the current
      instant's `toISOString()`. */
  function BuildMeta(f: FormData, parse: string -> JsNumber, nowIso: string): (m: MetaForm)
    ensures m.status == Ativa
    ensures m.titulo == f.titulo && m.tipo == f.tipo && m.data_limite == f.dataLimite
    ensures m.categoria_meta_id == f.categoriaId && m.descricao == f.descricao
    ensures m.valor_alvo == parse(f.valorAlvo)
    ensures m.valor_atual != NaN
    ensures m.data_inicio == if f.dataInicio == "" then DatePart(nowIso) else f.dataInicio
  {
    MetaForm(f.titulo, f.tipo, parse(f.valorAlvo), OrZero(parse(f.valorAtual)),
             OrElse(f.dataInicio, Split(nowIso, 'T')[0]), f.dataLimite, Ativa, f.categoriaId, f.descricao)
  }

  /** `Number("")` is 0 in JavaScript. */
  ghost predicate NumberOfEmptyIsZero(parse: string -> JsNumber) {
    parse("") == Finite(0.0)
  }

  /** The current value falls back to 0 when it was left empty or does not parse, and is
      kept otherwise; the start date falls back to today's date part when left empty. */
  lemma MetaDefaults(f: FormData, parse: string -> JsNumber, nowIso: string)
    requires NumberOfEmptyIsZero(parse)
    ensures f.valorAtual == "" ==> BuildMeta(f, parse, nowIso).valor_atual == Finite(0.0)
    ensures parse(f.valorAtual) == NaN ==> BuildMeta(f, parse, nowIso).valor_atual == Finite(0.0)
    ensures parse(f.valorAtual) != NaN ==> BuildMeta(f, parse, nowIso).valor_atual == parse(f.valorAtual)
  {
  }

  /** The form a submit resets to fails the guard, so a second submit is rejected. */
  lemma ResetFormIsRejected()
    ensures MissingRequired(EmptyForm())
  {
  }

  // ---------------------------------------------------------------------------
  // Default goal categories
  // ---------------------------------------------------------------------------

  function Padrao(nome: string, cor: string, descricao: string): CategoriaMetaNova {
    CategoriaMetaNova(nome, cor, descricao, true)
  }

  /** `categoriasPadrao` of the import, each sent with `ativa: true`. */
  function DefaultGoalCategories(): (ds: seq<CategoriaMetaNova>)
    ensures |ds| == 5
    ensures forall i :: 0 <= i < |ds| ==> ds[i].ativa
  {
    [ Padrao("Emergência", "#EF4444", "Reserva para emergências e imprevistos"),
      Padrao("Viagem", "#3B82F6", "Economias para viagens e férias"),
      Padrao("Investimentos", "#10B981", "Aportes em investimentos"),
      Padrao("Casa Própria", "#F59E0B", "Economia para compra da casa própria"),
      Padrao("Compras", "#8B5CF6", "Objetivo de comprar") ]
  }

  /** How an import ended. */
  datatype ImportOutcome = NoCallback | Imported | ImportFailed

  /** The number of creates an import issues when the create at index `failAt` (if any)
      throws: every default up to and including the failing one. */
  function IssuedCount(failAt: Option<nat>): (n: nat)
    ensures n <= 5
    ensures failAt.None? || failAt.value >= 5 ==> n == 5
    ensures failAt.Some? && failAt.value < 5 ==> n == failAt.value + 1
  {
    if failAt.Some? && failAt.value < 5 then failAt.value + 1 else 5
  }

  // ---------------------------------------------------------------------------
  // The dialog's state
  // ---------------------------------------------------------------------------

  class MetaModal {
    var open: bool
    var formData: FormData
    var importandoCategorias: bool

    constructor ()
      ensures !open && formData == EmptyForm() && !importandoCategorias
    {
      open := false;
      formData := EmptyForm();
      importandoCategorias := false;
    }

    method HandleInputChange(field: Field, value: string)
      modifies this`formData
      ensures formData == Set(old(formData), field, value)
    {
      formData := Set(formData, field, value);
    }

    /** `handleSubmit`: with a required field empty nothing is handed on and nothing
        changes; otherwise the built record is handed to `onAdicionarMeta` (returned here),
        the form is reset and the dialog closes. */
    method HandleSubmit(parse: string -> JsNumber, nowIso: string) returns (added: Option<MetaForm>)
      modifies this`formData, this`open
      ensures MissingRequired(old(formData)) ==> added == None && formData == old(formData) && open == old(open)
      ensures !MissingRequired(old(formData)) ==>
        added == Some(BuildMeta(old(formData), parse, nowIso)) && formData == EmptyForm() && !open
    {
      if MissingRequired(formData) {
        return None;
      }
      var novaMeta := BuildMeta(formData, parse, nowIso);
      added := Some(novaMeta);
      formData := EmptyForm();
      open := false;
    }

    /** `handleImportarCategoriasPadrao`: without a create callback nothing is created;
        otherwise the defaults are created one after the other, until one throws. The flag
        is down again however the import ends. */
    method ImportDefaults(hasCallback: bool, failAt: Option<nat>) returns (created: seq<CategoriaMetaNova>, outcome: ImportOutcome)
      modifies this`importandoCategorias
      ensures !hasCallback ==> created == [] && outcome == NoCallback && importandoCategorias == old(importandoCategorias)
      ensures hasCallback ==> !importandoCategorias
      ensures hasCallback ==> created == DefaultGoalCategories()[..IssuedCount(failAt)]
      ensures hasCallback ==> (outcome == Imported <==> failAt.None? || failAt.value >= 5)
      ensures hasCallback ==> (outcome == ImportFailed <==> failAt.Some? && failAt.value < 5)
    {
      created := [];
      if !hasCallback {
        return [], NoCallback;
      }
      importandoCategorias := true;
      var ds := DefaultGoalCategories();
      outcome := Imported;
      var i := 0;
      while i < |ds|
        invariant 0 <= i <= |ds|
        invariant created == ds[..i]
        invariant forall k :: 0 <= k < i ==> failAt != Some(k)
      {
        created := created + [ds[i]];
        if failAt == Some(i) {
          outcome := ImportFailed;
          break;
        }
        i := i + 1;
      }
      importandoCategorias := false;
    }
  }
}
