/**
 * The product record, the request bodies that describe one, and `validarProduto`:
 * the rules a body must meet before it is stored.
 */
module Produtos {
  import opened Wrappers
  import opened Coercao

  /** A stored product. Its numbers are integers; a price is stored as the number the body gives. */
  datatype Produto = Produto(id: int, nome: string, preco: int, categoria: string, estoque: int, ativo: bool)

  /** The fields of a request body that the catalogue reads; `Undefined` marks an absent key. */
  datatype Campos = Campos(nome: Value, preco: Value, categoria: Value, estoque: Value, ativo: Value)

  /** The empty object `{}`. */
  const Vazio := Campos(Undefined, Undefined, Undefined, Undefined, Undefined)

  /**
   * What `validarProduto` is given: an object, or a value that is not one (a number,
   * string or boolean), on which every property read is `undefined`. `Primitivo`
   * models the validator called directly: `express.json()` is strict and refuses a
   * top-level number, string or boolean before any route runs, so the routes only
   * ever receive `Objeto`.
   */
  datatype Dados = Objeto(campos: Campos) | Primitivo

  /** The property reads `dados.nome`, `dados.preco`, ... on `d`. */
  function Ler(d: Dados): Campos
  {
    if d.Objeto? then d.campos else Vazio
  }

  /** The checks of `validarProduto`, in the order it runs them. */
  datatype Regra = Corpo | Nome | Preco | Categoria | Estoque | Ativo

  /** Every rule, in the validator's order. */
  const Regras := [Corpo, Nome, Preco, Categoria, Estoque, Ativo]

  /** Rank of a rule in the validator's order. */
  function Ordem(r: Regra): nat
  {
    match r
    case Corpo => 0
    case Nome => 1
    case Preco => 2
    case Categoria => 3
    case Estoque => 4
    case Ativo => 5
  }

  /** The message `validarProduto` pushes when a rule fails. */
  function Mensagem(r: Regra): string
  {
    match r
    case Corpo => "Corpo da requisição inválido."
    case Nome => "Nome é obrigatório e deve ter pelo menos 2 caracteres."
    case Preco => "Preço é obrigatório e deve ser um número >= 0."
    case Categoria => "Categoria é obrigatória."
    case Estoque => "Estoque é obrigatório e deve ser um inteiro >= 0."
    case Ativo => "Ativo deve ser booleano (true/false)."
  }

  /**
   * The rule for `nome` and `categoria`: truthy, and a `length` of at least 2 once
   * coerced to text and trimmed. `length` counts UTF-16 code units.
   */
  predicate TextoOk(v: Value)
  {
    Truthy(v) && Utf16Length(Trim(ToText(v))) >= 2
  }

  /** The rule for `preco` and `estoque`: not `== null`, not `NaN` once coerced to a number, and `>= 0`. */
  predicate NumeroOk(v: Value)
  {
    !v.Undefined? && !v.Null? && ToNumber(v).Some? && ToNumber(v).value >= 0
  }

  /** The rule for `ativo`: `typeof` is `'boolean'`. */
  predicate BooleanoOk(v: Value)
  {
    v.Bool?
  }

  /** All five field rules hold. */
  predicate CamposOk(c: Campos)
  {
    TextoOk(c.nome) && NumeroOk(c.preco) && TextoOk(c.categoria) && NumeroOk(c.estoque) && BooleanoOk(c.ativo)
  }

  /** Which of the validator's rules failed, one flag per rule. */
  datatype Veredito = Veredito(corpo: bool, nome: bool, preco: bool, categoria: bool, estoque: bool, ativo: bool)

  /** The checks of `validarProduto`, each run on the property reads of `d`. */
  function Verificar(d: Dados): Veredito
  {
    var c := Ler(d);
    Veredito(d.Primitivo?, !TextoOk(c.nome), !NumeroOk(c.preco), !TextoOk(c.categoria),
             !NumeroOk(c.estoque), !BooleanoOk(c.ativo))
  }

  /** The flag of rule `r`. */
  predicate Falhou(v: Veredito, r: Regra)
  {
    match r
    case Corpo => v.corpo
    case Nome => v.nome
    case Preco => v.preco
    case Categoria => v.categoria
    case Estoque => v.estoque
    case Ativo => v.ativo
  }

  /** No rule fails exactly when `d` is an object whose fields all meet their rules. */
  lemma VerificarAprova(d: Dados)
    ensures Verificar(d) == Veredito(false, false, false, false, false, false) <==> d.Objeto? && CamposOk(d.campos)
  {
  }

  /** Rules listed in strictly increasing rule order. */
  predicate Crescente(rs: seq<Regra>)
  {
    forall i, j :: 0 <= i < j < |rs| ==> Ordem(rs[i]) < Ordem(rs[j])
  }

  /** The rule of rank `k`. */
  function RegraDe(k: nat): (r: Regra)
    requires k < 6
    ensures Ordem(r) == k
  {
    Regras[k]
  }

  /**
   * The failed rules of rank `k` and above: the validator's `erros.push`
   * accumulator, one check after the other.
   */
  function Desde(v: Veredito, k: nat): seq<Regra>
    requires k <= 6
    decreases 6 - k
  {
    if k == 6 then []
    else if Falhou(v, RegraDe(k)) then [RegraDe(k)] + Desde(v, k + 1)
    else Desde(v, k + 1)
  }

  /** From rank `k` on, a rule is listed exactly when it failed. */
  lemma {:induction false} DesdeMembros(v: Veredito, k: nat)
    requires k <= 6
    ensures forall r :: r in Desde(v, k) <==> k <= Ordem(r) && Falhou(v, r)
    decreases 6 - k
  {
    if k < 6 {
      DesdeMembros(v, k + 1);
      forall r | Ordem(r) == k ensures r == RegraDe(k) { }
    }
  }

  /** The accumulator lists the failed rules in the validator's order. */
  lemma {:induction false} DesdeCrescente(v: Veredito, k: nat)
    requires k <= 6
    ensures Crescente(Desde(v, k))
    decreases 6 - k
  {
    if k < 6 {
      DesdeCrescente(v, k + 1);
      DesdeCota(v, k + 1);
    }
  }

  /** Everything listed from rank `k` on has rank `k` or more. */
  lemma {:induction false} DesdeCota(v: Veredito, k: nat)
    requires k <= 6
    ensures forall i :: 0 <= i < |Desde(v, k)| ==> k <= Ordem(Desde(v, k)[i])
    decreases 6 - k
  {
    if k < 6 {
      DesdeCota(v, k + 1);
    }
  }

  /** A rule is listed exactly when its flag is set. */
  lemma Listada(v: Veredito, r: Regra)
    ensures r in Desde(v, 0) <==> Falhou(v, r)
  {
    DesdeMembros(v, 0);
  }

  /** The rules `validarProduto` finds broken on `d`: exactly the failed ones, in rule order. */
  function Falhas(d: Dados): (rs: seq<Regra>)
    ensures forall r :: r in rs <==> Falhou(Verificar(d), r)
    ensures Crescente(rs)
  {
    DesdeMembros(Verificar(d), 0);
    DesdeCrescente(Verificar(d), 0);
    Desde(Verificar(d), 0)
  }

  /** No rule fails exactly when `d` is an object whose fields all meet their rules. */
  lemma FalhasVazias(d: Dados)
    ensures Falhas(d) == [] <==> d.Objeto? && CamposOk(d.campos)
  {
    var v := Verificar(d);
    VerificarAprova(d);
    if Falhas(d) == [] {
      assert !Falhou(v, Corpo) && !Falhou(v, Nome) && !Falhou(v, Preco);
      assert !Falhou(v, Categoria) && !Falhou(v, Estoque) && !Falhou(v, Ativo);
    } else {
      assert Falhou(v, Falhas(d)[0]);
    }
  }

  /** The messages of a list of failed rules. */
  function Textos(rs: seq<Regra>): (ms: seq<string>)
    ensures |ms| == |rs| && forall i :: 0 <= i < |rs| ==> ms[i] == Mensagem(rs[i])
  {
    if rs == [] then [] else [Mensagem(rs[0])] + Textos(rs[1..])
  }

  /**
   * `validarProduto`: runs every check, without stopping at the first failure,
   * and lists the message of each failed rule, in rule order. On a value that
   * is not an object every field reads as `undefined`.
   */
  function ValidarProduto(d: Dados): (erros: seq<string>)
    ensures erros == [] <==> d.Objeto? && CamposOk(d.campos)
    ensures |erros| == |Falhas(d)| && forall i :: 0 <= i < |erros| ==> erros[i] == Mensagem(Falhas(d)[i])
  {
    FalhasVazias(d);
    Textos(Falhas(d))
  }

  /** `validarProduto({})` fails the five field rules, in field order. */
  lemma ValidarObjetoVazio()
    ensures Falhas(Objeto(Vazio)) == [Nome, Preco, Categoria, Estoque, Ativo]
  {
    var v := Verificar(Objeto(Vazio));
    assert v == Veredito(false, true, true, true, true, true);
    assert Desde(v, 0) == [Nome, Preco, Categoria, Estoque, Ativo];
  }

  /** A body that is not an object fails every rule, the body rule first. */
  lemma ValidarPrimitivo()
    ensures Falhas(Primitivo) == Regras
  {
    var v := Verificar(Primitivo);
    assert v == Veredito(true, true, true, true, true, true);
    assert Desde(v, 0) == Regras;
  }

  /** `ativo` passes only as a real boolean, `true` or `false`. */
  lemma AtivoEstrito(c: Campos)
    ensures Ativo !in Falhas(Objeto(c)) <==> c.ativo == Bool(true) || c.ativo == Bool(false)
  {
    Listada(Verificar(Objeto(c)), Ativo);
  }

  /** The string `"true"` is not a boolean: whatever the other fields, `ativo: "true"` is refused. */
  lemma AtivoTextoRecusado(c: Campos)
    requires c.ativo == Str("true")
    ensures Ativo in Falhas(Objeto(c))
  {
    AtivoEstrito(c);
  }

  /**
   * `Number` reads a blank string as 0, so the price and stock rules accept an empty or
   * all-white-space string, although neither is `== null`.
   */
  lemma TextoEmBrancoEZero(s: string)
    requires forall i :: 0 <= i < |s| ==> IsSpace(s[i])
    ensures ToNumber(Str(s)) == Some(0)
    ensures NumeroOk(Str(s))
  {
    TrimSlice(s);
    assert Trim(s) == [];
  }

  /**
   * The text rule coerces before measuring: a number of two or more digits, or `true`,
   * passes as a name; `false` and `0` fail on truthiness, whatever their text.
   */
  lemma TextoNaoTexto(n: nat)
    requires n >= 10
    ensures TextoOk(Num(n)) && TextoOk(Bool(true))
    ensures !TextoOk(Num(0)) && !TextoOk(Bool(false))
  {
    var t := NatText(n);
    assert t == NatText(n / 10) + [DigitChar(n % 10)];
    assert IsDigit(t[0]) && IsDigit(t[|t| - 1]);
  }

  /**
   * `length` counts UTF-16 code units: a single emoji, a surrogate pair, is long
   * enough for the text rule, while a single accented letter is not.
   */
  lemma TextoUtf16()
    ensures TextoOk(Str("\U{1F600}"))
    ensures !TextoOk(Str("\U{00E9}"))
  {
    assert Unidades("\U{1F600}", 0) == 2 + Unidades("\U{1F600}", 1);
    assert Unidades("\U{00E9}", 0) == 1 + Unidades("\U{00E9}", 1);
  }
}
