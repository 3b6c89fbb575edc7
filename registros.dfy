/**
 * Stored records: how `cadastrarProduto` and `atualizarProduto` coerce a body into
 * a record, how the PUT route merges a record with a body, and the condition every
 * stored record meets.
 */
module Registros {
  import opened Coercao
  import opened Produtos

  /** A stored record read back as an object: the spread `{...existe}`. */
  function ComoCampos(p: Produto): Campos
  {
    Campos(Str(p.nome), Num(p.preco), Str(p.categoria), Num(p.estoque), Bool(p.ativo))
  }

  /** The text fields of a stored record carry no surrounding white space. */
  predicate Normalizado(p: Produto)
  {
    Trimmed(p.nome) && Trimmed(p.categoria)
  }

  /**
   * What every record in the catalogue satisfies, stated on its own fields: trimmed
   * text of `length` at least 2, and non-negative price and stock.
   */
  predicate Armazenavel(p: Produto)
  {
    Normalizado(p) && Utf16Length(p.nome) >= 2 && p.preco >= 0 && Utf16Length(p.categoria) >= 2 && p.estoque >= 0
  }

  /** Counting characters is enough to show a record storable: `length` is never below the character count. */
  lemma ArmazenavelPorCaracteres(p: Produto)
    requires Normalizado(p) && |p.nome| >= 2 && p.preco >= 0 && |p.categoria| >= 2 && p.estoque >= 0
    ensures Armazenavel(p)
  {
  }

  /** A trimmed record is storable exactly when, read back as an object, it passes `validarProduto`. */
  lemma ArmazenavelSe(p: Produto)
    ensures Armazenavel(p) <==> Normalizado(p) && CamposOk(ComoCampos(p))
    ensures Armazenavel(p) <==> Normalizado(p) && ValidarProduto(Objeto(ComoCampos(p))) == []
  {
    var c := ComoCampos(p);
    if Normalizado(p) {
      assert TextoOk(c.nome) <==> Utf16Length(p.nome) >= 2;
      assert TextoOk(c.categoria) <==> Utf16Length(p.categoria) >= 2;
      assert NumeroOk(c.preco) <==> p.preco >= 0;
      assert NumeroOk(c.estoque) <==> p.estoque >= 0;
    }
  }

  /** `Number(v)` is not `NaN`. */
  predicate NumeroDefinido(v: Value)
  {
    ToNumber(v).Some?
  }

  /**
   * The record `cadastrarProduto` builds from a body: text fields through `String(...).trim()`,
   * numbers through `Number(...)`, `ativo` through `Boolean(...)`.
   */
  function Novo(id: int, c: Campos): (p: Produto)
    requires NumeroDefinido(c.preco) && NumeroDefinido(c.estoque)
    ensures p.id == id && Normalizado(p)
  {
    Produto(id, Trim(ToText(c.nome)), ToNumber(c.preco).value, Trim(ToText(c.categoria)),
            ToNumber(c.estoque).value, Truthy(c.ativo))
  }

  /** Coercing a body that passes the validator yields a record the catalogue may hold. */
  lemma NovoArmazenavel(id: int, c: Campos)
    requires CamposOk(c)
    ensures Armazenavel(Novo(id, c)) && Novo(id, c).id == id
  {
    ArmazenavelSe(Novo(id, c));
  }

  /** Coercing a trimmed record read back as an object gives the same record: the coercions are idempotent. */
  lemma NovoDeRegistro(p: Produto)
    requires Normalizado(p)
    ensures Novo(p.id, ComoCampos(p)) == p
  {
  }

  /** The spread `{...base, ...corpo}`: each key present in `corpo` replaces the one in `base`. */
  function Mesclar(base: Campos, corpo: Campos): Campos
  {
    Campos(
      if corpo.nome.Undefined? then base.nome else corpo.nome,
      if corpo.preco.Undefined? then base.preco else corpo.preco,
      if corpo.categoria.Undefined? then base.categoria else corpo.categoria,
      if corpo.estoque.Undefined? then base.estoque else corpo.estoque,
      if corpo.ativo.Undefined? then base.ativo else corpo.ativo)
  }

  /** Merging in the empty object `{}` changes nothing. */
  lemma MesclarVazio(base: Campos)
    ensures Mesclar(base, Vazio) == base
  {
  }

  /**
   * Coercing the merged view of a stored record and a partial body gives the record
   * with each present field coerced and overwritten, each absent field kept, and the id kept.
   */
  lemma MescladoCoagido(p: Produto, corpo: Campos)
    requires Normalizado(p)
    requires NumeroDefinido(Mesclar(ComoCampos(p), corpo).preco)
    requires NumeroDefinido(Mesclar(ComoCampos(p), corpo).estoque)
    ensures var q := Novo(p.id, Mesclar(ComoCampos(p), corpo));
      && q.id == p.id
      && q.nome == (if corpo.nome.Undefined? then p.nome else Trim(ToText(corpo.nome)))
      && q.preco == (if corpo.preco.Undefined? then p.preco else ToNumber(corpo.preco).value)
      && q.categoria == (if corpo.categoria.Undefined? then p.categoria else Trim(ToText(corpo.categoria)))
      && q.estoque == (if corpo.estoque.Undefined? then p.estoque else ToNumber(corpo.estoque).value)
      && q.ativo == (if corpo.ativo.Undefined? then p.ativo else Truthy(corpo.ativo))
  {
  }

  /**
   * When a stored record merged with a body passes the validator, every number present
   * in the body is defined, and the record rebuilt from the merged view is storable.
   */
  lemma MescladoArmazenavel(p: Produto, corpo: Campos)
    requires Armazenavel(p)
    requires CamposOk(Mesclar(ComoCampos(p), corpo))
    ensures !corpo.preco.Undefined? ==> NumeroDefinido(corpo.preco)
    ensures !corpo.estoque.Undefined? ==> NumeroDefinido(corpo.estoque)
    ensures Armazenavel(Novo(p.id, Mesclar(ComoCampos(p), corpo)))
  {
    NovoArmazenavel(p.id, Mesclar(ComoCampos(p), corpo));
  }
}
