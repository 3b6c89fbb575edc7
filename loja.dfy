/**
 * The in-memory catalogue: the `produtos` array and the `proximoId` counter, with
 * the lookups `find`/`findIndex` and the operations `cadastrarProduto`,
 * `atualizarProduto` and `excluirProduto` that change them.
 */
module Loja {
  import opened Wrappers
  import opened Coercao
  import opened Produtos
  import opened Registros

  /** `produtos.find(p => p.id === id) || null`: the first record with that id, if any. */
  function Buscar(ps: seq<Produto>, id: int): (r: Option<Produto>)
    ensures r.None? <==> forall k :: 0 <= k < |ps| ==> ps[k].id != id
    ensures r.Some? ==> r.value in ps && r.value.id == id
  {
    if ps == [] then None
    else if ps[0].id == id then Some(ps[0])
    else Buscar(ps[1..], id)
  }

  /** `produtos.findIndex(p => p.id === id)`: the position of the first record with that id, or -1. */
  function IndiceDe(ps: seq<Produto>, id: int): (i: int)
    ensures -1 <= i < |ps|
    ensures i == -1 <==> forall k :: 0 <= k < |ps| ==> ps[k].id != id
    ensures 0 <= i ==> ps[i].id == id && forall k :: 0 <= k < i ==> ps[k].id != id
  {
    if ps == [] then -1
    else if ps[0].id == id then 0
    else
      var j := IndiceDe(ps[1..], id);
      if j == -1 then -1 else j + 1
  }

  /** `find` and `findIndex` agree: `find` returns the record at the index `findIndex` reports. */
  lemma {:induction false} BuscarNoIndice(ps: seq<Produto>, id: int)
    ensures Buscar(ps, id) == if IndiceDe(ps, id) == -1 then None else Some(ps[IndiceDe(ps, id)])
  {
    if ps != [] && ps[0].id != id {
      BuscarNoIndice(ps[1..], id);
    }
  }

  /** Ids strictly increase along the array. */
  predicate IdsCrescentes(ps: seq<Produto>)
  {
    forall i, j :: 0 <= i < j < |ps| ==> ps[i].id < ps[j].id
  }

  /** With increasing ids, `find` on a stored record's id returns that record, found at its position. */
  lemma BuscarUnico(ps: seq<Produto>, k: int)
    requires IdsCrescentes(ps) && 0 <= k < |ps|
    ensures IndiceDe(ps, ps[k].id) == k
    ensures Buscar(ps, ps[k].id) == Some(ps[k])
  {
    BuscarNoIndice(ps, ps[k].id);
  }

  /** The same, for a record known only to be stored. */
  lemma BuscarMembro(ps: seq<Produto>, p: Produto)
    requires IdsCrescentes(ps) && p in ps
    ensures Buscar(ps, p.id) == Some(p)
  {
    var k :| 0 <= k < |ps| && ps[k] == p;
    BuscarUnico(ps, k);
  }

  /** Every record of `ps` may be held by the catalogue. */
  predicate TodosArmazenaveis(ps: seq<Produto>)
  {
    forall k :: 0 <= k < |ps| ==> Armazenavel(ps[k])
  }

  /** Replacing a record by a storable one with the same id keeps ids increasing and records storable. */
  lemma SubstituirMantem(ps: seq<Produto>, i: int, q: Produto)
    requires IdsCrescentes(ps) && TodosArmazenaveis(ps)
    requires 0 <= i < |ps| && q.id == ps[i].id && Armazenavel(q)
    ensures IdsCrescentes(ps[i := q]) && TodosArmazenaveis(ps[i := q])
    ensures forall k :: 0 <= k < |ps| ==> ps[i := q][k].id == ps[k].id
  {
  }

  /** Appending a storable record whose id exceeds every stored one keeps ids increasing and records storable. */
  lemma AcrescentarMantem(ps: seq<Produto>, q: Produto)
    requires IdsCrescentes(ps) && TodosArmazenaveis(ps) && Armazenavel(q)
    requires forall k :: 0 <= k < |ps| ==> ps[k].id < q.id
    ensures IdsCrescentes(ps + [q]) && TodosArmazenaveis(ps + [q])
  {
  }

  /** `splice(i, 1)`: the records before position `i`, then those after it. */
  function Remover(ps: seq<Produto>, i: int): (r: seq<Produto>)
    requires 0 <= i < |ps|
    ensures |r| == |ps| - 1
    ensures forall k :: 0 <= k < |r| ==> r[k] == if k < i then ps[k] else ps[k + 1]
  {
    ps[..i] + ps[i + 1..]
  }

  /** Removing the record at `i` keeps ids increasing and records storable. */
  lemma RemoverMantem(ps: seq<Produto>, i: int)
    requires IdsCrescentes(ps) && TodosArmazenaveis(ps) && 0 <= i < |ps|
    ensures IdsCrescentes(Remover(ps, i)) && TodosArmazenaveis(Remover(ps, i))
  {
    var r := Remover(ps, i);
    forall i0, j0 | 0 <= i0 < j0 < |r| ensures r[i0].id < r[j0].id {
      assert r[i0] == ps[if i0 < i then i0 else i0 + 1];
      assert r[j0] == ps[if j0 < i then j0 else j0 + 1];
    }
  }

  /** Removing the record at `i` keeps every record whose id differs from its id. */
  lemma RemoverFica(ps: seq<Produto>, i: int)
    requires 0 <= i < |ps|
    ensures forall p :: p in ps && p.id != ps[i].id ==> p in Remover(ps, i)
  {
    var r := Remover(ps, i);
    forall p | p in ps && p.id != ps[i].id ensures p in r {
      var k :| 0 <= k < |ps| && ps[k] == p;
      assert k != i;
      var m := if k < i then k else k - 1;
      assert r[m] == p;
    }
  }

  /** With increasing ids, removing the record at `i` leaves no record with its id. */
  lemma RemoverSai(ps: seq<Produto>, i: int)
    requires IdsCrescentes(ps) && 0 <= i < |ps|
    ensures forall p :: p in Remover(ps, i) ==> p in ps && p.id != ps[i].id
  {
    var r := Remover(ps, i);
    forall p | p in r ensures p in ps && p.id != ps[i].id {
      var k :| 0 <= k < |r| && r[k] == p;
      var m := if k < i then k else k + 1;
      assert p == ps[m] && m != i;
      assert ps[m].id != ps[i].id by {
        if m < i { assert ps[m].id < ps[i].id; } else { assert ps[i].id < ps[m].id; }
      }
    }
  }

  /** With increasing ids, what remains after removing the record at `i` is exactly the records with another id. */
  lemma RemoverMembros(ps: seq<Produto>, i: int)
    requires IdsCrescentes(ps) && 0 <= i < |ps|
    ensures forall p :: p in Remover(ps, i) <==> p in ps && p.id != ps[i].id
  {
    RemoverFica(ps, i);
    RemoverSai(ps, i);
  }

  /**
   * The five `if (dados.campo !== undefined)` assignments of `atualizarProduto`: each field
   * present in the body is coerced as on insertion and overwrites the record's; the rest,
   * and the id, stay. On a trimmed record this is coercing the merge `{...p, ...c}`.
   */
  method Sobrescrever(p: Produto, c: Campos) returns (q: Produto)
    requires Normalizado(p)
    requires !c.preco.Undefined? ==> NumeroDefinido(c.preco)
    requires !c.estoque.Undefined? ==> NumeroDefinido(c.estoque)
    ensures q.id == p.id
    ensures q.nome == if c.nome.Undefined? then p.nome else Trim(ToText(c.nome))
    ensures q.preco == if c.preco.Undefined? then p.preco else ToNumber(c.preco).value
    ensures q.categoria == if c.categoria.Undefined? then p.categoria else Trim(ToText(c.categoria))
    ensures q.estoque == if c.estoque.Undefined? then p.estoque else ToNumber(c.estoque).value
    ensures q.ativo == if c.ativo.Undefined? then p.ativo else Truthy(c.ativo)
    ensures q == Novo(p.id, Mesclar(ComoCampos(p), c))
  {
    MescladoCoagido(p, c);
    q := p;
    if !c.nome.Undefined? {
      q := q.(nome := Trim(ToText(c.nome)));
    }
    if !c.preco.Undefined? {
      q := q.(preco := ToNumber(c.preco).value);
    }
    if !c.categoria.Undefined? {
      q := q.(categoria := Trim(ToText(c.categoria)));
    }
    if !c.estoque.Undefined? {
      q := q.(estoque := ToNumber(c.estoque).value);
    }
    if !c.ativo.Undefined? {
      q := q.(ativo := Truthy(c.ativo));
    }
  }

  /**
   * The five seeded records. Their prices are fractional in the source; they are written
   * here multiplied by 100, the only numbers of the model that are rescaled.
   */
  const Semente: seq<Produto> := [
    Produto(1, "Teclado", 12090, "Periféricos", 15, true),
    Produto(2, "Mouse", 7950, "Periféricos", 40, true),
    Produto(3, "Monitor 24\"", 89900, "Monitores", 10, true),
    Produto(4, "Cabo HDMI", 3500, "Acessórios", 100, true),
    Produto(5, "Notebook", 429990, "Computadores", 5, false)
  ]

  /** Every seeded record is one the catalogue may hold. */
  lemma SementeArmazenavel()
    ensures TodosArmazenaveis(Semente)
  {
    ArmazenavelPorCaracteres(Semente[0]);
    ArmazenavelPorCaracteres(Semente[1]);
    ArmazenavelPorCaracteres(Semente[2]);
    ArmazenavelPorCaracteres(Semente[3]);
    ArmazenavelPorCaracteres(Semente[4]);
  }

  /** The seeded records have ids 1 to 5, in order. */
  lemma SementeIds()
    ensures IdsCrescentes(Semente)
    ensures forall k :: 0 <= k < |Semente| ==> Semente[k].id == k + 1
  {
  }

  /** The catalogue: the record array and the counter that hands out ids. */
  class Catalogo {
    var produtos: seq<Produto>
    var proximoId: int
    /** Every id the catalogue has handed out, deleted records included. */
    ghost var emitidos: seq<int>

    /**
     * Ids are increasing, so distinct; every id was handed out; ids were handed out in
     * strictly increasing order, each below the counter; every record is storable.
     */
    ghost predicate Valid()
      reads this
    {
      && IdsCrescentes(produtos)
      && (forall k :: 0 <= k < |produtos| ==> produtos[k].id in emitidos)
      && (forall i, j :: 0 <= i < j < |emitidos| ==> emitidos[i] < emitidos[j])
      && (forall i :: 0 <= i < |emitidos| ==> emitidos[i] < proximoId)
      && TodosArmazenaveis(produtos)
    }

    /** The module's start-up state: the five seeded records and `proximoId = 6`. */
    constructor ()
      ensures Valid()
      ensures produtos == Semente && proximoId == 6 && emitidos == [1, 2, 3, 4, 5]
    {
      produtos := Semente;
      proximoId := 6;
      emitidos := [1, 2, 3, 4, 5];
      SementeIds();
      SementeArmazenavel();
    }

    /** `listarProdutos`: the whole array, in insertion order. */
    method ListarProdutos() returns (r: seq<Produto>)
      ensures r == produtos
    {
      r := produtos;
    }

    /** `obterProdutoPorId`: the first record with that id, or none. */
    method ObterProdutoPorId(id: int) returns (r: Option<Produto>)
      ensures r.None? <==> forall p :: p in produtos ==> p.id != id
      ensures r.Some? ==> r.value in produtos && r.value.id == id
      ensures r == Buscar(produtos, id)
    {
      r := Buscar(produtos, id);
    }

    /**
     * `cadastrarProduto`: coerces a validated body into a record under the next id,
     * appends it and advances the counter. The id was never handed out before.
     */
    method CadastrarProduto(c: Campos) returns (novo: Produto)
      requires Valid() && CamposOk(c)
      modifies this
      ensures Valid()
      ensures novo == Novo(old(proximoId), c)
      ensures produtos == old(produtos) + [novo]
      ensures proximoId == old(proximoId) + 1
      ensures emitidos == old(emitidos) + [novo.id]
      ensures novo.id !in old(emitidos)
    {
      novo := Novo(proximoId, c);
      NovoArmazenavel(proximoId, c);
      assert forall k :: 0 <= k < |produtos| ==> produtos[k].id < proximoId;
      AcrescentarMantem(produtos, novo);
      produtos := produtos + [novo];
      emitidos := emitidos + [proximoId];
      proximoId := proximoId + 1;
    }

    /**
     * `atualizarProduto`: overwrites, in the first record with that id, each field
     * present in the body, coerced as on insertion; the id stays. None when no
     * record has that id. The caller has checked that the record merged with the
     * body passes the validator.
     */
    method AtualizarProduto(id: int, c: Campos) returns (r: Option<Produto>)
      requires Valid()
      requires Buscar(produtos, id).Some? ==> CamposOk(Mesclar(ComoCampos(Buscar(produtos, id).value), c))
      modifies this
      ensures Valid()
      ensures proximoId == old(proximoId) && emitidos == old(emitidos)
      ensures var i := IndiceDe(old(produtos), id);
        if i == -1 then r == None && produtos == old(produtos)
        else (r == Some(Novo(id, Mesclar(ComoCampos(old(produtos)[i]), c)))
          && produtos == old(produtos)[i := r.value])
    {
      var idx := IndiceDe(produtos, id);
      if idx == -1 {
        return None;
      }
      BuscarNoIndice(produtos, id);
      MescladoArmazenavel(produtos[idx], c);
      var atual := Sobrescrever(produtos[idx], c);
      Gravar(idx, atual);
      r := Some(atual);
    }

    /** `produtos[idx] = atual`: stores a storable record in place of the one with the same id. */
    method Gravar(idx: int, q: Produto)
      requires Valid() && 0 <= idx < |produtos|
      requires q.id == produtos[idx].id && Armazenavel(q)
      modifies this
      ensures Valid()
      ensures produtos == old(produtos)[idx := q]
      ensures proximoId == old(proximoId) && emitidos == old(emitidos)
    {
      SubstituirMantem(produtos, idx, q);
      produtos := produtos[idx := q];
    }

    /**
     * `excluirProduto`: removes the first record with that id (`splice(idx, 1)`) and
     * reports whether there was one. The counter is untouched, so the id is not reused.
     */
    method ExcluirProduto(id: int) returns (ok: bool)
      requires Valid()
      modifies this
      ensures Valid()
      ensures proximoId == old(proximoId) && emitidos == old(emitidos)
      ensures ok <==> exists k :: 0 <= k < |old(produtos)| && old(produtos)[k].id == id
      ensures var i := IndiceDe(old(produtos), id);
        if ok then produtos == Remover(old(produtos), i) else produtos == old(produtos)
      ensures forall p :: p in produtos <==> p in old(produtos) && p.id != id
    {
      var idx := IndiceDe(produtos, id);
      if idx == -1 {
        return false;
      }
      RemoverMantem(produtos, idx);
      RemoverMembros(produtos, idx);
      produtos := Remover(produtos, idx);
      ok := true;
    }
  }
}
