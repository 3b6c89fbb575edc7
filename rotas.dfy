/**
 * The REST routes under `/api/produtos`: each reads the `:id` path parameter with
 * `Number(...)`, calls the catalogue, and answers with a status and a JSON body.
 */
module Rotas {
  import opened Wrappers
  import opened Coercao
  import opened Produtos
  import opened Registros
  import opened Loja

  /** The `erro` text of every 404 answer. */
  const MsgNaoEncontrado := "Produto não encontrado."

  /** What a route answers: the status and the JSON body. */
  datatype Resposta =
    | Ok(produto: Produto)              // 200, one record
    | Lista(produtos: seq<Produto>)     // 200, the whole array
    | Criado(produto: Produto)          // 201, the new record
    | SemConteudo                       // 204, empty body
    | NaoEncontrado(erro: string)       // 404, `{ erro }`
    | Invalido(erros: seq<string>)      // 400, `{ erros }`

  /** The HTTP status of an answer; the error answers are exactly the 4xx ones. */
  function Status(r: Resposta): (s: int)
    ensures s >= 400 <==> r.NaoEncontrado? || r.Invalido?
  {
    match r
    case Ok(_) => 200
    case Lista(_) => 200
    case Criado(_) => 201
    case SemConteudo => 204
    case NaoEncontrado(_) => 404
    case Invalido(_) => 400
  }

  /** Every answer is a success (2xx) or a client error (4xx). */
  lemma StatusFaixa(r: Resposta)
    ensures 200 <= Status(r) < 300 || 400 <= Status(r) < 500
  {
  }

  /**
   * The record a `:id` path parameter names: `Number(req.params.id)`, then the first
   * record with that id. A parameter that is `NaN` names none.
   */
  function Alvo(ps: seq<Produto>, param: string): (r: Option<Produto>)
    ensures r.Some? <==> exists p :: p in ps && ParseNumber(param) == Some(p.id)
    ensures r.Some? ==> r.value in ps && ParseNumber(param) == Some(r.value.id)
  {
    match ParseNumber(param)
    case None => None
    case Some(id) => Buscar(ps, id)
  }

  /** `GET /api/produtos`: 200 with every record, in insertion order. */
  method GetProdutos(c: Catalogo) returns (res: Resposta)
    ensures res == Lista(c.produtos) && Status(res) == 200
  {
    var ps := c.ListarProdutos();
    res := Lista(ps);
  }

  /** `GET /api/produtos/:id`: 200 with the named record, or 404. */
  method GetProduto(c: Catalogo, param: string) returns (res: Resposta)
    ensures Alvo(c.produtos, param).Some? ==> res == Ok(Alvo(c.produtos, param).value)
    ensures Alvo(c.produtos, param).None? ==> res == NaoEncontrado(MsgNaoEncontrado)
    ensures Status(res) == 200 || Status(res) == 404
    ensures Status(res) == 200 <==> Alvo(c.produtos, param).Some?
  {
    var id := ParseNumber(param);
    var prod: Option<Produto> := None;
    if id.Some? {
      prod := c.ObterProdutoPorId(id.value);
    }
    if prod.None? {
      return NaoEncontrado(MsgNaoEncontrado);
    }
    res := Ok(prod.value);
  }

  /** Two `GET /api/produtos/:id` with no write between them give the same answer. */
  method GetRepetido(c: Catalogo, param: string) returns (a: Resposta, b: Resposta)
    ensures a == b
    ensures a.Ok? || a == NaoEncontrado(MsgNaoEncontrado)
  {
    a := GetProduto(c, param);
    b := GetProduto(c, param);
  }

  /**
   * `POST /api/produtos`: 400 with every validator message and nothing stored, or
   * 201 with the body coerced into a record under the next id, appended.
   */
  method PostProduto(c: Catalogo, d: Dados) returns (res: Resposta)
    requires c.Valid()
    modifies c
    ensures c.Valid()
    ensures ValidarProduto(d) != [] ==>
      res == Invalido(ValidarProduto(d)) && c.produtos == old(c.produtos) && c.proximoId == old(c.proximoId)
    ensures ValidarProduto(d) == [] ==>
      d.Objeto? && res == Criado(Novo(old(c.proximoId), d.campos))
      && c.produtos == old(c.produtos) + [res.produto] && c.proximoId == old(c.proximoId) + 1
    ensures Status(res) == 201 || Status(res) == 400
    ensures Status(res) == 201 <==> ValidarProduto(d) == []
  {
    var erros := ValidarProduto(d);
    if |erros| > 0 {
      return Invalido(erros);
    }
    var criado := c.CadastrarProduto(d.campos);
    res := Criado(criado);
  }

  /**
   * `PUT /api/produtos/:id`: 404 when no record is named; 400 when the record merged
   * with the body (`{...existe, ...req.body}`) fails the validator, with nothing changed;
   * otherwise 200 with the record, each field present in the body overwritten.
   * A body that is not an object has no fields to merge; the JSON middleware never
   * hands one to the route, so that case only follows the handler's own code.
   */
  method PutProduto(c: Catalogo, param: string, d: Dados) returns (res: Resposta)
    requires c.Valid()
    modifies c
    ensures c.Valid() && c.proximoId == old(c.proximoId)
    ensures Alvo(old(c.produtos), param).None? ==>
      res == NaoEncontrado(MsgNaoEncontrado) && c.produtos == old(c.produtos)
    ensures Alvo(old(c.produtos), param).Some? ==>
      var existe := Alvo(old(c.produtos), param).value;
      var parcial := Mesclar(ComoCampos(existe), Ler(d));
      if ValidarProduto(Objeto(parcial)) != [] then
        res == Invalido(ValidarProduto(Objeto(parcial))) && c.produtos == old(c.produtos)
      else
        res == Ok(Novo(existe.id, parcial))
        && c.produtos == old(c.produtos)[IndiceDe(old(c.produtos), existe.id) := res.produto]
    ensures Status(res) == 200 || Status(res) == 400 || Status(res) == 404
    ensures Status(res) == 404 <==> Alvo(old(c.produtos), param).None?
    ensures Status(res) == 400 <==>
      Alvo(old(c.produtos), param).Some?
      && ValidarProduto(Objeto(Mesclar(ComoCampos(Alvo(old(c.produtos), param).value), Ler(d)))) != []
  {
    var id := ParseNumber(param);
    var existe: Option<Produto> := None;
    if id.Some? {
      existe := c.ObterProdutoPorId(id.value);
    }
    assert existe == Alvo(c.produtos, param);
    if existe.None? {
      return NaoEncontrado(MsgNaoEncontrado);
    }
    var parcial := Mesclar(ComoCampos(existe.value), Ler(d));
    var erros := ValidarProduto(Objeto(parcial));
    if |erros| > 0 {
      return Invalido(erros);
    }
    var atualizado := c.AtualizarProduto(id.value, Ler(d));
    BuscarNoIndice(old(c.produtos), id.value);
    res := Ok(atualizado.value);
  }

  /** `DELETE /api/produtos/:id`: 204 with the named record removed, or 404 with nothing changed. */
  method DeleteProduto(c: Catalogo, param: string) returns (res: Resposta)
    requires c.Valid()
    modifies c
    ensures c.Valid() && c.proximoId == old(c.proximoId)
    ensures Alvo(old(c.produtos), param).None? ==>
      res == NaoEncontrado(MsgNaoEncontrado) && c.produtos == old(c.produtos)
    ensures Alvo(old(c.produtos), param).Some? ==>
      var id := Alvo(old(c.produtos), param).value.id;
      && res == SemConteudo
      && c.produtos == Remover(old(c.produtos), IndiceDe(old(c.produtos), id))
      && forall p :: p in c.produtos <==> p in old(c.produtos) && p.id != id
    ensures Status(res) == 204 || Status(res) == 404
    ensures Status(res) == 204 <==> Alvo(old(c.produtos), param).Some?
  {
    var id := ParseNumber(param);
    var ok := false;
    if id.Some? {
      ok := c.ExcluirProduto(id.value);
    }
    if !ok {
      return NaoEncontrado(MsgNaoEncontrado);
    }
    BuscarNoIndice(old(c.produtos), id.value);
    res := SemConteudo;
  }
}
