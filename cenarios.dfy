/**
 * Request sequences against a freshly started catalogue, with the answers they get.
 */
module Cenarios {
  import opened Wrappers
  import opened Coercao
  import opened Produtos
  import opened Registros
  import opened Loja
  import opened Rotas

  /** A complete body for a new product. */
  const Webcam := Campos(Str("Webcam"), Num(19990), Str("Acessórios"), Num(7), Bool(true))

  /** The body passes the validator. */
  lemma WebcamValida()
    ensures ValidarProduto(Objeto(Webcam)) == []
  {
    assert CamposOk(Webcam);
  }

  /** A deleted id is not handed out again: create (6), delete 6, create again (7). */
  method IdsNaoReutilizados() returns (r1: Resposta, r2: Resposta, r3: Resposta)
    ensures r1.Criado? && r1.produto.id == 6
    ensures r2 == SemConteudo
    ensures r3.Criado? && r3.produto.id == 7
  {
    var c := new Catalogo();
    WebcamValida();
    r1 := PostProduto(c, Objeto(Webcam));
    IntTextRoundTrip(6);
    r2 := DeleteProduto(c, IntText(6));
    r3 := PostProduto(c, Objeto(Webcam));
  }

  /** The record of id 1 merged with `{ preco: 2000 }` passes the validator and coerces to the record with the new price. */
  lemma PrecoParcialAceito()
    ensures CamposOk(Mesclar(ComoCampos(Semente[0]), Vazio.(preco := Num(2000))))
    ensures Novo(1, Mesclar(ComoCampos(Semente[0]), Vazio.(preco := Num(2000))))
      == Produto(1, "Teclado", 2000, "Periféricos", 15, true)
  {
    var novo := Semente[0].(preco := 2000);
    SementeIds();
    SementeArmazenavel();
    assert Mesclar(ComoCampos(Semente[0]), Vazio.(preco := Num(2000))) == ComoCampos(novo);
    ArmazenavelSe(novo);
    NovoDeRegistro(novo);
  }

  /** `PUT /api/produtos/1` with `{ preco: 2000 }`: only the price changes. */
  method PutParcial() returns (r: Resposta, ps: seq<Produto>)
    ensures r == Ok(Produto(1, "Teclado", 2000, "Periféricos", 15, true))
    ensures ps == Semente[0 := r.produto]
  {
    var c := new Catalogo();
    PrecoParcialAceito();
    FalhasVazias(Objeto(Mesclar(ComoCampos(Semente[0]), Vazio.(preco := Num(2000)))));
    IntTextRoundTrip(1);
    SementeIds();
    SementeArmazenavel();
    BuscarUnico(Semente, 0);
    r := PutProduto(c, IntText(1), Objeto(Vazio.(preco := Num(2000))));
    ps := c.produtos;
  }

  /** The record of id 1 merged with `{ nome: "" }` fails the name rule alone. */
  lemma NomeVazioRecusado()
    ensures Falhas(Objeto(Mesclar(ComoCampos(Semente[0]), Vazio.(nome := Str(""))))) == [Nome]
    ensures ValidarProduto(Objeto(Mesclar(ComoCampos(Semente[0]), Vazio.(nome := Str(""))))) == [Mensagem(Nome)]
  {
    var parcial := Mesclar(ComoCampos(Semente[0]), Vazio.(nome := Str("")));
    SementeIds();
    SementeArmazenavel();
    ArmazenavelSe(Semente[0]);
    assert parcial == ComoCampos(Semente[0]).(nome := Str(""));
    assert Verificar(Objeto(parcial)) == Veredito(false, true, false, false, false, false);
    assert Desde(Verificar(Objeto(parcial)), 0) == [Nome];
  }

  /** `PUT /api/produtos/1` with `{ nome: "" }`: 400 with the name message alone, and nothing changes. */
  method PutNomeVazio() returns (r: Resposta, ps: seq<Produto>)
    ensures r == Invalido([Mensagem(Nome)])
    ensures ps == Semente
  {
    var c := new Catalogo();
    NomeVazioRecusado();
    IntTextRoundTrip(1);
    SementeIds();
    SementeArmazenavel();
    BuscarUnico(Semente, 0);
    r := PutProduto(c, IntText(1), Objeto(Vazio.(nome := Str(""))));
    ps := c.produtos;
  }

  /** `DELETE /api/produtos/3`, then `GET /api/produtos/3`: 204, then 404. */
  method ExcluirEConsultar() returns (r1: Resposta, r2: Resposta)
    ensures r1 == SemConteudo
    ensures r2 == NaoEncontrado(MsgNaoEncontrado)
  {
    var c := new Catalogo();
    SementeIds();
    SementeArmazenavel();
    BuscarUnico(Semente, 2);
    IntTextRoundTrip(3);
    r1 := DeleteProduto(c, IntText(3));
    r2 := GetProduto(c, IntText(3));
  }

  /** `Number("abc")` is `NaN`. */
  lemma AbcNaoNumero()
    ensures ParseNumber("abc") == None
  {
    assert Trim("abc") == "abc";
  }

  /** On the seeded store, `GET /api/produtos/abc` gets 404: `Number("abc")` is `NaN`, which names no record. */
  method GetNaoNumerico() returns (r: Resposta)
    ensures r == NaoEncontrado(MsgNaoEncontrado)
  {
    var c := new Catalogo();
    AbcNaoNumero();
    r := GetProduto(c, "abc");
  }
}
