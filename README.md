# Product catalogue API, modelled in Dafny

`Backend/api_produtos.js` is an Express service that keeps a product catalogue in memory.
It holds an array `produtos` and a counter `proximoId`, seeded with five products (ids 1 to 5) and the counter at 6.
Five REST routes under `/api/produtos` list, read, create, update and delete products.
Every create and update goes through `validarProduto`, which collects one Portuguese message per broken rule.

This project models that file:

- `coercao.dfy` (module `Coercao`): the JavaScript values a request body field can hold, and the coercions the file relies on.
  These are `String(v)`, `String.prototype.trim` (the ECMAScript white-space set), the string `length` in UTF-16 code units, `Number(v)` restricted to integers, and truthiness / `Boolean(v)`.
- `produtos.dfy` (module `Produtos`): the product record, request bodies, and `validarProduto`.
  The validator runs every check, keeps each failed rule in check order, and maps each rule to its exact message.
- `registros.dfy` (module `Registros`): how a body is coerced into a stored record (`cadastrarProduto`), how PUT merges a record with a body (`{...existe, ...req.body}`), and the condition every stored record meets.
- `loja.dfy` (module `Loja`): `find` / `findIndex` as functions, and the class `Catalogo`.
  The class holds the fields `produtos` and `proximoId`, and its methods are `listarProdutos`, `obterProdutoPorId`, `cadastrarProduto`, `atualizarProduto` and `excluirProduto`.
  A ghost field `emitidos` records every id ever handed out.
  The class invariant `Valid()` says:
  - ids increase along the array, so they are distinct;
  - every stored id was handed out;
  - ids were handed out in strictly increasing order, all below `proximoId`;
  - every stored record has trimmed text whose JavaScript `length` (UTF-16 code units) is at least 2, and a non-negative price and stock.
- `rotas.dfy` (module `Rotas`): the five route handlers as methods that take the catalogue as a parameter, and the answers they give (status plus body).
- `cenarios.dfy` (module `Cenarios`): request sequences against the seeded catalogue and the answers they get.

Numbers are integers. A price from a request body is stored as the integer it reads as, unscaled (`{ preco: 2000 }` and `{ preco: "2000" }` both store 2000).
The seed's prices are fractional in the source, so they are written multiplied by 100 (the seed's `120.90` is `12090`); no other number is rescaled.

## Model

| member | source | states |
|---|---|---|
| Coercao.TrimStart | Backend/api_produtos.js:26 | the result is no longer than the input, never starts with white space, and is the input itself when that does not start with white space |
| Coercao.TrimEnd | Backend/api_produtos.js:26 | the result is no longer than the input, never ends with white space, and is the input itself when that does not end with white space |
| Coercao.TrimStartSuffix | Backend/api_produtos.js:26 | dropping leading white space leaves a suffix of the input, and everything dropped is white space |
| Coercao.TrimEndPrefix | Backend/api_produtos.js:26 | dropping trailing white space leaves a prefix of the input, and everything dropped is white space |
| Coercao.Trim | Backend/api_produtos.js:26 | `trim()` yields text with no white space at either end, no longer than the input, and leaves already-trimmed text unchanged |
| Coercao.TrimSlice | Backend/api_produtos.js:28 | `trim()` keeps one contiguous slice of the input and removes only white space on both sides of it |
| Coercao.TrimIdempotent | Backend/api_produtos.js:37 | trimming twice is trimming once, so a stored name is already in trimmed form |
| Coercao.Unidades | Backend/api_produtos.js:26 | from position `i` on, a text has at least one and at most two UTF-16 code units per code point |
| Coercao.Utf16Length | Backend/api_produtos.js:26 | `length` counts UTF-16 code units: never fewer than the code points and never more than twice as many |
| Coercao.UnidadesBmp | Backend/api_produtos.js:26 | from position `i` on, the code units equal the code points exactly when none of them lies above U+FFFF |
| Coercao.Utf16LengthBmp | Backend/api_produtos.js:26 | `length` equals the number of code points exactly when no code point lies above U+FFFF |
| Coercao.NatTextValue | Backend/api_produtos.js:73 | the decimal text of a natural number reads back as that number |
| Coercao.NaoNegativoLido | Backend/api_produtos.js:73 | `Number(String(n)) === n` for every non-negative integer |
| Coercao.NegativoLido | Backend/api_produtos.js:73 | `Number(String(n)) === n` for every negative integer, whose text is a minus sign and the digits of `-n` |
| Coercao.IntText | Backend/api_produtos.js:26 | `String(n)` for a number: a minus sign exactly for a negative number, then its decimal digits; specified by `IntTextRoundTrip`, which proves `Number` reads it back as `n` |
| Coercao.IntTextRoundTrip | Backend/api_produtos.js:73 | `Number(String(n)) === n` for every integer, so the id written in a path parameter names that id |
| Coercao.ParseNumber | Backend/api_produtos.js:27 | `Number(s)`: surrounding white space ignored, blank text 0, signed decimal digits their value, anything else `NaN`; specified by `IntTextRoundTrip` (reads `String(n)` back as `n`), `Produtos.TextoEmBrancoEZero` (blank text is 0) and `Cenarios.AbcNaoNumero` (`"abc"` is `NaN`) |
| Coercao.ToText | Backend/api_produtos.js:26 | `String(v)`: `undefined`, `null`, `true`/`false`, the decimal text of a number, a string itself; specified by `IntTextRoundTrip` and `Produtos.TextoNaoTexto` |
| Coercao.ToNumber | Backend/api_produtos.js:27 | `Number(v)`: `undefined` is `NaN`, `null` is 0, booleans 1 and 0, strings through `ParseNumber`; specified by `Produtos.TextoEmBrancoEZero` and `Registros.ArmazenavelSe` |
| Coercao.Truthy | Backend/api_produtos.js:26 | `Boolean(v)`, the value `!v` negates: false for `undefined`, `null`, `false`, 0 and the empty string; specified by `Produtos.TextoNaoTexto` |
| Produtos.VerificarAprova | Backend/api_produtos.js:23-31 | no check fails exactly when the body is an object whose five fields all meet their rules |
| Produtos.Ler | Backend/api_produtos.js:26-30 | the reads `dados.nome` to `dados.ativo`: an object's fields, and `undefined` for all five on a value that is not an object; specified by `ValidarPrimitivo` |
| Produtos.TextoOk | Backend/api_produtos.js:26 | the name and category rule: truthy, and trimmed text of `length` 2 or more; specified by `TextoNaoTexto`, `TextoUtf16` and `Registros.ArmazenavelSe` |
| Produtos.NumeroOk | Backend/api_produtos.js:27 | the price and stock rule: not `== null`, not `NaN`, and `>= 0`; specified by `TextoEmBrancoEZero` and `Registros.ArmazenavelSe` |
| Produtos.BooleanoOk | Backend/api_produtos.js:30 | the `ativo` rule: `typeof` is `'boolean'`; specified by `AtivoEstrito` |
| Produtos.Verificar | Backend/api_produtos.js:25-30 | runs all six checks on the body's property reads, one flag each; specified by `VerificarAprova` |
| Produtos.Desde | Backend/api_produtos.js:24-30 | the `erros.push` accumulator from one check on; specified by `DesdeMembros` and `DesdeCrescente` |
| Produtos.DesdeMembros | Backend/api_produtos.js:24-30 | the `erros.push` accumulator lists a rule exactly when its check failed |
| Produtos.DesdeCrescente | Backend/api_produtos.js:24-30 | the accumulator lists the failed rules in the order the checks run |
| Produtos.Listada | Backend/api_produtos.js:24-30 | a rule is in the full list exactly when its check failed |
| Produtos.Falhas | Backend/api_produtos.js:23-31 | the rules the validator reports are exactly the failed ones, in check order |
| Produtos.FalhasVazias | Backend/api_produtos.js:23-31 | no rule fails exactly when the body is an object meeting all five field rules |
| Produtos.Textos | Backend/api_produtos.js:25-30 | one message per failed rule, each the message of that rule |
| Produtos.Mensagem | Backend/api_produtos.js:25-30 | the exact text each rule pushes; `ValidarProduto` states that the i-th message is that of the i-th failed rule |
| Produtos.ValidarProduto | Backend/api_produtos.js:23-32 | the error list is empty if and only if the body is an object whose fields all pass, and its i-th message is the message of the i-th failed rule |
| Produtos.ValidarObjetoVazio | Backend/api_produtos.js:26-30 | `validarProduto({})` reports exactly the five field rules: nome, preco, categoria, estoque, ativo |
| Produtos.ValidarPrimitivo | Backend/api_produtos.js:25-30 | a body that is not an object fails all six rules, body rule first |
| Produtos.AtivoEstrito | Backend/api_produtos.js:30 | `ativo` passes if and only if it is the boolean `true` or `false` |
| Produtos.AtivoTextoRecusado | Backend/api_produtos.js:30 | the string `"true"` as `ativo` is refused, whatever the other fields |
| Produtos.TextoEmBrancoEZero | Backend/api_produtos.js:27 | an empty or all-white-space string reads as the number 0 and passes the price and stock rules |
| Produtos.TextoNaoTexto | Backend/api_produtos.js:26 | a number of two or more digits, or `true`, passes as a name; `0` and `false` do not |
| Produtos.TextoUtf16 | Backend/api_produtos.js:26 | `length` counts UTF-16 code units: a lone emoji passes the name rule, a lone `é` does not |
| Registros.ArmazenavelSe | Backend/api_produtos.js:23-31 | a trimmed record is storable exactly when, read back as an object, it passes the validator |
| Registros.Armazenavel | Backend/api_produtos.js:23-31 | what every stored record meets: trimmed text of `length` 2 or more, and a non-negative price and stock; `ArmazenavelSe` proves it the same as passing the validator |
| Registros.Novo | Backend/api_produtos.js:35-42 | the record built from a body keeps the given id and stores its text trimmed; specified further by `NovoArmazenavel` and `NovoDeRegistro` |
| Registros.NovoArmazenavel | Backend/api_produtos.js:34-42 | coercing a body that passes the validator gives a storable record under the given id |
| Registros.NovoDeRegistro | Backend/api_produtos.js:35-42 | coercing a stored record read back as an object gives the same record |
| Registros.Mesclar | Backend/api_produtos.js:91 | the spread `{...existe, ...req.body}`, each key present in the body winning; specified by `MesclarVazio` and `MescladoCoagido` |
| Registros.ComoCampos | Backend/api_produtos.js:91 | a stored record read as an object, the `{...existe}` half of the spread; `NovoDeRegistro` proves coercing it back gives the record, and `ArmazenavelSe` that it passes the validator exactly when the record is storable |
| Registros.MesclarVazio | Backend/api_produtos.js:91 | merging in `{}` changes nothing |
| Registros.MescladoCoagido | Backend/api_produtos.js:52-56 | coercing the merged view overwrites exactly the fields present in the body, coerced, and keeps the others and the id |
| Registros.MescladoArmazenavel | Backend/api_produtos.js:91-95 | when the merged view passes the validator, the numbers in the body are defined and the updated record is storable |
| Loja.Buscar | Backend/api_produtos.js:21 | `find` returns none exactly when no record has the id, and otherwise a stored record with that id |
| Loja.IndiceDe | Backend/api_produtos.js:48 | `findIndex` returns -1 exactly when no record has the id, and otherwise the first position holding it |
| Loja.BuscarNoIndice | Backend/api_produtos.js:48-50 | `find` returns the record at the position `findIndex` reports |
| Loja.BuscarUnico | Backend/api_produtos.js:21 | with increasing ids, looking up a stored record's id finds that record at its own position |
| Loja.BuscarMembro | Backend/api_produtos.js:21 | with increasing ids, looking up a stored record's id returns that record |
| Loja.SubstituirMantem | Backend/api_produtos.js:58 | writing a storable record with the same id back in place keeps ids increasing, every record storable and every id where it was |
| Loja.AcrescentarMantem | Backend/api_produtos.js:43 | appending a storable record whose id exceeds all stored ids keeps ids increasing and every record storable |
| Loja.Remover | Backend/api_produtos.js:65 | `splice(i, 1)` leaves one record fewer: those before `i`, then those after it, in order |
| Loja.RemoverMantem | Backend/api_produtos.js:65 | removing a record keeps ids increasing and every record storable |
| Loja.RemoverFica | Backend/api_produtos.js:65 | `splice(i, 1)` keeps every record whose id differs from the removed one |
| Loja.RemoverSai | Backend/api_produtos.js:65 | with increasing ids, no record with the removed id remains after `splice(i, 1)` |
| Loja.RemoverMembros | Backend/api_produtos.js:62-66 | with increasing ids, what remains after a removal is exactly the records with another id |
| Loja.Sobrescrever | Backend/api_produtos.js:52-56 | each field present in the body is overwritten with its coerced value and the rest and the id are kept, which on a trimmed record equals coercing the merge |
| Loja.SementeIds | Backend/api_produtos.js:11-17 | the seeded ids are 1 to 5, in order |
| Loja.SementeArmazenavel | Backend/api_produtos.js:11-17 | every seeded record is storable |
| Loja.Semente | Backend/api_produtos.js:11-17 | the five seeded records, prices written multiplied by 100; `SementeIds` and `SementeArmazenavel` prove ids 1 to 5 in order and every record storable |
| Loja.Catalogo.Valid | Backend/api_produtos.js:10-17 | the state invariant: ids increasing, every stored id handed out, ids handed out in increasing order below `proximoId`, every record storable; established by the constructor and kept by every method |
| Loja.Catalogo.constructor | Backend/api_produtos.js:10-17 | start-up state: the five seeded records, counter 6, invariant established |
| Loja.Catalogo.ListarProdutos | Backend/api_produtos.js:20 | returns the whole array in insertion order |
| Loja.Catalogo.ObterProdutoPorId | Backend/api_produtos.js:21 | none exactly when no stored record has the id; otherwise a stored record with that id |
| Loja.Catalogo.CadastrarProduto | Backend/api_produtos.js:34-45 | the new record is the coerced body under the old counter; it is appended last, earlier records unchanged; the counter grows by one; its id was never issued before; the invariant holds |
| Loja.Catalogo.AtualizarProduto | Backend/api_produtos.js:47-60 | on a missing id, none and nothing changes; otherwise only the first record with the id is replaced, by the record with each present field coerced and overwritten and its id kept; the counter is unchanged and the invariant holds |
| Loja.Catalogo.Gravar | Backend/api_produtos.js:58 | `produtos[idx] = atual` replaces exactly that position and keeps the invariant |
| Loja.Catalogo.ExcluirProduto | Backend/api_produtos.js:62-67 | true exactly when some record has the id; then exactly that record is removed, others keep their order; otherwise nothing changes; the counter is untouched and the invariant holds |
| Rotas.Status | Backend/api_produtos.js:75-103 | the status of an answer is 400 or above exactly for the not-found and invalid answers |
| Rotas.StatusFaixa | Backend/api_produtos.js:75-103 | every answer is a success (2xx) or a client error (4xx) |
| Rotas.Alvo | Backend/api_produtos.js:73-74 | a path parameter names a record exactly when it reads as a number equal to a stored id, and then names a stored record with that id |
| Rotas.GetProdutos | Backend/api_produtos.js:70 | 200 with the whole array |
| Rotas.GetProduto | Backend/api_produtos.js:72-77 | 200 with the named record, or 404 with the not-found message; the status is 200 exactly when the parameter names a record |
| Rotas.GetRepetido | Backend/api_produtos.js:72-77 | two reads with no write between give the same answer |
| Rotas.PostProduto | Backend/api_produtos.js:79-84 | 400 with every validator message and the store unchanged, or 201 with the coerced body appended under the next id; the status is 201 exactly when the validator reports nothing |
| Rotas.PutProduto | Backend/api_produtos.js:86-97 | 404 and no change when no record is named; 400 with the validator's messages and no change when the merged record fails; otherwise 200, the record overwritten by the present fields, in place; the status is 404, 400 or 200 exactly in those three cases |
| Rotas.DeleteProduto | Backend/api_produtos.js:99-104 | 404 and no change when no record is named; otherwise 204 and exactly that record removed; the status is 204 exactly when the parameter names a record |
| Cenarios.WebcamValida | Backend/api_produtos.js:23-31 | a complete body passes the validator |
| Cenarios.IdsNaoReutilizados | Backend/api_produtos.js:36 | create, delete the created record, create again: the ids are 6 and then 7 |
| Cenarios.PrecoParcialAceito | Backend/api_produtos.js:91-92 | record 1 merged with `{ preco: 2000 }` passes and coerces to record 1 with that price |
| Cenarios.PutParcial | Backend/api_produtos.js:86-97 | `PUT` of `{ preco: 2000 }` on id 1 changes only the price |
| Cenarios.NomeVazioRecusado | Backend/api_produtos.js:26 | record 1 merged with `{ nome: "" }` fails the name rule alone |
| Cenarios.PutNomeVazio | Backend/api_produtos.js:92-93 | `PUT` of `{ nome: "" }` on id 1 gets 400 with the name message, and the store stays as seeded |
| Cenarios.ExcluirEConsultar | Backend/api_produtos.js:99-104 | `DELETE` of id 3 gets 204, then `GET` of id 3 gets 404 |
| Cenarios.AbcNaoNumero | Backend/api_produtos.js:73 | `Number("abc")` is `NaN` |
| Cenarios.GetNaoNumerico | Backend/api_produtos.js:72-75 | on the seeded store, `GET /api/produtos/abc` gets 404 with the not-found message |

## Left out

- Express, CORS and JSON middleware setup, `app.listen`, and JSON serialisation of answers (Backend/api_produtos.js:1-7, 107). These are framework plumbing and I/O. The routes are methods that take the catalogue as a parameter instead of reading module globals.
- Body-parser errors (a body that is not valid JSON) are rejected before any route runs, so they are not modelled.
- A `null` body. `validarProduto(null)` pushes the body message and then throws on `dados.nome`. The JSON middleware does not hand `null` to a route, so `Dados` has no null case.
- Top-level primitive bodies at the routes. `express.json()` is strict by default and answers 400 itself for a body such as `5`, `"x"` or `true`, so no route receives one. `Dados.Primitivo` models `validarProduto` called directly on such a value; `PostProduto` and `PutProduto` accept it only because their parameter type does, and what they answer for it (for `PutProduto`, 200 with the record unchanged) is not what the server answers.
- Bodies that are arrays: `typeof` reports `'object'`, and the five keys read as `undefined`. This is the same as an object without the keys (`Objeto(Vazio)`), so arrays are not a separate case.
- Field values that are arrays or nested objects. `Value` has no case for them.
- Extra keys in a body, an `id` key included. The code never reads them, so `Campos` leaves them out.
- Coercao.ParseNumber: models `Number(s)` only for optionally signed decimal integers, with surrounding white space and the empty string read as 0. Fractions, exponents, hex/octal/binary prefixes and `Infinity` read as `NaN` here, but as numbers in JavaScript. The value read is exact and unbounded, while JavaScript rounds to a double: above 2^53 `Number("9007199254740993")` is 9007199254740992, and a digit string beyond about 1.8e308 is `Infinity`. The same holds for the numbers `JSON.parse` reads from a body.
- Rotas.Alvo: because of the ParseNumber restriction, a path parameter such as `1.0` or `1e0` names no record here, while the code would find record 1.
- Coercao.ToText: renders a number as its integer decimal text. Floating-point formatting is not modelled.
- Coercao.IntText: writes every integer in full decimal digits. JavaScript's `String(n)` switches to exponent form for |n| >= 10^21 (`String(1e21)` is `"1e+21"`), so a numeric `nome` or `categoria` that large is stored as different text; the text rule's verdict is the same, as both forms are at least 2 long.
- Numbers are exact, unbounded integers throughout, while JavaScript numbers are doubles. A fractional price or stock cannot be expressed, so the model cannot show that `estoque` is not actually checked for integrality (the message promises an integer; the code checks only `>= 0`). Integers above 2^53 are rounded in JavaScript and exact here, so a stored value or an id lookup beyond that range can differ. A literal beyond about 1.8e308 (say `1e400`) is `Infinity` in JavaScript: it passes the price and stock rules, is stored, and is serialised as `null`; the model stores the exact integer. The validator's verdicts are the same either way, because rounding keeps the sign.
- Loja.Catalogo.CadastrarProduto: requires a body that passes the validator. `cadastrarProduto` itself does not check, and its only caller, the POST route, validates first.
- Loja.Catalogo.AtualizarProduto: requires that the record with the id, merged with the body, passes the validator. The only caller, the PUT route, checks exactly this first.
- Object identity and aliasing. In the code, `atualizarProduto` mutates the stored object in place, and the object handed back is the live record. The model works on values: it replaces the record at its position and returns a copy equal to it.
- Concurrency: Node handles one request at a time, and each route body runs to completion.
- Lone surrogates. JSON text may carry an unpaired surrogate such as `\ud800`, which JavaScript keeps as one code unit; a Dafny string holds only Unicode scalar values, so such text cannot be expressed.
- Loja.Semente: the seed's fractional prices are written multiplied by 100 (`120.90` is `12090`), while a price from a body is stored unscaled. So in the model `GET /api/produtos/1` answers `preco: 12090` where the code answers `120.9`, and a seeded price and a posted one are not on the same scale. Only the sign of a price matters to the validator.
