/**
 * The SQLite store of products, suppliers, customers and promotions.
 *
 * Every table has an INTEGER PRIMARY KEY AUTOINCREMENT id. A table is the map
 * from id to row plus its sqlite_sequence entry, the largest id ever issued:
 * an insert takes that entry plus one, so ids are never reused, not even
 * after a delete. Money is in integer cents and a date (a 'yyyy-MM-dd'
 * string, whose lexicographic order is the calendar order) is a day number.
 * Queries without ORDER BY return rows in ascending id order, the order of
 * SQLite's rowid scan.
 */
module DbManager {
  import opened Common
  import opened Text

  /** One AUTOINCREMENT table. */
  datatype Table<R> = Table(rows: map<int, R>, lastId: int)
  {
    /** Every stored id was issued by the sequence. */
    ghost predicate Valid() {
      lastId >= 0 && forall id | id in rows :: 1 <= id <= lastId
    }
  }

  /** A selected row: its id and its stored columns. */
  datatype Row<R> = Row(id: int, data: R)

  /** The columns adicionar_produto and atualizar_produto write. */
  datatype DadosProduto = DadosProduto(
    nome: string,
    descricao: Option<string>,
    quantidade: int,
    precoCompra: int,
    precoVenda: int,
    dataValidade: Option<int>,
    localizacao: string,
    fornecedorId: Option<int>)

  /** A produtos row: the written columns plus data_cadastro DEFAULT CURRENT_DATE. */
  datatype Produto = Produto(dados: DadosProduto, dataCadastro: int)

  datatype DadosFornecedor = DadosFornecedor(
    nome: string,
    documento: Option<string>,
    telefone: string,
    email: string,
    endereco: string,
    contato: string)

  datatype Fornecedor = Fornecedor(dados: DadosFornecedor, dataCadastro: int)

  datatype DadosCliente = DadosCliente(
    nome: string,
    documento: Option<string>,
    telefone: string,
    email: string,
    endereco: string)

  datatype Cliente = Cliente(dados: DadosCliente, dataCadastro: int)

  /** A promocoes row; the table has no defaulted column. */
  datatype Promocao = Promocao(
    produtoId: int,
    precoAntigo: int,
    precoPromocional: int,
    dataInicio: int,
    dataFim: int,
    descricao: Option<string>)

  /** A row of a LEFT JOIN: the row and the joined nome, NULL when there is no match. */
  datatype Juncao<R> = Juncao(id: int, data: R, nomeRelacionado: Option<string>)

  /** The exception a statement raises when it breaks a UNIQUE constraint. */
  datatype DbError = IntegrityError

  // ---------------------------------------------------------------------
  // Table primitives
  // ---------------------------------------------------------------------

  /** The id the next INSERT receives. */
  function NextId<R>(t: Table<R>): int {
    t.lastId + 1
  }

  function Insert<R>(t: Table<R>, r: R): Table<R> {
    Table(t.rows[NextId(t) := r], NextId(t))
  }

  /** `SELECT * ... WHERE id = ?` followed by fetchone(). */
  function Get<R>(t: Table<R>, id: int): (r: Option<R>)
    ensures r.Some? <==> id in t.rows
    ensures r.Some? ==> r.value == t.rows[id]
  {
    if id in t.rows then Some(t.rows[id]) else None
  }

  /** `UPDATE ... WHERE id = ?`: replaces the row when it exists. */
  function Update<R>(t: Table<R>, id: int, r: R): Table<R> {
    if id in t.rows then t.(rows := t.rows[id := r]) else t
  }

  /** `DELETE ... WHERE id = ?`; the sequence entry stays. */
  function Delete<R>(t: Table<R>, id: int): Table<R> {
    t.(rows := t.rows - {id})
  }

  /** An insert adds exactly one row, under an id above every id issued before. */
  lemma InsertSpec<R>(t: Table<R>, r: R)
    requires t.Valid()
    ensures Insert(t, r).Valid()
    ensures NextId(t) !in t.rows
    ensures forall id | id in t.rows :: id < NextId(t)
    ensures Get(Insert(t, r), NextId(t)) == Some(r)
    ensures forall id | id != NextId(t) :: Get(Insert(t, r), id) == Get(t, id)
    ensures |Insert(t, r).rows| == |t.rows| + 1
  {
  }

  /** Deleting a row does not give its id back: the next insert is above it. */
  lemma {:induction false} DeleteThenInsertFresh<R>(t: Table<R>, id: int, r: R)
    requires t.Valid() && id in t.rows
    ensures Delete(t, id).Valid()
    ensures NextId(Delete(t, id)) > id
    ensures Get(Insert(Delete(t, id), r), id) == None
  {
  }

  /** An update touches only the row with that id, and only if it exists. */
  lemma UpdateSpec<R>(t: Table<R>, id: int, r: R)
    requires t.Valid()
    ensures Update(t, id, r).Valid()
    ensures Update(t, id, r).lastId == t.lastId
    ensures Get(Update(t, id, r), id) == if id in t.rows then Some(r) else None
    ensures forall k | k != id :: Get(Update(t, id, r), k) == Get(t, k)
  {
  }

  /** After a delete the id is absent and every other row is as before. */
  lemma DeleteSpec<R>(t: Table<R>, id: int)
    requires t.Valid()
    ensures Delete(t, id).Valid()
    ensures Get(Delete(t, id), id) == None
    ensures forall k | k != id :: Get(Delete(t, id), k) == Get(t, k)
    ensures id in t.rows ==> |Delete(t, id).rows| == |t.rows| - 1
  {
  }

  // ---------------------------------------------------------------------
  // Scans, selections and ORDER BY
  // ---------------------------------------------------------------------

  predicate IdsIncreasing<R>(s: seq<Row<R>>) {
    forall k, m | 0 <= k < m < |s| :: s[k].id < s[m].id
  }

  /** The rows with lo <= id <= hi that satisfy keep, in ascending id order. */
  function ScanFrom<R>(rows: map<int, R>, keep: R -> bool, lo: int, hi: int): (out: seq<Row<R>>)
    ensures forall x | x in out :: lo <= x.id <= hi && x.id in rows && rows[x.id] == x.data && keep(x.data)
    ensures forall id | lo <= id <= hi && id in rows && keep(rows[id]) :: Row(id, rows[id]) in out
    ensures IdsIncreasing(out)
    decreases hi - lo
  {
    if lo > hi then
      []
    else
      var rest := ScanFrom(rows, keep, lo + 1, hi);
      if lo in rows && keep(rows[lo]) then
        assert forall m | 0 < m < |rest| + 1 :: ([Row(lo, rows[lo])] + rest)[m] == rest[m - 1];
        [Row(lo, rows[lo])] + rest
      else
        rest
  }

  /** `SELECT * FROM t WHERE keep`: exactly the rows satisfying keep, in id order. */
  function Select<R>(t: Table<R>, keep: R -> bool): (out: seq<Row<R>>)
    requires t.Valid()
    ensures forall x | x in out :: x.id in t.rows && t.rows[x.id] == x.data && keep(x.data)
    ensures forall id | id in t.rows && keep(t.rows[id]) :: Row(id, t.rows[id]) in out
    ensures IdsIncreasing(out)
  {
    ScanFrom(t.rows, keep, 1, t.lastId)
  }

  predicate SortedBy<R>(s: seq<Row<R>>, key: R -> int) {
    forall k, m | 0 <= k < m < |s| :: key(s[k].data) <= key(s[m].data)
  }

  /** Places x into a sequence already ordered by key. */
  function InsertByKey<R>(x: Row<R>, s: seq<Row<R>>, key: R -> int): (out: seq<Row<R>>)
    requires SortedBy(s, key)
    ensures SortedBy(out, key)
    ensures multiset(out) == multiset(s) + multiset{x}
    ensures |out| == |s| + 1
    ensures forall y | y in out :: y == x || y in s
  {
    if s == [] || key(x.data) <= key(s[0].data) then
      assert forall k | 0 <= k < |s| :: key(x.data) <= key(s[k].data);
      SortedCons(x, s, key);
      [x] + s
    else
      var rest := InsertByKey(x, s[1..], key);
      assert s == [s[0]] + s[1..];
      assert forall k | 0 <= k < |rest| :: key(s[0].data) <= key(rest[k].data) by {
        forall k | 0 <= k < |rest| ensures key(s[0].data) <= key(rest[k].data) {
          assert rest[k] in rest;
        }
      }
      SortedCons(s[0], rest, key);
      [s[0]] + rest
  }

  /** A row whose key is at most every key of a sorted sequence can go first. */
  lemma SortedCons<R>(h: Row<R>, s: seq<Row<R>>, key: R -> int)
    requires SortedBy(s, key)
    requires forall k | 0 <= k < |s| :: key(h.data) <= key(s[k].data)
    ensures SortedBy([h] + s, key)
  {
    var out := [h] + s;
    forall k, m | 0 <= k < m < |out|
      ensures key(out[k].data) <= key(out[m].data)
    {
      assert out[m] == s[m - 1];
      if k > 0 {
        assert out[k] == s[k - 1];
      }
    }
  }

  /** `ORDER BY key`: the same rows, ordered by key. */
  function SortBy<R>(s: seq<Row<R>>, key: R -> int): (out: seq<Row<R>>)
    ensures SortedBy(out, key)
    ensures multiset(out) == multiset(s)
  {
    if s == [] then
      []
    else
      assert s == [s[0]] + s[1..];
      InsertByKey(s[0], SortBy(s[1..], key), key)
  }

  /** Sorting keeps exactly the rows it was given. */
  lemma SortByMembros<R>(s: seq<Row<R>>, key: R -> int)
    ensures forall x :: x in SortBy(s, key) <==> x in s
  {
    var out := SortBy(s, key);
    assert forall x :: x in out <==> x in multiset(out);
    assert forall x :: x in s <==> x in multiset(s);
  }

  /** No id occurs twice: each stored row is returned once. */
  predicate IdsDistintos<R>(s: seq<Row<R>>) {
    forall k, m | 0 <= k < m < |s| :: s[k].id != s[m].id
  }

  /** In a sequence of increasing ids each row occurs at most once. */
  lemma {:induction false} ContagemUnica<R>(s: seq<Row<R>>, x: Row<R>)
    requires IdsIncreasing(s)
    ensures multiset(s)[x] <= 1
  {
    if s != [] {
      assert s == [s[0]] + s[1..];
      assert forall k | 0 <= k < |s| - 1 :: s[1..][k] == s[k + 1];
      ContagemUnica(s[1..], x);
      if x == s[0] {
        assert forall y | y in s[1..] :: y.id > x.id;
      }
    }
  }

  /** Two rows of a sequence of increasing ids that share an id are the same row. */
  lemma RowPorId<R>(s: seq<Row<R>>, x: Row<R>, y: Row<R>)
    requires IdsIncreasing(s) && x in s && y in s
    ensures x.id == y.id ==> x == y
  {
    var i :| 0 <= i < |s| && s[i] == x;
    var j :| 0 <= j < |s| && s[j] == y;
  }

  /** A row at two positions is counted twice. */
  lemma ContagemDupla<T>(s: seq<T>, k: int, m: int)
    requires 0 <= k < m < |s|
    ensures s[k] == s[m] ==> multiset(s)[s[k]] >= 2
  {
    assert s == s[..m] + s[m..];
    assert s[..m][k] == s[k] && s[m..][0] == s[m];
  }

  /** A join that keeps each row's id keeps the ids distinct. */
  lemma JuncaoDistinta<R>(s: seq<Row<R>>, out: seq<Juncao<R>>)
    requires IdsDistintos(s) && |out| == |s|
    requires forall k | 0 <= k < |s| :: out[k].id == s[k].id
    ensures forall k, m | 0 <= k < m < |out| :: out[k].id != out[m].id
  {
  }

  /** `ORDER BY` over rows of distinct ids returns each of them once. */
  lemma SortByDistintos<R>(s: seq<Row<R>>, key: R -> int)
    requires IdsIncreasing(s)
    ensures IdsDistintos(SortBy(s, key))
  {
    var out := SortBy(s, key);
    forall k, m | 0 <= k < m < |out|
      ensures out[k].id != out[m].id
    {
      ContagemDupla(out, k, m);
      ContagemUnica(s, out[k]);
      assert out[k] in multiset(s) && out[m] in multiset(s);
      RowPorId(s, out[k], out[m]);
    }
  }

  // ---------------------------------------------------------------------
  // Row predicates of the queries
  // ---------------------------------------------------------------------

  /** `column LIKE '%term%'` where the column may be NULL (never matches). */
  predicate LikeOpcional(value: Option<string>, term: string) {
    value.Some? && LikeContains(value.value, term)
  }

  /** The WHERE of listar_produtos; an empty filter selects everything. */
  predicate ProdutoCombina(p: Produto, filtro: string) {
    filtro == [] || LikeContains(p.dados.nome, filtro) || LikeOpcional(p.dados.descricao, filtro)
  }

  predicate FornecedorCombina(f: Fornecedor, filtro: string) {
    filtro == [] || LikeContains(f.dados.nome, filtro) || LikeOpcional(f.dados.documento, filtro)
  }

  predicate ClienteCombina(c: Cliente, filtro: string) {
    filtro == [] || LikeContains(c.dados.nome, filtro) || LikeOpcional(c.dados.documento, filtro)
  }

  /** The WHERE of listar_promocoes: the joined product nome (NULL without a
      product) or the promotion's descricao contains the term. */
  predicate PromocaoCombina(pr: Promocao, produtoNome: Option<string>, filtro: string) {
    filtro == [] || LikeOpcional(produtoNome, filtro) || LikeOpcional(pr.descricao, filtro)
  }

  /** `data_validade <= hoje + dias AND data_validade >= hoje`; NULL never qualifies. */
  predicate VenceEntre(p: Produto, hoje: int, dias: int) {
    p.dados.dataValidade.Some? && hoje <= p.dados.dataValidade.value <= hoje + dias
  }

  /** `data_validade < hoje`. */
  predicate Vencido(p: Produto, hoje: int) {
    p.dados.dataValidade.Some? && p.dados.dataValidade.value < hoje
  }

  /** `data_inicio <= hoje AND data_fim >= hoje`. */
  predicate PromocaoAtiva(pr: Promocao, hoje: int) {
    pr.dataInicio <= hoje <= pr.dataFim
  }

  /** The ORDER BY key of the date queries; they only ever sort dated rows. */
  function Validade(p: Produto): int {
    if p.dados.dataValidade.Some? then p.dados.dataValidade.value else 0
  }

  /** Some other row than `exceto` already holds documento doc (NULLs never clash). */
  predicate DocumentoEmUso<R>(rows: map<int, R>, documentoDe: R -> Option<string>, doc: Option<string>, exceto: int) {
    doc.Some? && exists id | id in rows :: id != exceto && documentoDe(rows[id]) == doc
  }

  /** The UNIQUE constraint on documento. */
  ghost predicate DocumentosUnicos<R>(rows: map<int, R>, documentoDe: R -> Option<string>) {
    forall i, j | i in rows && j in rows && i != j && documentoDe(rows[i]).Some? :: documentoDe(rows[i]) != documentoDe(rows[j])
  }

  function DocumentoFornecedor(f: Fornecedor): Option<string> {
    f.dados.documento
  }

  function DocumentoCliente(c: Cliente): Option<string> {
    c.dados.documento
  }

  /** Writing a row whose documento no other row holds keeps the constraint. */
  lemma {:induction false} UniqueKept<R>(rows: map<int, R>, documentoDe: R -> Option<string>, id: int, r: R)
    requires DocumentosUnicos(rows, documentoDe)
    requires !DocumentoEmUso(rows, documentoDe, documentoDe(r), id)
    ensures DocumentosUnicos(rows[id := r], documentoDe)
  {
    var rows' := rows[id := r];
    forall i, j | i in rows' && j in rows' && i != j && documentoDe(rows'[i]).Some?
      ensures documentoDe(rows'[i]) != documentoDe(rows'[j])
    {
      if i == id {
        assert j in rows && j != id;
      } else if j == id {
        assert i in rows && i != id;
      }
    }
  }

  function NomeProdutoEm(produtos: map<int, Produto>, pr: Promocao): Option<string> {
    if pr.produtoId in produtos then Some(produtos[pr.produtoId].dados.nome) else None
  }

  // ---------------------------------------------------------------------
  // The database
  // ---------------------------------------------------------------------

  /** The connection and its four tables. */
  class DatabaseManager {
    var produtos: Table<Produto>
    var fornecedores: Table<Fornecedor>
    var clientes: Table<Cliente>
    var promocoes: Table<Promocao>

    ghost predicate Valid()
      reads this
    {
      && produtos.Valid() && fornecedores.Valid() && clientes.Valid() && promocoes.Valid()
      && DocumentosUnicos(fornecedores.rows, DocumentoFornecedor)
      && DocumentosUnicos(clientes.rows, DocumentoCliente)
    }

    /** criar_tabelas on a new database file: four empty tables. */
    constructor ()
      ensures Valid()
      ensures produtos == Table(map[], 0) && fornecedores == Table(map[], 0)
      ensures clientes == Table(map[], 0) && promocoes == Table(map[], 0)
    {
      produtos := Table(map[], 0);
      fornecedores := Table(map[], 0);
      clientes := Table(map[], 0);
      promocoes := Table(map[], 0);
    }

    // --- produtos ---

    /** adicionar_produto: returns lastrowid. */
    method AdicionarProduto(dados: DadosProduto, hoje: int) returns (id: int)
      requires Valid()
      modifies this
      ensures Valid()
      ensures id == NextId(old(produtos)) && id !in old(produtos.rows)
      ensures produtos == Insert(old(produtos), Produto(dados, hoje))
      ensures fornecedores == old(fornecedores) && clientes == old(clientes) && promocoes == old(promocoes)
    {
      id := NextId(produtos);
      produtos := Insert(produtos, Produto(dados, hoje));
    }

    /** atualizar_produto: rowcount > 0; data_cadastro is not among the SET columns. */
    method AtualizarProduto(id: int, dados: DadosProduto) returns (existia: bool)
      requires Valid()
      modifies this
      ensures Valid()
      ensures existia <==> id in old(produtos.rows)
      ensures existia ==> produtos == Update(old(produtos), id, Produto(dados, old(produtos.rows[id].dataCadastro)))
      ensures !existia ==> produtos == old(produtos)
      ensures fornecedores == old(fornecedores) && clientes == old(clientes) && promocoes == old(promocoes)
    {
      existia := id in produtos.rows;
      if existia {
        produtos := Update(produtos, id, Produto(dados, produtos.rows[id].dataCadastro));
      }
    }

    /** excluir_produto: rowcount > 0. */
    method ExcluirProduto(id: int) returns (existia: bool)
      requires Valid()
      modifies this
      ensures Valid()
      ensures existia <==> id in old(produtos.rows)
      ensures produtos == Delete(old(produtos), id)
      ensures fornecedores == old(fornecedores) && clientes == old(clientes) && promocoes == old(promocoes)
    {
      existia := id in produtos.rows;
      produtos := Delete(produtos, id);
    }

    function ObterProduto(id: int): (r: Option<Produto>)
      reads this
      ensures r.Some? <==> id in produtos.rows
      ensures r.Some? ==> r.value == produtos.rows[id]
    {
      Get(produtos, id)
    }

    /** The LEFT JOIN of a product to its supplier's nome. */
    function NomeFornecedor(p: Produto): Option<string>
      reads this
    {
      if p.dados.fornecedorId.Some? && p.dados.fornecedorId.value in fornecedores.rows then
        Some(fornecedores.rows[p.dados.fornecedorId.value].dados.nome)
      else
        None
    }

    function JuntarFornecedor(s: seq<Row<Produto>>): (out: seq<Juncao<Produto>>)
      reads this
      ensures |out| == |s|
      ensures forall k | 0 <= k < |s| :: out[k] == Juncao(s[k].id, s[k].data, NomeFornecedor(s[k].data))
    {
      if s == [] then [] else [Juncao(s[0].id, s[0].data, NomeFornecedor(s[0].data))] + JuntarFornecedor(s[1..])
    }

    /** listar_produtos: the matching products, each with its supplier's nome. */
    function ListarProdutos(filtro: string): (out: seq<Juncao<Produto>>)
      requires Valid()
      reads this
      ensures forall k | 0 <= k < |out| ::
        && out[k].id in produtos.rows && out[k].data == produtos.rows[out[k].id]
        && ProdutoCombina(out[k].data, filtro) && out[k].nomeRelacionado == NomeFornecedor(out[k].data)
      ensures forall id | id in produtos.rows && ProdutoCombina(produtos.rows[id], filtro) ::
        Juncao(id, produtos.rows[id], NomeFornecedor(produtos.rows[id])) in out
      ensures forall k, m | 0 <= k < m < |out| :: out[k].id < out[m].id
    {
      var s := Select(produtos, p => ProdutoCombina(p, filtro));
      var out := JuntarFornecedor(s);
      assert forall id | id in produtos.rows && ProdutoCombina(produtos.rows[id], filtro) ::
        Row(id, produtos.rows[id]) in s;
      assert forall k | 0 <= k < |s| :: s[k] in s;
      out
    }

    /** verificar_produtos_vencendo: the products expiring between today and
        today + dias, in ascending validade order. */
    function VerificarProdutosVencendo(dias: int, hoje: int): (out: seq<Row<Produto>>)
      requires Valid()
      reads this
      ensures forall x | x in out :: x.id in produtos.rows && x.data == produtos.rows[x.id] && VenceEntre(x.data, hoje, dias)
      ensures forall id | id in produtos.rows && VenceEntre(produtos.rows[id], hoje, dias) :: Row(id, produtos.rows[id]) in out
      ensures SortedBy(out, Validade)
      ensures multiset(out) == multiset(Select(produtos, p => VenceEntre(p, hoje, dias)))
      ensures IdsDistintos(out)
    {
      var s := Select(produtos, p => VenceEntre(p, hoje, dias));
      SortByMembros(s, Validade);
      SortByDistintos(s, Validade);
      SortBy(s, Validade)
    }

    /** verificar_produtos_vencidos: the products already past their date, oldest first. */
    function VerificarProdutosVencidos(hoje: int): (out: seq<Row<Produto>>)
      requires Valid()
      reads this
      ensures forall x | x in out :: x.id in produtos.rows && x.data == produtos.rows[x.id] && Vencido(x.data, hoje)
      ensures forall id | id in produtos.rows && Vencido(produtos.rows[id], hoje) :: Row(id, produtos.rows[id]) in out
      ensures SortedBy(out, Validade)
      ensures multiset(out) == multiset(Select(produtos, p => Vencido(p, hoje)))
      ensures IdsDistintos(out)
    {
      var s := Select(produtos, p => Vencido(p, hoje));
      SortByMembros(s, Validade);
      SortByDistintos(s, Validade);
      SortBy(s, Validade)
    }

    // --- fornecedores ---

    /** adicionar_fornecedor: lastrowid, or IntegrityError when documento is taken. */
    method AdicionarFornecedor(dados: DadosFornecedor, hoje: int) returns (r: Result<int, DbError>)
      requires Valid()
      modifies this
      ensures Valid()
      ensures DocumentoEmUso(old(fornecedores.rows), DocumentoFornecedor, dados.documento, NextId(old(fornecedores))) ==>
        r == Failure(IntegrityError) && fornecedores == old(fornecedores)
      ensures !DocumentoEmUso(old(fornecedores.rows), DocumentoFornecedor, dados.documento, NextId(old(fornecedores))) ==>
        r == Success(NextId(old(fornecedores))) && fornecedores == Insert(old(fornecedores), Fornecedor(dados, hoje))
      ensures produtos == old(produtos) && clientes == old(clientes) && promocoes == old(promocoes)
    {
      var novo := Fornecedor(dados, hoje);
      if DocumentoEmUso(fornecedores.rows, DocumentoFornecedor, dados.documento, NextId(fornecedores)) {
        r := Failure(IntegrityError);
      } else {
        UniqueKept(fornecedores.rows, DocumentoFornecedor, NextId(fornecedores), novo);
        r := Success(NextId(fornecedores));
        fornecedores := Insert(fornecedores, novo);
      }
    }

    /** atualizar_fornecedor: rowcount > 0, or IntegrityError when another row holds documento. */
    method AtualizarFornecedor(id: int, dados: DadosFornecedor) returns (r: Result<bool, DbError>)
      requires Valid()
      modifies this
      ensures Valid()
      ensures id !in old(fornecedores.rows) ==> r == Success(false) && fornecedores == old(fornecedores)
      ensures id in old(fornecedores.rows) && DocumentoEmUso(old(fornecedores.rows), DocumentoFornecedor, dados.documento, id) ==>
        r == Failure(IntegrityError) && fornecedores == old(fornecedores)
      ensures id in old(fornecedores.rows) && !DocumentoEmUso(old(fornecedores.rows), DocumentoFornecedor, dados.documento, id) ==>
        r == Success(true) && fornecedores == Update(old(fornecedores), id, Fornecedor(dados, old(fornecedores.rows[id].dataCadastro)))
      ensures produtos == old(produtos) && clientes == old(clientes) && promocoes == old(promocoes)
    {
      if id !in fornecedores.rows {
        r := Success(false);
      } else if DocumentoEmUso(fornecedores.rows, DocumentoFornecedor, dados.documento, id) {
        r := Failure(IntegrityError);
      } else {
        var novo := Fornecedor(dados, fornecedores.rows[id].dataCadastro);
        UniqueKept(fornecedores.rows, DocumentoFornecedor, id, novo);
        fornecedores := Update(fornecedores, id, novo);
        r := Success(true);
      }
    }

    method ExcluirFornecedor(id: int) returns (existia: bool)
      requires Valid()
      modifies this
      ensures Valid()
      ensures existia <==> id in old(fornecedores.rows)
      ensures fornecedores == Delete(old(fornecedores), id)
      ensures produtos == old(produtos) && clientes == old(clientes) && promocoes == old(promocoes)
    {
      existia := id in fornecedores.rows;
      fornecedores := Delete(fornecedores, id);
    }

    function ObterFornecedor(id: int): (r: Option<Fornecedor>)
      reads this
      ensures r.Some? <==> id in fornecedores.rows
      ensures r.Some? ==> r.value == fornecedores.rows[id]
    {
      Get(fornecedores, id)
    }

    /** listar_fornecedores: the suppliers whose nome or documento contains the filter. */
    function ListarFornecedores(filtro: string): (out: seq<Row<Fornecedor>>)
      requires Valid()
      reads this
      ensures forall x | x in out :: x.id in fornecedores.rows && x.data == fornecedores.rows[x.id] && FornecedorCombina(x.data, filtro)
      ensures forall id | id in fornecedores.rows && FornecedorCombina(fornecedores.rows[id], filtro) :: Row(id, fornecedores.rows[id]) in out
      ensures IdsIncreasing(out)
    {
      Select(fornecedores, f => FornecedorCombina(f, filtro))
    }

    // --- clientes ---

    method AdicionarCliente(dados: DadosCliente, hoje: int) returns (r: Result<int, DbError>)
      requires Valid()
      modifies this
      ensures Valid()
      ensures DocumentoEmUso(old(clientes.rows), DocumentoCliente, dados.documento, NextId(old(clientes))) ==>
        r == Failure(IntegrityError) && clientes == old(clientes)
      ensures !DocumentoEmUso(old(clientes.rows), DocumentoCliente, dados.documento, NextId(old(clientes))) ==>
        r == Success(NextId(old(clientes))) && clientes == Insert(old(clientes), Cliente(dados, hoje))
      ensures produtos == old(produtos) && fornecedores == old(fornecedores) && promocoes == old(promocoes)
    {
      var novo := Cliente(dados, hoje);
      if DocumentoEmUso(clientes.rows, DocumentoCliente, dados.documento, NextId(clientes)) {
        r := Failure(IntegrityError);
      } else {
        UniqueKept(clientes.rows, DocumentoCliente, NextId(clientes), novo);
        r := Success(NextId(clientes));
        clientes := Insert(clientes, novo);
      }
    }

    method AtualizarCliente(id: int, dados: DadosCliente) returns (r: Result<bool, DbError>)
      requires Valid()
      modifies this
      ensures Valid()
      ensures id !in old(clientes.rows) ==> r == Success(false) && clientes == old(clientes)
      ensures id in old(clientes.rows) && DocumentoEmUso(old(clientes.rows), DocumentoCliente, dados.documento, id) ==>
        r == Failure(IntegrityError) && clientes == old(clientes)
      ensures id in old(clientes.rows) && !DocumentoEmUso(old(clientes.rows), DocumentoCliente, dados.documento, id) ==>
        r == Success(true) && clientes == Update(old(clientes), id, Cliente(dados, old(clientes.rows[id].dataCadastro)))
      ensures produtos == old(produtos) && fornecedores == old(fornecedores) && promocoes == old(promocoes)
    {
      if id !in clientes.rows {
        r := Success(false);
      } else if DocumentoEmUso(clientes.rows, DocumentoCliente, dados.documento, id) {
        r := Failure(IntegrityError);
      } else {
        var novo := Cliente(dados, clientes.rows[id].dataCadastro);
        UniqueKept(clientes.rows, DocumentoCliente, id, novo);
        clientes := Update(clientes, id, novo);
        r := Success(true);
      }
    }

    method ExcluirCliente(id: int) returns (existia: bool)
      requires Valid()
      modifies this
      ensures Valid()
      ensures existia <==> id in old(clientes.rows)
      ensures clientes == Delete(old(clientes), id)
      ensures produtos == old(produtos) && fornecedores == old(fornecedores) && promocoes == old(promocoes)
    {
      existia := id in clientes.rows;
      clientes := Delete(clientes, id);
    }

    function ObterCliente(id: int): (r: Option<Cliente>)
      reads this
      ensures r.Some? <==> id in clientes.rows
      ensures r.Some? ==> r.value == clientes.rows[id]
    {
      Get(clientes, id)
    }

    function ListarClientes(filtro: string): (out: seq<Row<Cliente>>)
      requires Valid()
      reads this
      ensures forall x | x in out :: x.id in clientes.rows && x.data == clientes.rows[x.id] && ClienteCombina(x.data, filtro)
      ensures forall id | id in clientes.rows && ClienteCombina(clientes.rows[id], filtro) :: Row(id, clientes.rows[id]) in out
      ensures IdsIncreasing(out)
    {
      Select(clientes, c => ClienteCombina(c, filtro))
    }

    // --- promocoes ---

    method AdicionarPromocao(pr: Promocao) returns (id: int)
      requires Valid()
      modifies this
      ensures Valid()
      ensures id == NextId(old(promocoes)) && id !in old(promocoes.rows)
      ensures promocoes == Insert(old(promocoes), pr)
      ensures produtos == old(produtos) && fornecedores == old(fornecedores) && clientes == old(clientes)
    {
      id := NextId(promocoes);
      promocoes := Insert(promocoes, pr);
    }

    method AtualizarPromocao(id: int, pr: Promocao) returns (existia: bool)
      requires Valid()
      modifies this
      ensures Valid()
      ensures existia <==> id in old(promocoes.rows)
      ensures promocoes == Update(old(promocoes), id, pr)
      ensures produtos == old(produtos) && fornecedores == old(fornecedores) && clientes == old(clientes)
    {
      existia := id in promocoes.rows;
      promocoes := Update(promocoes, id, pr);
    }

    method ExcluirPromocao(id: int) returns (existia: bool)
      requires Valid()
      modifies this
      ensures Valid()
      ensures existia <==> id in old(promocoes.rows)
      ensures promocoes == Delete(old(promocoes), id)
      ensures produtos == old(produtos) && fornecedores == old(fornecedores) && clientes == old(clientes)
    {
      existia := id in promocoes.rows;
      promocoes := Delete(promocoes, id);
    }

    function ObterPromocao(id: int): (r: Option<Promocao>)
      reads this
      ensures r.Some? <==> id in promocoes.rows
      ensures r.Some? ==> r.value == promocoes.rows[id]
    {
      Get(promocoes, id)
    }

    /** The LEFT JOIN of a promotion to its product's nome. */
    function NomeProduto(pr: Promocao): Option<string>
      reads this
    {
      NomeProdutoEm(produtos.rows, pr)
    }

    function JuntarProduto(s: seq<Row<Promocao>>): (out: seq<Juncao<Promocao>>)
      reads this
      ensures |out| == |s|
      ensures forall k | 0 <= k < |s| :: out[k] == Juncao(s[k].id, s[k].data, NomeProduto(s[k].data))
    {
      if s == [] then [] else [Juncao(s[0].id, s[0].data, NomeProduto(s[0].data))] + JuntarProduto(s[1..])
    }

    /** listar_promocoes: the promotions whose product nome or descricao contains the filter. */
    function ListarPromocoes(filtro: string): (out: seq<Juncao<Promocao>>)
      requires Valid()
      reads this
      ensures forall k | 0 <= k < |out| ::
        && out[k].id in promocoes.rows && out[k].data == promocoes.rows[out[k].id]
        && out[k].nomeRelacionado == NomeProduto(out[k].data)
        && PromocaoCombina(out[k].data, out[k].nomeRelacionado, filtro)
      ensures forall id | id in promocoes.rows && PromocaoCombina(promocoes.rows[id], NomeProduto(promocoes.rows[id]), filtro) ::
        Juncao(id, promocoes.rows[id], NomeProduto(promocoes.rows[id])) in out
      ensures forall k, m | 0 <= k < m < |out| :: out[k].id < out[m].id
    {
      var prods := produtos.rows;
      var s := Select(promocoes, pr => PromocaoCombina(pr, NomeProdutoEm(prods, pr), filtro));
      var out := JuntarProduto(s);
      assert forall id | id in promocoes.rows && PromocaoCombina(promocoes.rows[id], NomeProduto(promocoes.rows[id]), filtro) ::
        Row(id, promocoes.rows[id]) in s;
      assert forall k | 0 <= k < |s| :: s[k] in s;
      out
    }

    /** listar_promocoes_ativas: the promotions running today, with their product's nome. */
    function ListarPromocoesAtivas(hoje: int): (out: seq<Juncao<Promocao>>)
      requires Valid()
      reads this
      ensures forall k | 0 <= k < |out| ::
        && out[k].id in promocoes.rows && out[k].data == promocoes.rows[out[k].id]
        && PromocaoAtiva(out[k].data, hoje) && out[k].nomeRelacionado == NomeProduto(out[k].data)
      ensures forall id | id in promocoes.rows && PromocaoAtiva(promocoes.rows[id], hoje) ::
        Juncao(id, promocoes.rows[id], NomeProduto(promocoes.rows[id])) in out
      ensures forall k, m | 0 <= k < m < |out| :: out[k].id < out[m].id
    {
      var s := Select(promocoes, pr => PromocaoAtiva(pr, hoje));
      var out := JuntarProduto(s);
      assert forall id | id in promocoes.rows && PromocaoAtiva(promocoes.rows[id], hoje) ::
        Row(id, promocoes.rows[id]) in s;
      assert forall k | 0 <= k < |s| :: s[k] in s;
      out
    }
  }

  /** No product is both expired and expiring, whatever the window. */
  lemma VencidosDisjuntosDeVencendo(db: DatabaseManager, dias: int, hoje: int)
    requires db.Valid()
    ensures forall x | x in db.VerificarProdutosVencidos(hoje) :: x !in db.VerificarProdutosVencendo(dias, hoje)
  {
  }

  /** With an empty filter every listing returns every row. */
  lemma FiltroVazioListaTudo(db: DatabaseManager)
    requires db.Valid()
    ensures forall id | id in db.fornecedores.rows :: Row(id, db.fornecedores.rows[id]) in db.ListarFornecedores([])
    ensures forall id | id in db.clientes.rows :: Row(id, db.clientes.rows[id]) in db.ListarClientes([])
    ensures forall id | id in db.produtos.rows ::
      Juncao(id, db.produtos.rows[id], db.NomeFornecedor(db.produtos.rows[id])) in db.ListarProdutos([])
  {
  }

  // ---------------------------------------------------------------------
  // The listings' filter, pasted into the statement text
  // ---------------------------------------------------------------------

  /** SQLite's reading of a string literal whose opening quote is already
      consumed: the characters up to the closing quote, two quotes in a row
      standing for one. The literal's value and the text after its closing
      quote, or None when the text ends first. */
  function LerLiteral(s: string): Option<(string, string)>
    decreases |s|
  {
    if s == [] then None
    else if s[0] == '\'' && (|s| < 2 || s[1] != '\'') then Some(([], s[1..]))
    else
      var n := if s[0] == '\'' then 2 else 1;
      var resto := LerLiteral(s[n..]);
      if resto.None? then None else Some(([s[0]] + resto.value.0, resto.value.1))
  }

  /** The text after `LIKE '` in the clause the four listings append when the
      filter is not empty, `<col> LIKE '%filtro%' OR <segunda> LIKE '%filtro%'`,
      with the filter written straight into the statement. */
  function AposAbertura(filtro: string, segunda: string): string {
    "%" + filtro + "%'" + RestoPretendido(filtro, segunda)
  }

  /** What the clause means after its first pattern: ` OR <segunda> LIKE '%filtro%'`. */
  function RestoPretendido(filtro: string, segunda: string): string {
    " OR " + segunda + " LIKE '%" + filtro + "%'"
  }

  /** The first LIKE pattern SQLite reads from the statement built as
      written, and the statement text it goes on to read. */
  function PadraoComoEscrito(filtro: string, segunda: string): Option<(string, string)> {
    LerLiteral(AposAbertura(filtro, segunda))
  }

  /** A literal without quotes inside ends at the first quote. */
  lemma {:induction false} LerLiteralAteAspa(a: string, b: string)
    requires forall k | 0 <= k < |a| :: a[k] != '\''
    requires b == [] || b[0] != '\''
    ensures LerLiteral(a + "'" + b) == Some((a, b))
    decreases |a|
  {
    var s := a + "'" + b;
    if a == [] {
      assert s == "'" + b && s[1..] == b;
    } else {
      assert s[0] == a[0] && s[1..] == a[1..] + "'" + b;
      LerLiteralAteAspa(a[1..], b);
      assert [a[0]] + a[1..] == a;
    }
  }

  /** Without a quote in the filter the statement as written reads the
      pattern %filtro% and then the rest of the clause, as a bound
      parameter would. */
  lemma PadraoSemAspas(filtro: string, segunda: string)
    requires forall k | 0 <= k < |filtro| :: filtro[k] != '\''
    ensures PadraoComoEscrito(filtro, segunda) == Some(("%" + filtro + "%", RestoPretendido(filtro, segunda)))
  {
    var a := "%" + filtro + "%";
    assert forall k | 0 <= k < |a| :: a[k] != '\'' by {
      assert forall k | 1 <= k < |a| - 1 :: a[k] == filtro[k - 1];
    }
    assert "%" + filtro + "%" + "'" == "%" + filtro + ("%" + "'");
    assert AposAbertura(filtro, segunda) == a + "'" + RestoPretendido(filtro, segunda);
    LerLiteralAteAspa(a, RestoPretendido(filtro, segunda));
  }

  /** With a quote in the filter (one not doubled) the pattern stops at that
      quote, and whatever follows it in the filter is read as SQL: "d'água"
      gives the pattern %d and then the text água%' ..., which is not SQL,
      and the filter ' OR 1=1 OR ' turns the clause into one every row meets. */
  lemma PadraoCortadoNaAspa(filtro: string, segunda: string, i: int)
    requires 0 <= i < |filtro| && filtro[i] == '\''
    requires forall k | 0 <= k < i :: filtro[k] != '\''
    requires i + 1 == |filtro| || filtro[i + 1] != '\''
    ensures PadraoComoEscrito(filtro, segunda) ==
      Some(("%" + filtro[..i], filtro[i + 1..] + "%'" + RestoPretendido(filtro, segunda)))
    ensures PadraoComoEscrito(filtro, segunda).value.0 != "%" + filtro + "%"
  {
    var a := "%" + filtro[..i];
    var b := filtro[i + 1..] + "%'" + RestoPretendido(filtro, segunda);
    assert forall k | 0 <= k < |a| :: a[k] != '\'' by {
      assert forall k | 1 <= k < |a| :: a[k] == filtro[k - 1];
    }
    assert b[0] != '\'' by {
      if i + 1 < |filtro| {
        assert b[0] == filtro[i + 1];
      } else {
        assert b[0] == '%';
      }
    }
    assert filtro == filtro[..i] + "'" + filtro[i + 1..];
    var r := RestoPretendido(filtro, segunda);
    assert "%" + (filtro[..i] + "'" + filtro[i + 1..]) + ("%'" + r) == ("%" + filtro[..i]) + "'" + (filtro[i + 1..] + ("%'" + r));
    assert filtro[i + 1..] + "%'" + r == filtro[i + 1..] + ("%'" + r);
    assert "%" + filtro + "%'" + r == "%" + filtro + ("%'" + r);
    assert AposAbertura(filtro, segunda) == "%" + filtro + ("%'" + r);
    assert AposAbertura(filtro, segunda) == a + "'" + b;
    LerLiteralAteAspa(a, b);
  }
}
