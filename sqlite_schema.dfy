/**
 * A SQLite database at the level the migration scripts work on: named
 * tables, each a list of columns and a list of rows, and the statements the
 * scripts issue (CREATE TABLE, ALTER TABLE ADD COLUMN / RENAME TO, DROP
 * TABLE, INSERT). A statement that SQLite refuses leaves the database as it
 * was and answers false.
 */
module Sqlite {
  import opened Common

  /** A stored value. Values in a REAL column are kept as Real, as REAL
      affinity converts the integers written to it. */
  datatype Valor = Null | Int(i: int) | Real(x: real) | Text(s: string)

  /** A column's DEFAULT clause. */
  datatype Padrao = SemPadrao | Constante(v: Valor) | DataAtual

  datatype Coluna = Coluna(nome: string, naoNulo: bool, padrao: Padrao)

  /** A row maps each column name to its value. */
  type Linha = map<string, Valor>

  datatype Tabela = Tabela(colunas: seq<Coluna>, linhas: seq<Linha>)

  function Nomes(cs: seq<Coluna>): (ns: seq<string>)
    ensures |ns| == |cs| && forall k | 0 <= k < |cs| :: ns[k] == cs[k].nome
  {
    seq(|cs|, k requires 0 <= k < |cs| => cs[k].nome)
  }

  predicate TemColuna(t: Tabela, nome: string) {
    nome in Nomes(t.colunas)
  }

  /** Distinct column names, and every row holds exactly the table's columns. */
  ghost predicate BemFormada(t: Tabela) {
    && (forall j, k | 0 <= j < k < |t.colunas| :: t.colunas[j].nome != t.colunas[k].nome)
    && (forall k | 0 <= k < |t.linhas| :: t.linhas[k].Keys == set n | n in Nomes(t.colunas))
  }

  /** The value ADD COLUMN gives the rows already in the table. */
  function ValorPadrao(p: Padrao): Valor {
    if p.Constante? then p.v else Null
  }

  /** The table after `ALTER TABLE ... ADD COLUMN c`. */
  function ComColuna(t: Tabela, c: Coluna): (r: Tabela)
    ensures r.colunas == t.colunas + [c] && |r.linhas| == |t.linhas|
    ensures forall k | 0 <= k < |t.linhas| :: r.linhas[k] == t.linhas[k][c.nome := ValorPadrao(c.padrao)]
  {
    Tabela(t.colunas + [c], seq(|t.linhas|, k requires 0 <= k < |t.linhas| => t.linhas[k][c.nome := ValorPadrao(c.padrao)]))
  }

  lemma NomesComColuna(t: Tabela, c: Coluna)
    ensures Nomes(ComColuna(t, c).colunas) == Nomes(t.colunas) + [c.nome]
  {
  }

  lemma NomesConcat(a: seq<Coluna>, b: seq<Coluna>)
    ensures Nomes(a + b) == Nomes(a) + Nomes(b)
  {
  }

  /** The table after an UPDATE whose SET and WHERE clauses give each row
      the value `f` computes from it. */
  function ComLinhas(t: Tabela, f: Linha -> Linha): (r: Tabela)
    ensures r.colunas == t.colunas && |r.linhas| == |t.linhas|
    ensures forall k | 0 <= k < |t.linhas| :: r.linhas[k] == f(t.linhas[k])
  {
    Tabela(t.colunas, seq(|t.linhas|, k requires 0 <= k < |t.linhas| => f(t.linhas[k])))
  }

  /** The rows break no NOT NULL constraint of the columns. */
  predicate RespeitaNaoNulo(cs: seq<Coluna>, linhas: seq<Linha>) {
    forall k, j | 0 <= k < |linhas| && 0 <= j < |cs| :: cs[j].naoNulo && cs[j].nome in linhas[k] ==> linhas[k][cs[j].nome] != Null
  }

  /** What a script run returns, and the tables it leaves behind. */
  datatype Execucao = Execucao(ok: bool, tabelas: map<string, Tabela>)

  /** The value a row holds for a column, or `padrao` when the table has no
      such column (dict.get). */
  function Obter(l: Linha, nome: string, padrao: Valor): (v: Valor)
    ensures nome in l ==> v == l[nome]
    ensures nome !in l ==> v == padrao
  {
    if nome in l then l[nome] else padrao
  }

  /** A row as `SELECT c1, ..., cn` yields it. */
  function Projecao(l: Linha, colunas: seq<string>): (r: Linha)
    ensures r.Keys == set n | n in colunas
    ensures forall n | n in colunas && n in l :: r[n] == l[n]
  {
    map n | n in colunas :: Obter(l, n, Null)
  }

  function Projecoes(ls: seq<Linha>, colunas: seq<string>): (rs: seq<Linha>)
    ensures |rs| == |ls| && forall k | 0 <= k < |ls| :: rs[k] == Projecao(ls[k], colunas)
  {
    seq(|ls|, k requires 0 <= k < |ls| => Projecao(ls[k], colunas))
  }

  class Database {
    var tabelas: map<string, Tabela>

    constructor (tabelas: map<string, Tabela>)
      ensures this.tabelas == tabelas
    {
      this.tabelas := tabelas;
    }

    /** `SELECT name FROM sqlite_master WHERE type='table' AND name=?` finds it. */
    predicate Existe(nome: string)
      reads this
    {
      nome in tabelas
    }

    /** CREATE TABLE: refused when the name is taken. */
    method CriarTabela(nome: string, colunas: seq<Coluna>) returns (ok: bool)
      modifies this
      ensures ok <==> nome !in old(tabelas)
      ensures tabelas == if ok then old(tabelas)[nome := Tabela(colunas, [])] else old(tabelas)
    {
      ok := nome !in tabelas;
      if ok {
        tabelas := tabelas[nome := Tabela(colunas, [])];
      }
    }

    /** CREATE TABLE IF NOT EXISTS. */
    method CriarTabelaSeNaoExiste(nome: string, colunas: seq<Coluna>)
      modifies this
      ensures tabelas == if nome in old(tabelas) then old(tabelas) else old(tabelas)[nome := Tabela(colunas, [])]
    {
      if nome !in tabelas {
        tabelas := tabelas[nome := Tabela(colunas, [])];
      }
    }

    /** ALTER TABLE ADD COLUMN: refused for a missing table, a duplicate
        column name or a non-constant default. */
    method AdicionarColuna(nome: string, c: Coluna) returns (ok: bool)
      modifies this
      ensures ok <==> nome in old(tabelas) && !TemColuna(old(tabelas)[nome], c.nome) && !c.padrao.DataAtual?
      ensures tabelas == if ok then old(tabelas)[nome := ComColuna(old(tabelas)[nome], c)] else old(tabelas)
    {
      ok := nome in tabelas && !TemColuna(tabelas[nome], c.nome) && !c.padrao.DataAtual?;
      if ok {
        tabelas := tabelas[nome := ComColuna(tabelas[nome], c)];
      }
    }

    /** ALTER TABLE de RENAME TO para. */
    method Renomear(de: string, para: string) returns (ok: bool)
      modifies this
      ensures ok <==> de in old(tabelas) && para !in old(tabelas)
      ensures tabelas == if ok then (old(tabelas) - {de})[para := old(tabelas)[de]] else old(tabelas)
    {
      ok := de in tabelas && para !in tabelas;
      if ok {
        tabelas := (tabelas - {de})[para := tabelas[de]];
      }
    }

    /** DROP TABLE. */
    method Remover(nome: string) returns (ok: bool)
      modifies this
      ensures ok <==> nome in old(tabelas)
      ensures tabelas == if ok then old(tabelas) - {nome} else old(tabelas)
    {
      ok := nome in tabelas;
      if ok {
        tabelas := tabelas - {nome};
      }
    }

    /** UPDATE nome SET ... WHERE ..., where `f` says what the statement
        does to one row: refused when the table, or one of the columns the
        statement names, is missing. */
    method Atualizar(nome: string, usadas: seq<string>, f: Linha -> Linha) returns (ok: bool)
      modifies this
      ensures ok <==> nome in old(tabelas) && forall u | u in usadas :: TemColuna(old(tabelas)[nome], u)
      ensures tabelas == if ok then old(tabelas)[nome := ComLinhas(old(tabelas)[nome], f)] else old(tabelas)
    {
      ok := nome in tabelas && forall u | u in usadas :: TemColuna(tabelas[nome], u);
      if ok {
        tabelas := tabelas[nome := ComLinhas(tabelas[nome], f)];
      }
    }

    /** INSERT INTO destino (colunas) SELECT colunas FROM origem: refused
        when a table or a named column is missing, or when a NOT NULL
        column would receive NULL; otherwise every row of origem is copied. */
    method InserirSelecao(destino: string, origem: string, colunas: seq<string>) returns (ok: bool)
      modifies this
      ensures ok <==> && destino in old(tabelas) && origem in old(tabelas)
                      && (forall n | n in colunas :: TemColuna(old(tabelas)[destino], n) && TemColuna(old(tabelas)[origem], n))
                      && RespeitaNaoNulo(old(tabelas)[destino].colunas, Projecoes(old(tabelas)[origem].linhas, colunas))
      ensures tabelas == if ok then old(tabelas)[destino := old(tabelas)[destino].(linhas := old(tabelas)[destino].linhas + Projecoes(old(tabelas)[origem].linhas, colunas))]
                         else old(tabelas)
    {
      ok := && destino in tabelas && origem in tabelas
            && (forall n | n in colunas :: TemColuna(tabelas[destino], n) && TemColuna(tabelas[origem], n))
            && RespeitaNaoNulo(tabelas[destino].colunas, Projecoes(tabelas[origem].linhas, colunas));
      if ok {
        tabelas := tabelas[destino := tabelas[destino].(linhas := tabelas[destino].linhas + Projecoes(tabelas[origem].linhas, colunas))];
      }
    }

    /** ROLLBACK of the open transaction: the tables as they were at its BEGIN. */
    method Reverter(estado: map<string, Tabela>)
      modifies this
      ensures tabelas == estado
    {
      tabelas := estado;
    }

    /** One INSERT statement writing full rows: all of them, or none when a
        NOT NULL column would receive NULL or the table is missing. */
    method Inserir(nome: string, linhas: seq<Linha>) returns (ok: bool)
      modifies this
      ensures ok <==> nome in old(tabelas) && RespeitaNaoNulo(old(tabelas)[nome].colunas, linhas)
      ensures tabelas == if ok then old(tabelas)[nome := old(tabelas)[nome].(linhas := old(tabelas)[nome].linhas + linhas)] else old(tabelas)
    {
      ok := nome in tabelas && RespeitaNaoNulo(tabelas[nome].colunas, linhas);
      if ok {
        tabelas := tabelas[nome := tabelas[nome].(linhas := tabelas[nome].linhas + linhas)];
      }
    }
  }
}
