/**
 * scripts/roolback_produtos.py: undoes the product migration by rebuilding
 * produtos with the thirteen columns it had before, copying those columns
 * of every row and dropping the old table.
 *
 * The RENAME and the CREATE TABLE take effect at once; the INSERT opens
 * the transaction that the DROP joins and the final commit ends. A failing
 * copy therefore leaves the old data in produtos_antiga and an empty
 * produtos behind.
 */
module RoolbackProdutos {
  import opened Sqlite
  import MigrateProdutos

  /** The table created at lines 13-28. */
  const MANTIDAS: seq<Coluna> := [
    Coluna("id", false, SemPadrao),
    Coluna("codigo_barras", false, SemPadrao),
    Coluna("nome", true, SemPadrao),
    Coluna("descricao", false, SemPadrao),
    Coluna("quantidade", false, Constante(Int(0))),
    Coluna("estoque_minimo", false, Constante(Int(0))),
    Coluna("preco_compra", false, SemPadrao),
    Coluna("margem_lucro", false, Constante(Real(30.0))),
    Coluna("preco_venda", false, SemPadrao),
    Coluna("data_validade", false, SemPadrao),
    Coluna("localizacao", false, SemPadrao),
    Coluna("fornecedor_id", false, SemPadrao),
    Coluna("data_cadastro", false, DataAtual)
  ]

  /** The column list of the INSERT ... SELECT of lines 32-43. */
  const COPIADAS: seq<string> := [
    "id", "codigo_barras", "nome", "descricao", "quantidade",
    "estoque_minimo", "preco_compra", "margem_lucro", "preco_venda",
    "data_validade", "localizacao", "fornecedor_id", "data_cadastro"
  ]

  /** The columns the migration added and the rollback drops. */
  const REMOVIDAS: seq<string> := ["unidades_por_embalagem", "controle_fracionado", "unidades_restantes"]

  lemma ColunasMantidas()
    ensures Nomes(MANTIDAS) == COPIADAS
    ensures forall j | 0 <= j < |MANTIDAS| :: MANTIDAS[j].naoNulo <==> j == 2
    ensures forall n | n in REMOVIDAS :: n !in COPIADAS
  {
  }

  /** desfazer_migracao: what it answers and the tables it leaves. */
  function Desfazer(ts: map<string, Tabela>): Execucao {
    if "produtos" !in ts || "produtos_antiga" in ts then Execucao(false, ts)
    else
      var antiga := ts["produtos"];
      var criadas := (ts - {"produtos"})["produtos_antiga" := antiga]["produtos" := Tabela(MANTIDAS, [])];
      var copia := Projecoes(antiga.linhas, COPIADAS);
      if (exists n | n in COPIADAS :: !TemColuna(antiga, n)) || !RespeitaNaoNulo(MANTIDAS, copia) then
        Execucao(false, criadas)
      else
        Execucao(true, criadas["produtos" := Tabela(MANTIDAS, copia)] - {"produtos_antiga"})
  }

  /** desfazer_migracao, statement by statement. */
  method DesfazerMigracao(db: Database) returns (ok: bool)
    modifies db
    ensures Execucao(ok, db.tabelas) == Desfazer(old(db.tabelas))
  {
    ok := db.Renomear("produtos", "produtos_antiga");
    if !ok {
      return;
    }
    var criada := db.CriarTabela("produtos", MANTIDAS);
    assert criada;
    ColunasMantidas();
    ghost var antiga := db.tabelas["produtos_antiga"];
    ghost var copia := Projecoes(antiga.linhas, COPIADAS);
    ok := db.InserirSelecao("produtos", "produtos_antiga", COPIADAS);
    if !ok {
      return;
    }
    assert [] + copia == copia;
    var removida := db.Remover("produtos_antiga");
    assert removida;
  }

  /** The rollback succeeds exactly when produtos exists, produtos_antiga
      does not, produtos has all thirteen copied columns and no row has a
      NULL nome. */
  lemma DesfazerSucesso(ts: map<string, Tabela>)
    ensures Desfazer(ts).ok <==>
      && "produtos" in ts && "produtos_antiga" !in ts
      && (forall n | n in COPIADAS :: TemColuna(ts["produtos"], n))
      && (forall k | 0 <= k < |ts["produtos"].linhas| :: Obter(ts["produtos"].linhas[k], "nome", Null) != Null)
  {
    if "produtos" in ts && "produtos_antiga" !in ts {
      ColunasMantidas();
      var ls := ts["produtos"].linhas;
      var copia := Projecoes(ls, COPIADAS);
      if RespeitaNaoNulo(MANTIDAS, copia) {
        forall k | 0 <= k < |ls|
          ensures Obter(ls[k], "nome", Null) != Null
        {
          assert MANTIDAS[2].naoNulo && MANTIDAS[2].nome in copia[k];
        }
      } else {
        var k, j :| 0 <= k < |copia| && 0 <= j < |MANTIDAS| && MANTIDAS[j].naoNulo && MANTIDAS[j].nome in copia[k]
          && copia[k][MANTIDAS[j].nome] == Null;
        assert j == 2;
        assert Obter(ls[k], "nome", Null) == Null;
      }
    }
  }

  /** After a rollback that succeeds: produtos has exactly the thirteen
      columns, one row per old row in the same order holding the old values
      of those columns and nothing else (the three migration columns are
      gone), produtos_antiga does not remain, and no other table changes. */
  lemma DesfazerResultado(ts: map<string, Tabela>)
    requires Desfazer(ts).ok
    ensures var t, r := ts["produtos"], Desfazer(ts).tabelas;
      && r.Keys == ts.Keys && "produtos_antiga" !in r
      && (forall nome | nome in ts && nome != "produtos" :: r[nome] == ts[nome])
      && r["produtos"].colunas == MANTIDAS && Nomes(r["produtos"].colunas) == COPIADAS
      && |r["produtos"].linhas| == |t.linhas|
      && forall k | 0 <= k < |t.linhas| ::
           && r["produtos"].linhas[k].Keys == set n | n in COPIADAS
           && (forall n | n in REMOVIDAS :: n !in r["produtos"].linhas[k])
           && (forall n | n in COPIADAS && n in t.linhas[k] :: r["produtos"].linhas[k][n] == t.linhas[k][n])
  {
    ColunasMantidas();
  }

  /** A rollback that fails at the copy leaves produtos_antiga behind, so
      every later run fails at its first statement and changes nothing. */
  lemma FalhaNaCopiaPersiste(ts: map<string, Tabela>)
    requires "produtos" in ts && "produtos_antiga" !in ts && !Desfazer(ts).ok
    ensures var r := Desfazer(ts).tabelas;
      && r["produtos_antiga"] == ts["produtos"] && r["produtos"] == Tabela(MANTIDAS, [])
      && Desfazer(r) == Execucao(false, r)
  {
  }

  /** A produtos table as the rollback leaves it: exactly the thirteen
      columns, every row holding exactly those, none with a NULL nome. */
  ghost predicate ComoDesfeita(t: Tabela) {
    && t.colunas == MANTIDAS
    && forall k | 0 <= k < |t.linhas| :: t.linhas[k].Keys == (set n | n in COPIADAS) && t.linhas[k]["nome"] != Null
  }

  /** Migrating such a table succeeds, changes no other table and keeps
      every one of its columns. */
  lemma MigracaoMantemColunas(ts: map<string, Tabela>)
    requires "produtos" in ts && ComoDesfeita(ts["produtos"])
    ensures MigrateProdutos.Migracao(ts).ok
    ensures var n := MigrateProdutos.Migracao(ts).tabelas["produtos"];
      && MigrateProdutos.Migracao(ts).tabelas == ts["produtos" := n]
      && (forall c | c in COPIADAS :: TemColuna(n, c))
  {
    ColunasMantidas();
    var t := ts["produtos"];
    assert Nomes(t.colunas)[7] == MigrateProdutos.MARGEM;
    MigrateProdutos.MigracaoSucesso(ts);
    MigrateProdutos.MigracaoColunas(ts);
    var n := MigrateProdutos.Migracao(ts).tabelas["produtos"];
    var f := MigrateProdutos.Faltantes(0, Nomes(t.colunas));
    NomesConcat(MANTIDAS, f);
    assert Nomes(n.colunas) == COPIADAS + Nomes(f);
    assert forall x | x in COPIADAS :: x in COPIADAS + Nomes(f);
  }

  /** Migrating such a table keeps every one of its columns and, in every
      row, every one of its values. */
  lemma MigracaoMantem(ts: map<string, Tabela>)
    requires "produtos" in ts && ComoDesfeita(ts["produtos"])
    ensures MigrateProdutos.Migracao(ts).ok
    ensures var t, n := ts["produtos"], MigrateProdutos.Migracao(ts).tabelas["produtos"];
      && MigrateProdutos.Migracao(ts).tabelas == ts["produtos" := n]
      && (forall c | c in COPIADAS :: TemColuna(n, c))
      && |n.linhas| == |t.linhas|
      && forall k | 0 <= k < |t.linhas| :: Projecao(n.linhas[k], COPIADAS) == t.linhas[k]
  {
    MigracaoMantemColunas(ts);
    var t := ts["produtos"];
    var n := MigrateProdutos.Migracao(ts).tabelas["produtos"];
    MigrateProdutos.PassosContagem(t, 0, Nomes(t.colunas));
    forall k | 0 <= k < |t.linhas|
      ensures Projecao(n.linhas[k], COPIADAS) == t.linhas[k]
    {
      MigracaoLinhaMantida(ts, k);
    }
  }

  lemma MigracaoLinhaMantida(ts: map<string, Tabela>, k: nat)
    requires "produtos" in ts && ComoDesfeita(ts["produtos"])
    requires MigrateProdutos.Migracao(ts).ok && k < |ts["produtos"].linhas|
    ensures var r := MigrateProdutos.Migracao(ts).tabelas;
      && "produtos" in r && k < |r["produtos"].linhas|
      && Projecao(r["produtos"].linhas[k], COPIADAS) == ts["produtos"].linhas[k]
  {
    ColunasMantidas();
    var t := ts["produtos"];
    var n := MigrateProdutos.Migracao(ts).tabelas["produtos"];
    MigrateProdutos.MigracaoLinha(ts, k);
    forall c | c in COPIADAS
      ensures c in n.linhas[k] && n.linhas[k][c] == t.linhas[k][c]
    {
      assert c in Nomes(t.colunas);
    }
  }

  /** A rollback of tables whose produtos holds all thirteen columns and
      projects onto the rows of t, a table as the rollback leaves it,
      succeeds and puts t back in place of produtos. */
  lemma DesfazerRestaura(ts: map<string, Tabela>, t: Tabela)
    requires "produtos" in ts && "produtos_antiga" !in ts && ComoDesfeita(t)
    requires forall c | c in COPIADAS :: TemColuna(ts["produtos"], c)
    requires Projecoes(ts["produtos"].linhas, COPIADAS) == t.linhas
    ensures Desfazer(ts) == Execucao(true, ts["produtos" := t])
  {
    var n := ts["produtos"];
    var copia := Projecoes(n.linhas, COPIADAS);
    forall k | 0 <= k < |n.linhas|
      ensures Obter(n.linhas[k], "nome", Null) != Null
    {
      assert copia[k] == t.linhas[k];
      assert copia[k]["nome"] == Obter(n.linhas[k], "nome", Null);
    }
    DesfazerSucesso(ts);
    var r := Desfazer(ts).tabelas;
    assert r == (ts - {"produtos"})["produtos_antiga" := n]["produtos" := Tabela(MANTIDAS, copia)] - {"produtos_antiga"};
    assert r == ts["produtos" := t];
  }

  /** The rollback undoes the product migration: a produtos table as the
      rollback leaves it comes back unchanged from a migration followed by
      a rollback. */
  lemma MigracaoDesfeita(ts: map<string, Tabela>)
    requires "produtos" in ts && "produtos_antiga" !in ts && ComoDesfeita(ts["produtos"])
    ensures MigrateProdutos.Migracao(ts).ok
    ensures Desfazer(MigrateProdutos.Migracao(ts).tabelas) == Execucao(true, ts)
  {
    MigracaoMantem(ts);
    var ts2 := MigrateProdutos.Migracao(ts).tabelas;
    assert Projecoes(ts2["produtos"].linhas, COPIADAS) == ts["produtos"].linhas;
    DesfazerRestaura(ts2, ts["produtos"]);
    assert ts2["produtos" := ts["produtos"]] == ts;
  }
}
