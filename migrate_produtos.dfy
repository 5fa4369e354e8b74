/**
 * scripts/migrate_produtos.py: the produtos table gains six columns, each
 * added only when the table does not have it yet; the run that adds
 * margem_lucro also fills it from the two prices.
 *
 * Python's sqlite3 opens a transaction only before a DML statement, so an
 * ALTER TABLE that runs before the UPDATE of margem_lucro takes effect at
 * once, and one that runs after it joins the UPDATE's transaction, which
 * the script's commit ends. The UPDATE is the one statement that can be
 * refused (when a price column is missing); the run then answers false and
 * the columns added before it stay.
 */
module MigrateProdutos {
  import opened Common
  import opened Sqlite

  const MARGEM: string := "margem_lucro"
  const MARGEM_PADRAO: real := 30.0

  /** The six columns of lines 68-96, in the order they are tried. */
  const NOVAS: seq<Coluna> := [
    Coluna("codigo_barras", false, SemPadrao),
    Coluna("estoque_minimo", false, Constante(Int(0))),
    Coluna(MARGEM, false, Constante(Real(MARGEM_PADRAO))),
    Coluna("unidades_por_embalagem", false, Constante(Int(1))),
    Coluna("controle_fracionado", false, Constante(Int(0))),
    Coluna("unidades_restantes", false, Constante(Int(0)))
  ]

  /** The columns the UPDATE of lines 80-84 names. */
  const USADAS_MARGEM: seq<string> := [MARGEM, "preco_venda", "preco_compra"]

  /** The table criar_tabela_produtos creates (lines 41-58). */
  const COLUNAS: seq<Coluna> := [
    Coluna("id", false, SemPadrao),
    Coluna("codigo_barras", false, SemPadrao),
    Coluna("nome", true, SemPadrao),
    Coluna("descricao", false, SemPadrao),
    Coluna("quantidade", false, Constante(Int(0))),
    Coluna("estoque_minimo", false, Constante(Int(0))),
    Coluna("unidades_por_embalagem", false, Constante(Int(1))),
    Coluna("controle_fracionado", false, Constante(Int(0))),
    Coluna("unidades_restantes", false, Constante(Int(0))),
    Coluna("preco_compra", false, SemPadrao),
    Coluna(MARGEM, false, Constante(Real(MARGEM_PADRAO))),
    Coluna("preco_venda", false, SemPadrao),
    Coluna("data_validade", false, SemPadrao),
    Coluna("localizacao", false, SemPadrao),
    Coluna("fornecedor_id", false, SemPadrao),
    Coluna("data_cadastro", false, DataAtual)
  ]

  /** The WHERE clause of the UPDATE: both prices are positive. */
  predicate PrecosPositivos(l: Linha) {
    && "preco_compra" in l && "preco_venda" in l
    && l["preco_compra"].Real? && l["preco_venda"].Real?
    && l["preco_compra"].x > 0.0 && l["preco_venda"].x > 0.0
  }

  /** The SET clause: the sale price's markup over the purchase price, in percent. */
  function MargemDe(l: Linha): (m: real)
    requires PrecosPositivos(l)
    ensures l["preco_compra"].x * (1.0 + m / 100.0) == l["preco_venda"].x
    ensures m > 0.0 <==> l["preco_venda"].x > l["preco_compra"].x
  {
    (l["preco_venda"].x / l["preco_compra"].x - 1.0) * 100.0
  }

  /** One row under the UPDATE of lines 80-84. */
  function MargemCalculada(l: Linha): Linha {
    if PrecosPositivos(l) then l[MARGEM := Real(MargemDe(l))] else l
  }

  /** The margem_lucro a row ends with in the run that adds the column: the
      computed markup, or the column's default. */
  function MargemNova(l: Linha): Valor {
    if PrecosPositivos(l) then Real(MargemDe(l)) else Real(MARGEM_PADRAO)
  }

  /** Position in NOVAS of the one block that also runs an UPDATE. */
  const BLOCO_MARGEM: nat := 2

  /** Block i, `if "<coluna>" not in colunas_existentes:`. `r` is whether
      the run is still going and the table so far; `existentes` is the
      column list read at line 64. */
  function Passo(r: (bool, Tabela), i: nat, existentes: seq<string>): (bool, Tabela)
    requires i < |NOVAS|
  {
    var c := NOVAS[i];
    if !r.0 || c.nome in existentes then r
    else PassoNovo(r.1, i)
  }

  function PassoNovo(t0: Tabela, i: nat): (bool, Tabela)
    requires i < |NOVAS|
  {
    var c := NOVAS[i];
    if TemColuna(t0, c.nome) || c.padrao.DataAtual? then (false, t0)
    else
      var t := ComColuna(t0, c);
      if i != BLOCO_MARGEM then (true, t)
      else if forall u | u in USADAS_MARGEM :: TemColuna(t, u) then (true, ComLinhas(t, MargemCalculada))
      else (false, t)
  }

  /** The blocks from the i-th on, run one after another. */
  function Passos(r: (bool, Tabela), i: nat, existentes: seq<string>): (bool, Tabela)
    requires i <= |NOVAS|
    decreases |NOVAS| - i
  {
    if i == |NOVAS| then r else Passos(Passo(r, i, existentes), i + 1, existentes)
  }

  /** migrar_tabela_produtos: the six blocks, in the order of lines 68-96,
      against the column list read at line 64. */
  function MigracaoTabela(t: Tabela): (bool, Tabela) {
    Passos((true, t), 0, Nomes(t.colunas))
  }

  /** The columns from the i-th on that `existentes` lacks, in order. */
  function Faltantes(i: nat, existentes: seq<string>): seq<Coluna>
    requires i <= |NOVAS|
    decreases |NOVAS| - i
  {
    if i == |NOVAS| then []
    else (if NOVAS[i].nome in existentes then [] else [NOVAS[i]]) + Faltantes(i + 1, existentes)
  }

  /** Faltantes holds exactly the columns from the i-th on whose names are
      not among `existentes`. */
  lemma {:induction false} FaltantesMembros(i: nat, existentes: seq<string>)
    requires i <= |NOVAS|
    ensures forall c :: c in Faltantes(i, existentes) <==> c in NOVAS[i..] && c.nome !in existentes
    decreases |NOVAS| - i
  {
    if i < |NOVAS| {
      FaltantesMembros(i + 1, existentes);
      assert NOVAS[i..] == [NOVAS[i]] + NOVAS[i + 1..];
    }
  }

  /** migrar_banco_dados: a missing table is created with the full schema,
      an existing one gains its missing columns. */
  function Migracao(ts: map<string, Tabela>): Execucao {
    if "produtos" !in ts then Execucao(true, ts["produtos" := Tabela(COLUNAS, [])])
    else
      var t := ts["produtos"];
      var r := MigracaoTabela(t);
      Execucao(r.0, ts["produtos" := r.1])
  }

  /** Once a statement has raised, no later block runs. */
  lemma {:induction false} PassosAposFalha(t: Tabela, i: nat, existentes: seq<string>)
    requires i <= |NOVAS|
    ensures Passos((false, t), i, existentes) == (false, t)
    decreases |NOVAS| - i
  {
    if i < |NOVAS| {
      PassosAposFalha(t, i + 1, existentes);
    }
  }

  /** A block other than margem_lucro's: ALTER TABLE ADD COLUMN when the
      column was missing at line 64. */
  method AdicionarSeFaltar(db: Database, i: nat, existentes: seq<string>) returns (ok: bool)
    requires "produtos" in db.tabelas && i < |NOVAS| && i != BLOCO_MARGEM
    modifies db
    ensures "produtos" in db.tabelas && db.tabelas == old(db.tabelas)["produtos" := db.tabelas["produtos"]]
    ensures (ok, db.tabelas["produtos"]) == Passo((true, old(db.tabelas)["produtos"]), i, existentes)
  {
    ok := true;
    if NOVAS[i].nome !in existentes {
      ok := db.AdicionarColuna("produtos", NOVAS[i]);
    }
  }

  /** The margem_lucro block: the column, then the UPDATE that fills it. */
  method AdicionarMargem(db: Database, existentes: seq<string>) returns (ok: bool)
    requires "produtos" in db.tabelas
    modifies db
    ensures "produtos" in db.tabelas && db.tabelas == old(db.tabelas)["produtos" := db.tabelas["produtos"]]
    ensures (ok, db.tabelas["produtos"]) == Passo((true, old(db.tabelas)["produtos"]), BLOCO_MARGEM, existentes)
  {
    ok := true;
    if MARGEM !in existentes {
      ok := db.AdicionarColuna("produtos", NOVAS[BLOCO_MARGEM]);
      if ok {
        ok := db.Atualizar("produtos", USADAS_MARGEM, MargemCalculada);
      }
    }
  }

  /** Block i: the margem_lucro block or a plain one; what it leaves for
      the later blocks to do. */
  method Bloco(db: Database, i: nat, existentes: seq<string>) returns (ok: bool)
    requires "produtos" in db.tabelas && i < |NOVAS|
    modifies db
    ensures "produtos" in db.tabelas && db.tabelas == old(db.tabelas)["produtos" := db.tabelas["produtos"]]
    ensures ok ==> Passos((true, old(db.tabelas)["produtos"]), i, existentes) == Passos((true, db.tabelas["produtos"]), i + 1, existentes)
    ensures !ok ==> Passos((true, old(db.tabelas)["produtos"]), i, existentes) == (false, db.tabelas["produtos"])
  {
    ghost var antes := db.tabelas["produtos"];
    if i == BLOCO_MARGEM {
      ok := AdicionarMargem(db, existentes);
    } else {
      ok := AdicionarSeFaltar(db, i, existentes);
    }
    assert (ok, db.tabelas["produtos"]) == Passo((true, antes), i, existentes);
    if !ok {
      PassosAposFalha(db.tabelas["produtos"], i + 1, existentes);
    }
  }

  /** migrar_tabela_produtos. Its six `if` blocks share one shape, so they
      run here as one pass over NOVAS, which lists them in the source's
      order; the first statement that raises ends the run. */
  method MigrarTabelaProdutos(db: Database) returns (ok: bool)
    requires "produtos" in db.tabelas
    modifies db
    ensures var r := MigracaoTabela(old(db.tabelas)["produtos"]);
      ok == r.0 && db.tabelas == old(db.tabelas)["produtos" := r.1]
  {
    var existentes := Nomes(db.tabelas["produtos"].colunas);
    ghost var alvo := MigracaoTabela(db.tabelas["produtos"]);
    ok := true;
    for i := 0 to |NOVAS|
      invariant "produtos" in db.tabelas && db.tabelas == old(db.tabelas)["produtos" := db.tabelas["produtos"]]
      invariant alvo == Passos((true, db.tabelas["produtos"]), i, existentes)
    {
      ok := Bloco(db, i, existentes);
      if !ok {
        return;
      }
    }
  }

  /** migrar_banco_dados: true unless a statement raises. */
  method MigrarBancoDados(db: Database) returns (ok: bool)
    modifies db
    ensures Execucao(ok, db.tabelas) == Migracao(old(db.tabelas))
  {
    if !db.Existe("produtos") {
      db.CriarTabelaSeNaoExiste("produtos", COLUNAS);
      return true;
    }
    ok := MigrarTabelaProdutos(db);
  }

  /** The six columns have distinct names, constant defaults, none of them
      is a price, and margem_lucro is the third. */
  lemma FatosNovas()
    ensures forall j, k | 0 <= j < k < |NOVAS| :: NOVAS[j].nome != NOVAS[k].nome
    ensures forall j | 0 <= j < |NOVAS| ::
      !NOVAS[j].padrao.DataAtual? && NOVAS[j].nome != "preco_compra" && NOVAS[j].nome != "preco_venda"
    ensures NOVAS[BLOCO_MARGEM].nome == MARGEM
    ensures forall j | 0 <= j < |NOVAS| && j != BLOCO_MARGEM :: NOVAS[j].nome != MARGEM
  {
  }

  /** The columns the blocks from i on would add are not in `t` yet. */
  ghost predicate Livres(t: Tabela, i: nat, existentes: seq<string>)
    requires i <= |NOVAS|
  {
    forall j | i <= j < |NOVAS| && NOVAS[j].nome !in existentes :: !TemColuna(t, NOVAS[j].nome)
  }

  /** `n` is not one of the columns the blocks from i on add. */
  predicate NaoAcrescentada(n: string, i: nat, existentes: seq<string>)
    requires i <= |NOVAS|
  {
    forall j | i <= j < |NOVAS| && NOVAS[j].nome !in existentes :: NOVAS[j].nome != n
  }

  /** Adding a column other than a price leaves the margin a row would get
      unchanged. */
  lemma MargemNovaIgnora(l: Linha, n: string, v: Valor)
    requires n != "preco_compra" && n != "preco_venda"
    ensures MargemNova(l[n := v]) == MargemNova(l)
  {
    assert PrecosPositivos(l[n := v]) == PrecosPositivos(l);
  }

  /** Block i applied to a table where its column is free. */
  lemma PassoLivre(t: Tabela, i: nat, existentes: seq<string>)
    requires i < |NOVAS| && Livres(t, i, existentes)
    ensures var p := Passo((true, t), i, existentes);
      && |p.1.linhas| == |t.linhas|
      && (NOVAS[i].nome in existentes ==> p == (true, t))
      && (NOVAS[i].nome !in existentes && p.0 ==> p.1.colunas == t.colunas + [NOVAS[i]] && Livres(p.1, i + 1, existentes))
      && (!p.0 <==> i == BLOCO_MARGEM && MARGEM !in existentes && !(TemColuna(t, "preco_compra") && TemColuna(t, "preco_venda")))
      && (TemColuna(p.1, "preco_compra") <==> TemColuna(t, "preco_compra"))
      && (TemColuna(p.1, "preco_venda") <==> TemColuna(t, "preco_venda"))
  {
    FatosNovas();
    var c := NOVAS[i];
    if c.nome !in existentes {
      var t1 := ComColuna(t, c);
      NomesComColuna(t, c);
      assert TemColuna(t1, "preco_compra") <==> TemColuna(t, "preco_compra");
      assert TemColuna(t1, "preco_venda") <==> TemColuna(t, "preco_venda");
      assert TemColuna(t1, MARGEM) <== i == BLOCO_MARGEM;
      forall j | i + 1 <= j < |NOVAS| && NOVAS[j].nome !in existentes
        ensures !TemColuna(t1, NOVAS[j].nome)
      {
        assert NOVAS[j].nome != c.nome;
      }
    }
  }

  /** A run keeps the number of rows. */
  lemma {:induction false} PassosContagem(t: Tabela, i: nat, existentes: seq<string>)
    requires i <= |NOVAS|
    ensures |Passos((true, t), i, existentes).1.linhas| == |t.linhas|
    decreases |NOVAS| - i
  {
    if i < |NOVAS| {
      var p := Passo((true, t), i, existentes);
      if p.0 {
        PassosContagem(p.1, i + 1, existentes);
      } else {
        PassosAposFalha(p.1, i + 1, existentes);
      }
    }
  }

  /** Only the margem_lucro block can fail, when it runs and a price column
      is missing. */
  lemma {:induction false} PassosSucesso(t: Tabela, i: nat, existentes: seq<string>)
    requires i <= |NOVAS| && Livres(t, i, existentes)
    ensures !Passos((true, t), i, existentes).0 <==>
      i <= BLOCO_MARGEM && MARGEM !in existentes && !(TemColuna(t, "preco_compra") && TemColuna(t, "preco_venda"))
    decreases |NOVAS| - i
  {
    FatosNovas();
    if i < |NOVAS| {
      var p := Passo((true, t), i, existentes);
      PassoLivre(t, i, existentes);
      if p.0 {
        PassosSucesso(p.1, i + 1, existentes);
      } else {
        PassosAposFalha(p.1, i + 1, existentes);
      }
    }
  }

  /** A run is still going after block i only if block i succeeded, and
      then it goes on from what block i left. */
  lemma PassosPasso(t: Tabela, i: nat, existentes: seq<string>)
    requires i < |NOVAS|
    ensures var p := Passo((true, t), i, existentes);
      && (Passos((true, t), i, existentes).0 ==> p.0)
      && (p.0 ==> Passos((true, t), i, existentes) == Passos((true, p.1), i + 1, existentes))
  {
    var p := Passo((true, t), i, existentes);
    if !p.0 {
      PassosAposFalha(p.1, i + 1, existentes);
    }
  }

  /** Faltantes, one block at a time. */
  lemma FaltantesPasso(i: nat, existentes: seq<string>)
    requires i < |NOVAS|
    ensures Faltantes(i, existentes) == (if NOVAS[i].nome in existentes then [] else [NOVAS[i]]) + Faltantes(i + 1, existentes)
  {
  }

  /** Block i, when it succeeds, appends its column exactly when the column
      was missing at line 64. */
  lemma PassoColunas(t: Tabela, i: nat, existentes: seq<string>)
    requires i < |NOVAS|
    ensures var p := Passo((true, t), i, existentes);
      p.0 ==> p.1.colunas == t.colunas + (if NOVAS[i].nome in existentes then [] else [NOVAS[i]])
  {
    if NOVAS[i].nome in existentes {
      assert t.colunas + [] == t.colunas;
    }
  }

  /** A run that succeeds appends exactly the missing columns, in order. */
  lemma {:induction false} PassosColunas(t: Tabela, i: nat, existentes: seq<string>)
    requires i <= |NOVAS| && Passos((true, t), i, existentes).0
    ensures Passos((true, t), i, existentes).1.colunas == t.colunas + Faltantes(i, existentes)
    decreases |NOVAS| - i
  {
    if i < |NOVAS| {
      var p := Passo((true, t), i, existentes);
      PassosPasso(t, i, existentes);
      PassoColunas(t, i, existentes);
      PassosColunas(p.1, i + 1, existentes);
      FaltantesPasso(i, existentes);
      var novo := if NOVAS[i].nome in existentes then [] else [NOVAS[i]];
      ConcatAssoc(t.colunas, novo, Faltantes(i + 1, existentes));
    } else {
      assert t.colunas + [] == t.colunas;
    }
  }

  /** A value in a column the run does not add stays as it was. */
  lemma {:induction false} PassosPreserva(t: Tabela, i: nat, existentes: seq<string>, k: nat, n: string)
    requires i <= |NOVAS| && k < |t.linhas| && n in t.linhas[k] && NaoAcrescentada(n, i, existentes)
    ensures var r := Passos((true, t), i, existentes);
      k < |r.1.linhas| && n in r.1.linhas[k] && r.1.linhas[k][n] == t.linhas[k][n]
    decreases |NOVAS| - i
  {
    FatosNovas();
    if i < |NOVAS| {
      var p := Passo((true, t), i, existentes);
      if p.0 {
        PassosPreserva(p.1, i + 1, existentes, k, n);
      } else {
        PassosAposFalha(p.1, i + 1, existentes);
      }
    }
  }

  /** A plain column the run adds holds its default in every row. */
  lemma {:induction false} PassosPadrao(t: Tabela, i: nat, existentes: seq<string>, k: nat, j: nat)
    requires i <= j < |NOVAS| && j != BLOCO_MARGEM && NOVAS[j].nome !in existentes
    requires Livres(t, i, existentes) && k < |t.linhas| && Passos((true, t), i, existentes).0
    ensures var r := Passos((true, t), i, existentes);
      k < |r.1.linhas| && NOVAS[j].nome in r.1.linhas[k] && r.1.linhas[k][NOVAS[j].nome] == ValorPadrao(NOVAS[j].padrao)
    decreases |NOVAS| - i
  {
    FatosNovas();
    var p := Passo((true, t), i, existentes);
    PassoLivre(t, i, existentes);
    if !p.0 {
      PassosAposFalha(p.1, i + 1, existentes);
    } else if i == j {
      PassosPreserva(p.1, i + 1, existentes, k, NOVAS[j].nome);
    } else {
      PassosPadrao(p.1, i + 1, existentes, k, j);
    }
  }

  /** In the run that adds margem_lucro, every row gets the markup of its
      positive prices, or the default 30.0. */
  lemma {:induction false} PassosMargem(t: Tabela, i: nat, existentes: seq<string>, k: nat)
    requires i <= BLOCO_MARGEM && MARGEM !in existentes
    requires Livres(t, i, existentes) && k < |t.linhas| && Passos((true, t), i, existentes).0
    ensures var r := Passos((true, t), i, existentes);
      k < |r.1.linhas| && MARGEM in r.1.linhas[k] && r.1.linhas[k][MARGEM] == MargemNova(t.linhas[k])
    decreases |NOVAS| - i
  {
    FatosNovas();
    var p := Passo((true, t), i, existentes);
    PassoLivre(t, i, existentes);
    if !p.0 {
      PassosAposFalha(p.1, i + 1, existentes);
    } else if i == BLOCO_MARGEM {
      var c := NOVAS[i];
      MargemNovaIgnora(t.linhas[k], MARGEM, ValorPadrao(c.padrao));
      assert p.1.linhas[k][MARGEM] == MargemNova(t.linhas[k]);
      PassosPreserva(p.1, i + 1, existentes, k, MARGEM);
    } else {
      if NOVAS[i].nome !in existentes {
        MargemNovaIgnora(t.linhas[k], NOVAS[i].nome, ValorPadrao(NOVAS[i].padrao));
      }
      PassosMargem(p.1, i + 1, existentes, k);
    }
  }

  /** The run answers false only when it adds margem_lucro to a table
      lacking preco_compra or preco_venda (the UPDATE of lines 80-84 raises). */
  lemma MigracaoSucesso(ts: map<string, Tabela>)
    ensures Migracao(ts).ok <==>
      || "produtos" !in ts
      || MARGEM in Nomes(ts["produtos"].colunas)
      || (TemColuna(ts["produtos"], "preco_compra") && TemColuna(ts["produtos"], "preco_venda"))
  {
    if "produtos" in ts {
      PassosSucesso(ts["produtos"], 0, Nomes(ts["produtos"].colunas));
    }
  }

  /** After a run that succeeds on an existing table, its columns are the old
      ones followed by the missing ones among the six; so each of the six is
      added exactly when it was missing, and all six are then present. No
      other table changes. */
  lemma MigracaoColunas(ts: map<string, Tabela>)
    requires "produtos" in ts && Migracao(ts).ok
    ensures var t, n := ts["produtos"], Migracao(ts).tabelas["produtos"];
      && Migracao(ts).tabelas == ts["produtos" := n]
      && n.colunas == t.colunas + Faltantes(0, Nomes(t.colunas))
      && (forall c | c in NOVAS :: c in Faltantes(0, Nomes(t.colunas)) <==> !TemColuna(t, c.nome))
      && (forall c | c in NOVAS :: TemColuna(n, c.nome))
  {
    var t := ts["produtos"];
    var existentes := Nomes(t.colunas);
    var f := Faltantes(0, existentes);
    PassosColunas(t, 0, existentes);
    FaltantesMembros(0, existentes);
    var n := Migracao(ts).tabelas["produtos"];
    NomesConcat(t.colunas, f);
    forall c | c in NOVAS
      ensures TemColuna(n, c.nome)
    {
      if c in f {
        var j :| 0 <= j < |f| && f[j] == c;
        assert Nomes(f)[j] == c.nome;
      }
    }
  }

  /** Rows of a run that succeeds on an existing table: as many as before;
      every value in an old column unchanged (margem_lucro included, when it
      was already there); each plain new column at its default; and, in the
      run that adds margem_lucro, the markup of positive prices or 30.0. */
  lemma MigracaoLinha(ts: map<string, Tabela>, k: nat)
    requires "produtos" in ts && Migracao(ts).ok && k < |ts["produtos"].linhas|
    ensures var t, n := ts["produtos"], Migracao(ts).tabelas["produtos"];
      var antes := t.linhas[k];
      && |n.linhas| == |t.linhas|
      && (forall nome | nome in antes && TemColuna(t, nome) :: nome in n.linhas[k] && n.linhas[k][nome] == antes[nome])
      && (forall j | 0 <= j < |NOVAS| && j != BLOCO_MARGEM && !TemColuna(t, NOVAS[j].nome) ::
            NOVAS[j].nome in n.linhas[k] && n.linhas[k][NOVAS[j].nome] == ValorPadrao(NOVAS[j].padrao))
      && (!TemColuna(t, MARGEM) ==> MARGEM in n.linhas[k] && n.linhas[k][MARGEM] == MargemNova(antes))
  {
    var t := ts["produtos"];
    var existentes := Nomes(t.colunas);
    PassosContagem(t, 0, existentes);
    forall nome | nome in t.linhas[k] && TemColuna(t, nome)
      ensures var r := Passos((true, t), 0, existentes);
        nome in r.1.linhas[k] && r.1.linhas[k][nome] == t.linhas[k][nome]
    {
      PassosPreserva(t, 0, existentes, k, nome);
    }
    forall j | 0 <= j < |NOVAS| && j != BLOCO_MARGEM && !TemColuna(t, NOVAS[j].nome)
      ensures var r := Passos((true, t), 0, existentes);
        NOVAS[j].nome in r.1.linhas[k] && r.1.linhas[k][NOVAS[j].nome] == ValorPadrao(NOVAS[j].padrao)
    {
      PassosPadrao(t, 0, existentes, k, j);
    }
    if !TemColuna(t, MARGEM) {
      PassosMargem(t, 0, existentes, k);
    }
  }

  /** The blocks skip every column already present. */
  lemma {:induction false} PassosSemFaltantes(t: Tabela, i: nat, existentes: seq<string>)
    requires i <= |NOVAS| && forall j | i <= j < |NOVAS| :: NOVAS[j].nome in existentes
    ensures Passos((true, t), i, existentes) == (true, t)
    decreases |NOVAS| - i
  {
    if i < |NOVAS| {
      PassosSemFaltantes(t, i + 1, existentes);
    }
  }

  /** The table criar_tabela_produtos creates already has the six columns. */
  lemma CriadaTemNovas()
    ensures forall j | 0 <= j < |NOVAS| :: NOVAS[j].nome in Nomes(COLUNAS)
  {
    var ns := Nomes(COLUNAS);
    assert ns[1] == NOVAS[0].nome && ns[5] == NOVAS[1].nome && ns[10] == NOVAS[2].nome;
    assert ns[6] == NOVAS[3].nome && ns[7] == NOVAS[4].nome && ns[8] == NOVAS[5].nome;
  }

  /** Running the migration again after it succeeded adds nothing and
      changes nothing (margem_lucro is not recomputed). */
  lemma SegundaExecucao(ts: map<string, Tabela>)
    requires Migracao(ts).ok
    ensures Migracao(Migracao(ts).tabelas) == Execucao(true, Migracao(ts).tabelas)
  {
    var ts2 := Migracao(ts).tabelas;
    var n := ts2["produtos"];
    if "produtos" in ts {
      MigracaoColunas(ts);
      assert forall j | 0 <= j < |NOVAS| :: TemColuna(n, NOVAS[j].nome) by {
        forall j | 0 <= j < |NOVAS|
          ensures TemColuna(n, NOVAS[j].nome)
        {
          assert NOVAS[j] in NOVAS;
        }
      }
    } else {
      CriadaTemNovas();
    }
    PassosSemFaltantes(n, 0, Nomes(n.colunas));
    assert ts2["produtos" := n] == ts2;
  }
}
