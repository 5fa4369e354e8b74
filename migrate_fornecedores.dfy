/**
 * scripts/migrate_fornecedores.py: the supplier table loses `documento` and
 * gains `representante` and `frequencia_compra`. The rows are copied one
 * INSERT at a time into fornecedores_temp, which then replaces the table.
 *
 * Under Python's sqlite3 the CREATE TABLE of the temporary table commits at
 * once, while the INSERTs, the DROP and the RENAME share one transaction
 * that only the final commit makes permanent: a failing row rolls the
 * copies back but leaves the empty temporary table in place.
 */
module MigrateFornecedores {
  import opened Common
  import opened Sqlite

  const FREQUENCIA_PADRAO: string := "M\U{E9}dia"
  const PREFIXO_REPRESENTANTE: string := "Migrado de documento: "

  /** The new structure of fornecedores (and of fornecedores_temp). */
  const COLUNAS: seq<Coluna> := [
    Coluna("id", false, SemPadrao),
    Coluna("nome", true, SemPadrao),
    Coluna("representante", false, SemPadrao),
    Coluna("frequencia_compra", false, SemPadrao),
    Coluna("telefone", false, SemPadrao),
    Coluna("email", false, SemPadrao),
    Coluna("endereco", false, SemPadrao),
    Coluna("contato", false, SemPadrao),
    Coluna("data_cadastro", false, DataAtual)
  ]

  lemma NomesColunas()
    ensures Nomes(COLUNAS) == ["id", "nome", "representante", "frequencia_compra", "telefone", "email", "endereco", "contato", "data_cadastro"]
    ensures forall j | 0 <= j < |COLUNAS| :: COLUNAS[j].naoNulo <==> j == 1
  {
  }

  /** The names migrar_tabela_fornecedores reports as added. */
  const ADICIONADAS: seq<string> := ["representante", "frequencia_compra"]

  /** What the script may assume of an existing fornecedores table: it is
      well formed, its INTEGER PRIMARY KEY holds integers, and documento,
      a TEXT column, holds text or NULL. */
  ghost predicate Migravel(t: Tabela) {
    && BemFormada(t)
    && (forall k | 0 <= k < |t.linhas| && "id" in t.linhas[k] :: t.linhas[k]["id"].Int?)
    && (forall k | 0 <= k < |t.linhas| && "documento" in t.linhas[k] ::
          t.linhas[k]["documento"].Null? || t.linhas[k]["documento"].Text?)
  }

  /** Line 62: documento still there, or one of the new columns missing. */
  predicate PrecisaMigrar(nomes: seq<string>) {
    "documento" in nomes || "representante" !in nomes || "frequencia_compra" !in nomes
  }

  /** The copy of a row fails: a KeyError for a missing id or nome column,
      or the NOT NULL constraint on nome. */
  predicate FalhaLinha(l: Linha) {
    "id" !in l || "nome" !in l || l["nome"] == Null
  }

  /** The representante a row migrates with: the documento behind a fixed
      prefix when it holds non-empty text, empty otherwise. */
  function Representante(l: Linha): (r: string)
    ensures "documento" in l && l["documento"].Text? && l["documento"].s != [] ==> r == PREFIXO_REPRESENTANTE + l["documento"].s
    ensures !("documento" in l && l["documento"].Text? && l["documento"].s != []) ==> r == []
  {
    if "documento" in l && l["documento"].Text? && l["documento"].s != [] then PREFIXO_REPRESENTANTE + l["documento"].s else []
  }

  /** The row inserted into fornecedores_temp for an old row; hoje is the
      date text used when the old table has no data_cadastro. */
  function Converter(l: Linha, hoje: string): (r: Linha)
    requires "id" in l && "nome" in l
  {
    map[
      "id" := l["id"],
      "nome" := l["nome"],
      "representante" := Text(Representante(l)),
      "frequencia_compra" := Text(FREQUENCIA_PADRAO),
      "telefone" := Obter(l, "telefone", Text("")),
      "email" := Obter(l, "email", Text("")),
      "endereco" := Obter(l, "endereco", Text("")),
      "contato" := Obter(l, "contato", Text("")),
      "data_cadastro" := Obter(l, "data_cadastro", Text(hoje))
    ]
  }

  function ConverterTodas(ls: seq<Linha>, hoje: string): (rs: seq<Linha>)
    requires forall k | 0 <= k < |ls| :: "id" in ls[k] && "nome" in ls[k]
    ensures |rs| == |ls| && forall k | 0 <= k < |ls| :: rs[k] == Converter(ls[k], hoje)
  {
    seq(|ls|, k requires 0 <= k < |ls| => Converter(ls[k], hoje))
  }

  /** Converting one more row appends its conversion. */
  lemma ConverterTodasPasso(ls: seq<Linha>, i: nat, hoje: string)
    requires i < |ls| && forall k | 0 <= k <= i :: "id" in ls[k] && "nome" in ls[k]
    ensures ConverterTodas(ls[..i + 1], hoje) == ConverterTodas(ls[..i], hoje) + [Converter(ls[i], hoje)]
  {
    assert forall k | 0 <= k < i + 1 :: ls[..i + 1][k] == ls[k];
  }

  /** migrar_tabela_fornecedores: the columns it reports (None when it
      raises) and the tables it leaves. */
  function MigracaoTabela(ts: map<string, Tabela>, hoje: string): (Option<seq<string>>, map<string, Tabela>)
    requires "fornecedores" in ts
  {
    var t := ts["fornecedores"];
    if !PrecisaMigrar(Nomes(t.colunas)) then (Some([]), ts)
    else if "fornecedores_temp" in ts then (None, ts)
    else if exists k | 0 <= k < |t.linhas| :: FalhaLinha(t.linhas[k]) then
      (None, ts["fornecedores_temp" := Tabela(COLUNAS, [])])
    else
      (Some(ADICIONADAS), ts["fornecedores" := Tabela(COLUNAS, ConverterTodas(t.linhas, hoje))])
  }

  /** migrar_banco_dados: a missing table is created with the new structure,
      an existing one is migrated; false when a statement raises. */
  function Migracao(ts: map<string, Tabela>, hoje: string): Execucao {
    if "fornecedores" !in ts then Execucao(true, ts["fornecedores" := Tabela(COLUNAS, [])])
    else
      var r := MigracaoTabela(ts, hoje);
      Execucao(r.0.Some?, r.1)
  }

  /** The NOT NULL constraint refuses a converted row exactly when its nome is NULL. */
  lemma InsercaoAceitaSse(l: Linha, hoje: string)
    requires "id" in l && "nome" in l
    ensures RespeitaNaoNulo(COLUNAS, [Converter(l, hoje)]) <==> l["nome"] != Null
  {
    NomesColunas();
    var ls := [Converter(l, hoje)];
    if l["nome"] == Null {
      assert COLUNAS[1].naoNulo && COLUNAS[1].nome in ls[0];
    } else {
      forall k, j | 0 <= k < |ls| && 0 <= j < |COLUNAS| && COLUNAS[j].naoNulo && COLUNAS[j].nome in ls[k]
        ensures ls[k][COLUNAS[j].nome] != Null
      {
        assert j == 1 && COLUNAS[1].nome == "nome";
      }
    }
  }

  /** The loop of lines 90-117 inside the transaction opened by its first
      INSERT: every row copied, or, on the first row that fails, the
      transaction rolled back. */
  method CopiarLinhas(db: Database, linhas: seq<Linha>, hoje: string) returns (ok: bool)
    requires "fornecedores_temp" in db.tabelas && db.tabelas["fornecedores_temp"] == Tabela(COLUNAS, [])
    modifies db
    ensures ok <==> forall k | 0 <= k < |linhas| :: !FalhaLinha(linhas[k])
    ensures !ok ==> db.tabelas == old(db.tabelas)
    ensures ok ==> db.tabelas == old(db.tabelas)["fornecedores_temp" := Tabela(COLUNAS, ConverterTodas(linhas, hoje))]
  {
    var inicio := db.tabelas;
    var i := 0;
    while i < |linhas|
      invariant 0 <= i <= |linhas|
      invariant forall k | 0 <= k < i :: !FalhaLinha(linhas[k])
      invariant db.tabelas == inicio["fornecedores_temp" := Tabela(COLUNAS, ConverterTodas(linhas[..i], hoje))]
    {
      var l := linhas[i];
      if "id" !in l || "nome" !in l {
        // KeyError
        db.Reverter(inicio);
        return false;
      }
      InsercaoAceitaSse(l, hoje);
      var inserida := db.Inserir("fornecedores_temp", [Converter(l, hoje)]);
      if !inserida {
        db.Reverter(inicio);
        return false;
      }
      ConverterTodasPasso(linhas, i, hoje);
      i := i + 1;
    }
    assert linhas[..i] == linhas;
    ok := true;
  }

  /** migrar_tabela_fornecedores, statement by statement. */
  method MigrarTabelaFornecedores(db: Database, hoje: string) returns (adicionadas: Option<seq<string>>)
    requires "fornecedores" in db.tabelas
    modifies db
    ensures (adicionadas, db.tabelas) == MigracaoTabela(old(db.tabelas), hoje)
  {
    var t := db.tabelas["fornecedores"];
    if !PrecisaMigrar(Nomes(t.colunas)) {
      return Some([]);
    }
    var criada := db.CriarTabela("fornecedores_temp", COLUNAS);
    if !criada {
      return None;
    }
    var copiadas := CopiarLinhas(db, t.linhas, hoje);
    if !copiadas {
      return None;
    }
    var removida := db.Remover("fornecedores");
    var renomeada := db.Renomear("fornecedores_temp", "fornecedores");
    assert db.tabelas == old(db.tabelas)["fornecedores" := Tabela(COLUNAS, ConverterTodas(t.linhas, hoje))];
    adicionadas := Some(ADICIONADAS);
  }

  /** migrar_banco_dados. */
  method MigrarBancoDados(db: Database, hoje: string) returns (ok: bool)
    modifies db
    ensures Execucao(ok, db.tabelas) == Migracao(old(db.tabelas), hoje)
  {
    if !db.Existe("fornecedores") {
      db.CriarTabelaSeNaoExiste("fornecedores", COLUNAS);
      return true;
    }
    var adicionadas := MigrarTabelaFornecedores(db, hoje);
    ok := adicionadas.Some?;
  }

  /** After a run that succeeds, the table is in the new structure and a
      second run changes nothing (lines 62-66). */
  lemma MigracaoIdempotente(ts: map<string, Tabela>, hoje: string, depois: string)
    requires Migracao(ts, hoje).ok
    ensures Migracao(Migracao(ts, hoje).tabelas, depois) == Migracao(ts, hoje)
  {
    NomesColunas();
  }

  /** A migration that fails while copying leaves an empty fornecedores_temp
      behind, so every later run fails at its CREATE TABLE and changes nothing. */
  lemma FalhaPersiste(ts: map<string, Tabela>, hoje: string, depois: string)
    requires !Migracao(ts, hoje).ok
    ensures "fornecedores" in Migracao(ts, hoje).tabelas && Migracao(ts, hoje).tabelas["fornecedores"] == ts["fornecedores"]
    ensures "fornecedores_temp" in Migracao(ts, hoje).tabelas
    ensures Migracao(Migracao(ts, hoje).tabelas, depois) == Execucao(false, Migracao(ts, hoje).tabelas)
  {
  }

  /** Python truthiness of a text-or-NULL value. */
  predicate Verdadeiro(v: Valor) {
    v.Text? && v.s != []
  }

  /** One converted row: id, nome and the contact columns carried over (an
      absent contact column becomes empty text), frequencia_compra "Média",
      and representante built from a non-empty documento. */
  predicate LinhaMigrada(antes: Linha, novo: Linha) {
    && "id" in antes && "nome" in antes
    && novo.Keys == {"id", "nome", "representante", "frequencia_compra", "telefone", "email", "endereco", "contato", "data_cadastro"}
    && novo["id"] == antes["id"] && novo["nome"] == antes["nome"]
    && novo["telefone"] == Obter(antes, "telefone", Text(""))
    && novo["email"] == Obter(antes, "email", Text(""))
    && novo["endereco"] == Obter(antes, "endereco", Text(""))
    && novo["contato"] == Obter(antes, "contato", Text(""))
    && novo["frequencia_compra"] == Text(FREQUENCIA_PADRAO)
    && (Verdadeiro(Obter(antes, "documento", Null)) ==> novo["representante"] == Text(PREFIXO_REPRESENTANTE + antes["documento"].s))
    && (!Verdadeiro(Obter(antes, "documento", Null)) ==> novo["representante"] == Text(""))
    && "documento" !in novo
  }

  lemma ConverterMigra(l: Linha, hoje: string)
    requires "id" in l && "nome" in l
    ensures LinhaMigrada(l, Converter(l, hoje))
  {
  }

  /** A migrated table: the nine new columns, one row per old row in the
      same order, each carried over as LinhaMigrada says; no other table
      changes. */
  lemma MigracaoPreservaLinhas(ts: map<string, Tabela>, hoje: string)
    requires "fornecedores" in ts && Migravel(ts["fornecedores"])
    requires PrecisaMigrar(Nomes(ts["fornecedores"].colunas)) && Migracao(ts, hoje).ok
    ensures var t := ts["fornecedores"];
      var n := Migracao(ts, hoje).tabelas;
      && n.Keys == ts.Keys
      && (forall nome | nome in ts && nome != "fornecedores" :: n[nome] == ts[nome])
      && n["fornecedores"].colunas == COLUNAS && "documento" !in Nomes(COLUNAS)
      && |n["fornecedores"].linhas| == |t.linhas|
      && forall k | 0 <= k < |t.linhas| :: LinhaMigrada(t.linhas[k], n["fornecedores"].linhas[k])
  {
    NomesColunas();
    var t := ts["fornecedores"];
    var novas := ConverterTodas(t.linhas, hoje);
    forall k | 0 <= k < |t.linhas|
      ensures LinhaMigrada(t.linhas[k], novas[k])
    {
      ConverterMigra(t.linhas[k], hoje);
    }
  }
}
