/**
 * The notification service: the merge of the default settings into the
 * loaded config.json, the low-stock check and the expiry check with its
 * "not before the last check plus N hours" gate and its urgent/alert buckets.
 *
 * The clock is a parameter (seconds; the day number is seconds / 86400), the
 * e-mails the service sends are appended to a trace, and the answers of code
 * outside the model (the low-stock query, the e-mail sender) are parameters.
 */
module NotificacaoService {
  import opened Common
  import opened Text
  import opened DbManager

  // ---------------------------------------------------------------------
  // config.json and the default merge
  // ---------------------------------------------------------------------

  /** A JSON value as json.load returns it (numbers are integers here). */
  datatype Json =
    | JNull
    | JBool(b: bool)
    | JNum(n: int)
    | JStr(s: string)
    | JArr(items: seq<Json>)
    | JObj(fields: map<string, Json>)

  /** default_config. */
  const PADRAO: map<string, Json> := map[
    "email" := JObj(map[
      "smtp_server" := JStr("smtp.gmail.com"),
      "smtp_port" := JNum(587),
      "username" := JStr("seu_email@gmail.com"),
      "password" := JStr("sua_senha_app"),
      "sender_email" := JStr("seu_email@gmail.com"),
      "destinatarios" := JArr([JStr("gerente@empresa.com"), JStr("compras@empresa.com")])]),
    "notificacoes" := JObj(map[
      "estoque_baixo" := JObj(map[
        "ativo" := JBool(true),
        "verificar_a_cada_horas" := JNum(24),
        "ultima_verificacao" := JNull]),
      "vencimento" := JObj(map[
        "ativo" := JBool(true),
        "alertas_dias" := JArr([JNum(15), JNum(30)]),
        "verificar_a_cada_horas" := JNum(24),
        "ultima_verificacao" := JNull])])
  ]

  /** A defaults table of the shape default_config has: at least one key, and
      every value a non-empty object. */
  predicate PadraoBemFormado(padrao: map<string, Json>) {
    && padrao != map[]
    && forall k | k in padrao :: padrao[k].JObj? && padrao[k].fields != map[]
  }

  lemma PadraoDoServicoBemFormado()
    ensures PadraoBemFormado(PADRAO)
    ensures PADRAO.Keys == {"email", "notificacoes"}
  {
    assert PADRAO.Keys == {"email", "notificacoes"};
    assert "smtp_server" in PADRAO["email"].fields;
    assert "vencimento" in PADRAO["notificacoes"].fields;
  }

  /** Python's `sub in v` on a value of the loaded file: a key test on a
      dict, membership on a list, a substring test on a str, and None where
      Python raises TypeError. */
  function Pertence(sub: string, v: Json): (r: Option<bool>)
    ensures r.None? <==> !(v.JObj? || v.JArr? || v.JStr?)
  {
    match v
    case JObj(f) => Some(sub in f)
    case JArr(items) => Some(JStr(sub) in items)
    case JStr(t) => Some(Contains(t, sub))
    case _ => None
  }

  /** The dict f with the subkeys in feitas of the default object d filled in
      where f lacks them. */
  function Preenchido(f: map<string, Json>, d: map<string, Json>, feitas: set<string>): map<string, Json>
    requires feitas <= d.Keys
  {
    map s | s in f.Keys + feitas :: if s in f then f[s] else d[s]
  }

  lemma PreenchidoPasso(f: map<string, Json>, d: map<string, Json>, feitas: set<string>, s: string)
    requires feitas <= d.Keys && s in d && s !in feitas
    ensures s in f ==> Preenchido(f, d, feitas + {s}) == Preenchido(f, d, feitas)
    ensures s !in f ==> Preenchido(f, d, feitas + {s}) == Preenchido(f, d, feitas)[s := d[s]]
  {
  }

  /** The inner loop for one top-level key: v is the loaded value, d the
      default object. Missing subkeys of a dict are filled in; a list or str
      survives only if every subkey is "in" it (assigning into it raises);
      any other value raises. None stands for the exception. */
  function MesclarSegundoNivel(v: Json, d: map<string, Json>): Option<Json> {
    if d == map[] then Some(v)
    else
      match v
      case JObj(f) => Some(JObj(Preenchido(f, d, d.Keys)))
      case JArr(items) => if forall s | s in d :: JStr(s) in items then Some(v) else None
      case JStr(t) => if forall s | s in d :: Contains(t, s) then Some(v) else None
      case _ => None
  }

  /** What the loop does for one top-level key present in the file. */
  function MesclarValor(v: Json, d: Json): Option<Json> {
    if d.JObj? then MesclarSegundoNivel(v, d.fields) else Some(v)
  }

  /** The top-level fields f after the default keys in feitas are handled,
      when none of them raised. */
  function Parcial(f: map<string, Json>, padrao: map<string, Json>, feitas: set<string>): map<string, Json>
    requires feitas <= padrao.Keys
    requires forall k | k in feitas && k in f :: MesclarValor(f[k], padrao[k]).Some?
  {
    map k | k in f.Keys + feitas ::
      if k !in f then padrao[k] else if k in feitas then MesclarValor(f[k], padrao[k]).value else f[k]
  }

  lemma ParcialPasso(f: map<string, Json>, padrao: map<string, Json>, feitas: set<string>, k: string)
    requires feitas <= padrao.Keys && k in padrao && k !in feitas
    requires forall k' | k' in feitas && k' in f :: MesclarValor(f[k'], padrao[k']).Some?
    requires k in f ==> MesclarValor(f[k], padrao[k]).Some?
    ensures k in f ==> Parcial(f, padrao, feitas + {k}) == Parcial(f, padrao, feitas)[k := MesclarValor(f[k], padrao[k]).value]
    ensures k !in f ==> Parcial(f, padrao, feitas + {k}) == Parcial(f, padrao, feitas)[k := padrao[k]]
  {
  }

  /** The merge of lines 65-73, or None when it raises. A file whose top
      level is not an object always raises against a table like default_config. */
  function MesclarSpec(lido: Json, padrao: map<string, Json>): Option<Json>
    requires PadraoBemFormado(padrao)
  {
    if !lido.JObj? then None
    else if forall k | k in padrao && k in lido.fields :: MesclarValor(lido.fields[k], padrao[k]).Some? then
      Some(JObj(Parcial(lido.fields, padrao, padrao.Keys)))
    else None
  }

  /** The inner merge loop over the subkeys of one default object. */
  method MesclarSubchaves(v: Json, d: map<string, Json>) returns (r: Option<Json>)
    ensures r == MesclarSegundoNivel(v, d)
  {
    if d == map[] {
      return Some(v);
    }
    if !(v.JObj? || v.JArr? || v.JStr?) {
      // The first `subkey not in value` raises.
      return None;
    }
    var campos := if v.JObj? then v.fields else map[];
    var pendentes := d.Keys;
    while pendentes != {}
      invariant pendentes <= d.Keys
      invariant v.JObj? ==> campos == Preenchido(v.fields, d, d.Keys - pendentes)
      invariant v.JArr? ==> forall s | s in d.Keys - pendentes :: JStr(s) in v.items
      invariant v.JStr? ==> forall s | s in d.Keys - pendentes :: Contains(v.s, s)
      decreases pendentes
    {
      var s :| s in pendentes;
      var feitas := d.Keys - pendentes;
      assert d.Keys - (pendentes - {s}) == feitas + {s};
      var dentro := Pertence(s, v);
      if !dentro.value && !v.JObj? {
        return None;
      }
      if v.JObj? {
        PreenchidoPasso(v.fields, d, feitas, s);
        if !dentro.value {
          campos := campos[s := d[s]];
        }
      }
      pendentes := pendentes - {s};
    }
    assert d.Keys - pendentes == d.Keys;
    r := if v.JObj? then Some(JObj(campos)) else Some(v);
  }

  /** The outer merge loop of _carregar_config over the default keys. */
  method MesclarConfig(lido: Json, padrao: map<string, Json>) returns (r: Option<Json>)
    requires PadraoBemFormado(padrao)
    ensures r == MesclarSpec(lido, padrao)
  {
    if !lido.JObj? {
      // The first default key: `key not in config` raises, or the assignment
      // or the subscript of the non-dict config that follows does.
      return None;
    }
    var f := lido.fields;
    var campos := f;
    var pendentes := padrao.Keys;
    assert campos == Parcial(f, padrao, {});
    while pendentes != {}
      invariant pendentes <= padrao.Keys
      invariant forall k | k in padrao.Keys - pendentes && k in f :: MesclarValor(f[k], padrao[k]).Some?
      invariant campos == Parcial(f, padrao, padrao.Keys - pendentes)
      decreases pendentes
    {
      var k :| k in pendentes;
      var feitas := padrao.Keys - pendentes;
      assert padrao.Keys - (pendentes - {k}) == feitas + {k};
      if k !in campos {
        ParcialPasso(f, padrao, feitas, k);
        campos := campos[k := padrao[k]];
      } else {
        assert k in f && campos[k] == f[k];
        var m := MesclarSubchaves(campos[k], padrao[k].fields);
        if m.None? {
          return None;
        }
        ParcialPasso(f, padrao, feitas, k);
        campos := campos[k := m.value];
      }
      pendentes := pendentes - {k};
    }
    assert padrao.Keys - pendentes == padrao.Keys;
    r := Some(JObj(campos));
  }

  /** What _carregar_config returns for the file's contents (None when the
      file is missing or cannot be read or parsed): the merge, or the
      defaults when the merge raises. */
  function ConfigCarregada(arquivo: Option<Json>): Json {
    if arquivo.None? then JObj(PADRAO)
    else
      PadraoDoServicoBemFormado();
      var m := MesclarSpec(arquivo.value, PADRAO);
      if m.Some? then m.value else JObj(PADRAO)
  }

  /** _carregar_config. */
  method CarregarConfig(arquivo: Option<Json>) returns (config: Json)
    ensures config == ConfigCarregada(arquivo)
  {
    PadraoDoServicoBemFormado();
    if arquivo.None? {
      return JObj(PADRAO);
    }
    var m := MesclarConfig(arquivo.value, PADRAO);
    config := if m.Some? then m.value else JObj(PADRAO);
  }

  /** The merge never overwrites: every key of the file keeps its value,
      except that a dict under a default key gains the missing subkeys and
      keeps every subkey it had. */
  lemma MesclaNaoSobrescreve(lido: Json, padrao: map<string, Json>)
    requires PadraoBemFormado(padrao)
    requires MesclarSpec(lido, padrao).Some?
    ensures var m := MesclarSpec(lido, padrao).value;
      && lido.JObj? && m.JObj?
      && (forall k | k in lido.fields :: k in m.fields)
      && (forall k | k in lido.fields && k !in padrao :: m.fields[k] == lido.fields[k])
      && (forall k | k in lido.fields && k in padrao && !lido.fields[k].JObj? :: m.fields[k] == lido.fields[k])
      && (forall k | k in lido.fields && k in padrao && lido.fields[k].JObj? ::
            m.fields[k].JObj? && forall s | s in lido.fields[k].fields ::
              s in m.fields[k].fields && m.fields[k].fields[s] == lido.fields[k].fields[s])
  {
  }

  /** The merge fills in: every default key is present, and a dict under a
      default key holds every default subkey, with the default value where
      the file had none. */
  lemma MesclaPreenche(lido: Json, padrao: map<string, Json>)
    requires PadraoBemFormado(padrao)
    requires MesclarSpec(lido, padrao).Some?
    ensures var m := MesclarSpec(lido, padrao).value;
      && m.JObj?
      && (forall k | k in padrao :: k in m.fields)
      && (forall k | k in padrao && k !in lido.fields :: m.fields[k] == padrao[k])
      && (forall k | k in padrao && m.fields[k].JObj? :: forall s | s in padrao[k].fields ::
            && s in m.fields[k].fields
            && (k in lido.fields && s !in lido.fields[k].fields ==> m.fields[k].fields[s] == padrao[k].fields[s]))
  {
  }

  /** A dict that already has every default subkey comes through unchanged. */
  lemma SegundoNivelCompleto(h: map<string, Json>, d: map<string, Json>)
    requires d.Keys <= h.Keys
    ensures MesclarSegundoNivel(JObj(h), d) == Some(JObj(h))
  {
    if d != map[] {
      var m := Preenchido(h, d, d.Keys);
      assert m.Keys == h.Keys;
      assert m == h;
    }
  }

  /** Loading the file a merge produced changes nothing more. */
  lemma MesclaIdempotente(lido: Json, padrao: map<string, Json>)
    requires PadraoBemFormado(padrao)
    requires MesclarSpec(lido, padrao).Some?
    ensures MesclarSpec(MesclarSpec(lido, padrao).value, padrao) == MesclarSpec(lido, padrao)
  {
    var g := MesclarSpec(lido, padrao).value.fields;
    MesclaPreenche(lido, padrao);
    MesclaNaoSobrescreve(lido, padrao);
    forall k | k in padrao
      ensures MesclarValor(g[k], padrao[k]) == Some(g[k])
    {
      if g[k].JObj? {
        SegundoNivelCompleto(g[k].fields, padrao[k].fields);
      } else {
        assert k in lido.fields && g[k] == lido.fields[k];
      }
    }
    var p := Parcial(g, padrao, padrao.Keys);
    assert p.Keys == g.Keys;
    assert p == g;
  }

  /** The defaults table merged into itself comes back unchanged. */
  lemma PadraoMesclaASiMesmo(padrao: map<string, Json>)
    requires PadraoBemFormado(padrao)
    ensures MesclarSpec(JObj(padrao), padrao) == Some(JObj(padrao))
  {
    forall k | k in padrao
      ensures MesclarValor(padrao[k], padrao[k]) == Some(padrao[k])
    {
      SegundoNivelCompleto(padrao[k].fields, padrao[k].fields);
    }
    var p := Parcial(padrao, padrao, padrao.Keys);
    assert p.Keys == padrao.Keys;
    assert p == padrao;
  }

  /** Loading a saved configuration a second time gives it back unchanged,
      and the defaults load as themselves. */
  lemma CarregarIdempotente(arquivo: Option<Json>)
    ensures ConfigCarregada(Some(ConfigCarregada(arquivo))) == ConfigCarregada(arquivo)
    ensures ConfigCarregada(Some(JObj(PADRAO))) == JObj(PADRAO)
  {
    PadraoDoServicoBemFormado();
    PadraoMesclaASiMesmo(PADRAO);
    var c := ConfigCarregada(arquivo);
    if arquivo.Some? && MesclarSpec(arquivo.value, PADRAO).Some? {
      MesclaIdempotente(arquivo.value, PADRAO);
      assert c == MesclarSpec(arquivo.value, PADRAO).value;
    } else {
      assert c == JObj(PADRAO);
    }
  }

  /** Whatever the file holds, the loaded settings have both default sections. */
  lemma CarregadaTemSecoes(arquivo: Option<Json>)
    ensures ConfigCarregada(arquivo).JObj?
    ensures "email" in ConfigCarregada(arquivo).fields && "notificacoes" in ConfigCarregada(arquivo).fields
  {
    PadraoDoServicoBemFormado();
    var c := ConfigCarregada(arquivo);
    if arquivo.Some? && MesclarSpec(arquivo.value, PADRAO).Some? {
      MesclaPreenche(arquivo.value, PADRAO);
      assert c == MesclarSpec(arquivo.value, PADRAO).value;
    } else {
      assert c == JObj(PADRAO);
    }
    assert "email" in PADRAO && "notificacoes" in PADRAO;
  }

  // ---------------------------------------------------------------------
  // The checks
  // ---------------------------------------------------------------------

  /** One of the two checks' settings. ultimaVerificacao is in seconds. */
  datatype Verificacao = Verificacao(ativo: bool, intervaloHoras: int, ultimaVerificacao: Option<int>)

  /** The settings the checks read. */
  datatype Config = Config(destinatarios: seq<string>, estoqueBaixo: Verificacao, vencimento: Verificacao, alertasDias: seq<int>)

  /** Python's truth value of a loaded JSON value, as `if x:` and `not x`
      read it. */
  predicate Verdadeiro(j: Json) {
    match j
    case JNull => false
    case JBool(b) => b
    case JNum(n) => n != 0
    case JStr(t) => t != []
    case JArr(items) => items != []
    case JObj(f) => f != map[]
  }

  /** The strings of a JSON list of strings; None when an item is not a string. */
  function Textos(items: seq<Json>): (r: Option<seq<string>>)
    ensures r.Some? <==> forall k | 0 <= k < |items| :: items[k].JStr?
    ensures r.Some? ==> |r.value| == |items| && forall k | 0 <= k < |items| :: items[k] == JStr(r.value[k])
  {
    if items == [] then Some([])
    else if !items[0].JStr? then None
    else
      var resto := Textos(items[1..]);
      if resto.None? then None else Some([items[0].s] + resto.value)
  }

  /** The numbers of a JSON list of numbers; None when an item is not a number. */
  function Numeros(items: seq<Json>): (r: Option<seq<int>>)
    ensures r.Some? <==> forall k | 0 <= k < |items| :: items[k].JNum?
    ensures r.Some? ==> |r.value| == |items| && forall k | 0 <= k < |items| :: items[k] == JNum(r.value[k])
  {
    if items == [] then Some([])
    else if !items[0].JNum? then None
    else
      var resto := Numeros(items[1..]);
      if resto.None? then None else Some([items[0].n] + resto.value)
  }

  /** The last check of a section as the gate reads it: a false-like value
      means none, a timestamp is read by `instante` (datetime.fromisoformat,
      None where it raises), and anything else fails. */
  function UltimaVerificacao(u: Json, instante: string -> Option<int>): Option<Option<int>> {
    if !Verdadeiro(u) then Some(None)
    else if u.JStr? && instante(u.s).Some? then Some(instante(u.s))
    else None
  }

  /** The typed settings of one check section of the loaded configuration:
      `ativo` by its truth value, the interval a number, the last check as
      UltimaVerificacao reads it. None where a key the check reads is
      missing or a value cannot be used. */
  function LerVerificacao(secao: Json, instante: string -> Option<int>): (r: Option<Verificacao>)
    ensures r.Some? ==> && secao.JObj?
                        && "ativo" in secao.fields && r.value.ativo == Verdadeiro(secao.fields["ativo"])
                        && "verificar_a_cada_horas" in secao.fields && secao.fields["verificar_a_cada_horas"] == JNum(r.value.intervaloHoras)
                        && "ultima_verificacao" in secao.fields
                        && UltimaVerificacao(secao.fields["ultima_verificacao"], instante) == Some(r.value.ultimaVerificacao)
  {
    if !secao.JObj? then None
    else
      var f := secao.fields;
      if "ativo" !in f || "verificar_a_cada_horas" !in f || "ultima_verificacao" !in f then None
      else if !f["verificar_a_cada_horas"].JNum? then None
      else
        var ultima := UltimaVerificacao(f["ultima_verificacao"], instante);
        if ultima.None? then None
        else Some(Verificacao(Verdadeiro(f["ativo"]), f["verificar_a_cada_horas"].n, ultima.value))
  }

  /** The keys the e-mail notifier is built from. */
  const CHAVES_EMAIL: set<string> := {"smtp_server", "smtp_port", "username", "password", "sender_email"}

  /** The typed view of the loaded configuration that the service's checks
      read: the recipients, both check sections and the alert windows. None
      where a lookup of the source would raise KeyError or TypeError, or a
      timestamp ValueError. */
  function ConfigDe(j: Json, instante: string -> Option<int>): Option<Config> {
    if !j.JObj? || "email" !in j.fields || "notificacoes" !in j.fields then None
    else
      var email := j.fields["email"];
      var notificacoes := j.fields["notificacoes"];
      if !email.JObj? || !(CHAVES_EMAIL <= email.fields.Keys) || "destinatarios" !in email.fields then None
      else if !notificacoes.JObj? || "estoque_baixo" !in notificacoes.fields || "vencimento" !in notificacoes.fields then None
      else
        var destinatarios := email.fields["destinatarios"];
        var vencimento := notificacoes.fields["vencimento"];
        if !destinatarios.JArr? || Textos(destinatarios.items).None? then None
        else if !vencimento.JObj? || "alertas_dias" !in vencimento.fields then None
        else
          var dias := vencimento.fields["alertas_dias"];
          if !dias.JArr? || Numeros(dias.items).None? then None
          else
            var estoque := LerVerificacao(notificacoes.fields["estoque_baixo"], instante);
            var venc := LerVerificacao(vencimento, instante);
            if estoque.None? || venc.None? then None
            else Some(Config(Textos(destinatarios.items).value, estoque.value, venc.value, Numeros(dias.items).value))
  }

  /** The settings the defaults give: both checks active every 24 hours and
      never run, alerts at 15 and 30 days, the two default recipients. */
  const CONFIG_PADRAO: Config := Config(
    ["gerente@empresa.com", "compras@empresa.com"],
    Verificacao(true, 24, None),
    Verificacao(true, 24, None),
    [15, 30])

  /** Without a config.json the service runs on the default settings. */
  lemma PadraoTipado(instante: string -> Option<int>)
    ensures ConfigDe(ConfigCarregada(None), instante) == Some(CONFIG_PADRAO)
  {
    var email := PADRAO["email"].fields;
    var vencimento := PADRAO["notificacoes"].fields["vencimento"];
    assert CHAVES_EMAIL <= email.Keys;
    var para := email["destinatarios"].items;
    assert para == [JStr(CONFIG_PADRAO.destinatarios[0]), JStr(CONFIG_PADRAO.destinatarios[1])];
    assert Textos(para).Some?;
    assert Textos(para).value == CONFIG_PADRAO.destinatarios;
    var dias := vencimento.fields["alertas_dias"].items;
    assert dias == [JNum(15), JNum(30)];
    assert Numeros(dias).Some?;
    assert Numeros(dias).value == [15, 30];
    SecoesPadraoTipadas(instante);
  }

  lemma SecoesPadraoTipadas(instante: string -> Option<int>)
    ensures LerVerificacao(PADRAO["notificacoes"].fields["estoque_baixo"], instante) == Some(Verificacao(true, 24, None))
    ensures LerVerificacao(PADRAO["notificacoes"].fields["vencimento"], instante) == Some(Verificacao(true, 24, None))
  {
    var estoque := PADRAO["notificacoes"].fields["estoque_baixo"].fields;
    assert "ativo" in estoque && "verificar_a_cada_horas" in estoque && "ultima_verificacao" in estoque;
    assert estoque["ultima_verificacao"] == JNull && estoque["verificar_a_cada_horas"] == JNum(24);
    var vencimento := PADRAO["notificacoes"].fields["vencimento"].fields;
    assert "ativo" in vencimento && "verificar_a_cada_horas" in vencimento && "ultima_verificacao" in vencimento;
    assert vencimento["ultima_verificacao"] == JNull && vencimento["verificar_a_cada_horas"] == JNum(24);
  }

  /** The messages handed to the e-mail notifier. */
  datatype Email =
    | EmailEstoqueBaixo(para: seq<string>, baixos: seq<Row<Produto>>)
    | EmailUrgente(para: seq<string>, produtos: seq<Juncao<Produto>>, limiteDias: int)
    | EmailAlerta(para: seq<string>, produtos: seq<Juncao<Produto>>, limiteDias: int)

  /** The exception max() raises on an empty alertas_dias. */
  datatype ErroVerificacao = ValueError

  const SEGUNDOS_POR_HORA: int := 3600
  const SEGUNDOS_POR_DIA: int := 86400

  /** The gate: no previous check, or now is not before it plus the interval. */
  predicate IntervaloCumprido(v: Verificacao, agora: int) {
    v.ultimaVerificacao.None? || agora >= v.ultimaVerificacao.value + v.intervaloHoras * SEGUNDOS_POR_HORA
  }

  function MaiorDe(s: seq<int>): (m: int)
    requires s != []
    ensures m in s && forall k | 0 <= k < |s| :: s[k] <= m
  {
    if |s| == 1 then s[0]
    else
      var r := MaiorDe(s[1..]);
      assert r in s;
      if s[0] >= r then s[0] else r
  }

  function MenorDe(s: seq<int>): (m: int)
    requires s != []
    ensures m in s && forall k | 0 <= k < |s| :: m <= s[k]
  {
    if |s| == 1 then s[0]
    else
      var r := MenorDe(s[1..]);
      assert r in s;
      if s[0] <= r then s[0] else r
  }

  /** Days from today to the product's expiry. */
  function DiasRestantes(p: Juncao<Produto>, hoje: int): int {
    Validade(p.data) - hoje
  }

  predicate Urgente(p: Juncao<Produto>, hoje: int, menor: int) {
    0 <= DiasRestantes(p, hoje) <= menor
  }

  predicate EmAlerta(p: Juncao<Produto>, hoje: int, menor: int, maior: int) {
    menor < DiasRestantes(p, hoje) <= maior
  }

  /** The urgent bucket: the candidates 0 to `menor` days from expiry, in order. */
  function Urgentes(cs: seq<Juncao<Produto>>, hoje: int, menor: int): seq<Juncao<Produto>> {
    if cs == [] then []
    else
      var u := cs[|cs| - 1];
      Urgentes(cs[..|cs| - 1], hoje, menor) + (if Urgente(u, hoje, menor) then [u] else [])
  }

  /** The alert bucket: the candidates past `menor` and at most `maior` days away. */
  function Alertas(cs: seq<Juncao<Produto>>, hoje: int, menor: int, maior: int): seq<Juncao<Produto>> {
    if cs == [] then []
    else
      var u := cs[|cs| - 1];
      Alertas(cs[..|cs| - 1], hoje, menor, maior) + (if EmAlerta(u, hoje, menor, maior) then [u] else [])
  }

  lemma {:induction false} UrgentesMembros(cs: seq<Juncao<Produto>>, hoje: int, menor: int)
    ensures forall p :: p in Urgentes(cs, hoje, menor) <==> p in cs && Urgente(p, hoje, menor)
  {
    if cs != [] {
      UrgentesMembros(cs[..|cs| - 1], hoje, menor);
      assert cs == cs[..|cs| - 1] + [cs[|cs| - 1]];
    }
  }

  lemma {:induction false} AlertasMembros(cs: seq<Juncao<Produto>>, hoje: int, menor: int, maior: int)
    ensures forall p :: p in Alertas(cs, hoje, menor, maior) <==> p in cs && EmAlerta(p, hoje, menor, maior) && !Urgente(p, hoje, menor)
  {
    if cs != [] {
      AlertasMembros(cs[..|cs| - 1], hoje, menor, maior);
      assert cs == cs[..|cs| - 1] + [cs[|cs| - 1]];
    }
  }

  /** The buckets are disjoint, hold only candidates, and together hold every
      candidate that is due within the largest threshold. */
  lemma BaldesParticionam(cs: seq<Juncao<Produto>>, hoje: int, menor: int, maior: int)
    requires menor <= maior
    ensures forall p | p in Urgentes(cs, hoje, menor) :: p !in Alertas(cs, hoje, menor, maior)
    ensures forall p | p in Urgentes(cs, hoje, menor) || p in Alertas(cs, hoje, menor, maior) :: p in cs
    ensures forall p | p in cs && 0 <= DiasRestantes(p, hoje) <= maior ::
      p in Urgentes(cs, hoje, menor) || p in Alertas(cs, hoje, menor, maior)
  {
    UrgentesMembros(cs, hoje, menor);
    AlertasMembros(cs, hoje, menor, maior);
  }

  /** The bucketing loop of verificar_produtos_vencendo. */
  method Classificar(cs: seq<Juncao<Produto>>, hoje: int, menor: int, maior: int)
    returns (urgentes: seq<Juncao<Produto>>, alerta: seq<Juncao<Produto>>)
    ensures urgentes == Urgentes(cs, hoje, menor)
    ensures alerta == Alertas(cs, hoje, menor, maior)
  {
    urgentes, alerta := [], [];
    var i := 0;
    while i < |cs|
      invariant 0 <= i <= |cs|
      invariant urgentes == Urgentes(cs[..i], hoje, menor)
      invariant alerta == Alertas(cs[..i], hoje, menor, maior)
    {
      assert cs[..i + 1][..i] == cs[..i];
      var dias := DiasRestantes(cs[i], hoje);
      if 0 <= dias <= menor {
        urgentes := urgentes + [cs[i]];
      } else if menor < dias <= maior {
        alerta := alerta + [cs[i]];
      }
      i := i + 1;
    }
    assert cs[..i] == cs;
  }

  /** _buscar_todos_produtos_vencendo: the products expiring between today
      and today + diasMax, by ascending validade, with their supplier's nome. */
  function BuscarTodosProdutosVencendo(db: DatabaseManager, diasMax: int, hoje: int): (out: seq<Juncao<Produto>>)
    requires db.Valid()
    reads db
    ensures forall k | 0 <= k < |out| ::
      && out[k].id in db.produtos.rows && out[k].data == db.produtos.rows[out[k].id]
      && VenceEntre(out[k].data, hoje, diasMax) && out[k].nomeRelacionado == db.NomeFornecedor(out[k].data)
    ensures forall id | id in db.produtos.rows && VenceEntre(db.produtos.rows[id], hoje, diasMax) ::
      exists k | 0 <= k < |out| :: out[k] == Juncao(id, db.produtos.rows[id], db.NomeFornecedor(db.produtos.rows[id]))
    ensures forall k, m | 0 <= k < m < |out| :: Validade(out[k].data) <= Validade(out[m].data)
    ensures forall k, m | 0 <= k < m < |out| :: out[k].id != out[m].id
  {
    BuscaMembros(db, diasMax, hoje);
    BuscaSemRepetidos(db, diasMax, hoje);
    db.JuntarFornecedor(db.VerificarProdutosVencendo(diasMax, hoje))
  }

  /** The joined rows are the expiring products, each with its supplier's nome. */
  lemma BuscaMembros(db: DatabaseManager, diasMax: int, hoje: int)
    requires db.Valid()
    ensures var out := db.JuntarFornecedor(db.VerificarProdutosVencendo(diasMax, hoje));
      && (forall k | 0 <= k < |out| ::
        && out[k].id in db.produtos.rows && out[k].data == db.produtos.rows[out[k].id]
        && VenceEntre(out[k].data, hoje, diasMax) && out[k].nomeRelacionado == db.NomeFornecedor(out[k].data))
      && (forall id | id in db.produtos.rows && VenceEntre(db.produtos.rows[id], hoje, diasMax) ::
        exists k | 0 <= k < |out| :: out[k] == Juncao(id, db.produtos.rows[id], db.NomeFornecedor(db.produtos.rows[id])))
  {
    var s := db.VerificarProdutosVencendo(diasMax, hoje);
    var out := db.JuntarFornecedor(s);
    assert forall k | 0 <= k < |s| :: s[k] in s;
    assert forall id | id in db.produtos.rows && VenceEntre(db.produtos.rows[id], hoje, diasMax) ::
      Row(id, db.produtos.rows[id]) in s;
  }

  /** Joining the expiring products to their suppliers keeps their expiry order and repeats no product. */
  lemma BuscaSemRepetidos(db: DatabaseManager, diasMax: int, hoje: int)
    requires db.Valid()
    ensures var out := db.JuntarFornecedor(db.VerificarProdutosVencendo(diasMax, hoje));
      && (forall k, m | 0 <= k < m < |out| :: Validade(out[k].data) <= Validade(out[m].data))
      && (forall k, m | 0 <= k < m < |out| :: out[k].id != out[m].id)
  {
    var s := db.VerificarProdutosVencendo(diasMax, hoje);
    JuncaoDistinta(s, db.JuntarFornecedor(s));
  }

  /** The e-mails of one expiry check over the candidates cs: one for the
      urgent bucket and one for the alert bucket, each only when non-empty. */
  function AvisosVencimento(para: seq<string>, cs: seq<Juncao<Produto>>, hoje: int, dias: seq<int>): (es: seq<Email>)
    requires dias != []
    ensures |es| <= 2
    ensures es == [] <==> Urgentes(cs, hoje, MenorDe(dias)) == [] && Alertas(cs, hoje, MenorDe(dias), MaiorDe(dias)) == []
  {
    var urgentes := Urgentes(cs, hoje, MenorDe(dias));
    var alerta := Alertas(cs, hoje, MenorDe(dias), MaiorDe(dias));
    (if urgentes != [] then [EmailUrgente(para, urgentes, MenorDe(dias))] else [])
      + (if alerta != [] then [EmailAlerta(para, alerta, MaiorDe(dias))] else [])
  }

  /** Over candidates that have not expired, the check sends something
      exactly when some candidate is due within the largest threshold. */
  lemma AvisosIff(para: seq<string>, cs: seq<Juncao<Produto>>, hoje: int, dias: seq<int>)
    requires dias != []
    requires forall k | 0 <= k < |cs| :: 0 <= DiasRestantes(cs[k], hoje)
    ensures AvisosVencimento(para, cs, hoje, dias) != []
      <==> exists k | 0 <= k < |cs| :: 0 <= DiasRestantes(cs[k], hoje) <= MaiorDe(dias)
  {
    var menor, maior := MenorDe(dias), MaiorDe(dias);
    assert menor <= dias[0] <= maior;
    BaldesParticionam(cs, hoje, menor, maior);
    UrgentesMembros(cs, hoje, menor);
    AlertasMembros(cs, hoje, menor, maior);
    if AvisosVencimento(para, cs, hoje, dias) != [] {
      var u, a := Urgentes(cs, hoje, menor), Alertas(cs, hoje, menor, maior);
      if u != [] {
        assert u[0] in u;
        var k :| 0 <= k < |cs| && cs[k] == u[0];
        assert 0 <= DiasRestantes(cs[k], hoje) <= maior;
      } else {
        assert a[0] in a;
        var k :| 0 <= k < |cs| && cs[k] == a[0];
        assert 0 <= DiasRestantes(cs[k], hoje) <= maior;
      }
    }
    if exists k | 0 <= k < |cs| :: 0 <= DiasRestantes(cs[k], hoje) <= maior {
      var k :| 0 <= k < |cs| && 0 <= DiasRestantes(cs[k], hoje) <= maior;
      assert cs[k] in cs;
    }
  }

  /** Over candidates that are exactly the rows expiring within the largest
      threshold, the check sends something exactly when such a row exists. */
  lemma AvisaSeAlgumaLinhaVence(rows: map<int, Produto>, para: seq<string>, cs: seq<Juncao<Produto>>, hoje: int, dias: seq<int>)
    requires dias != []
    requires forall k | 0 <= k < |cs| :: cs[k].id in rows && cs[k].data == rows[cs[k].id] && VenceEntre(cs[k].data, hoje, MaiorDe(dias))
    requires forall id | id in rows && VenceEntre(rows[id], hoje, MaiorDe(dias)) :: exists k | 0 <= k < |cs| :: cs[k].id == id
    ensures AvisosVencimento(para, cs, hoje, dias) != []
      <==> exists id | id in rows :: VenceEntre(rows[id], hoje, MaiorDe(dias))
  {
    var maior := MaiorDe(dias);
    AvisosIff(para, cs, hoje, dias);
    if exists k | 0 <= k < |cs| :: 0 <= DiasRestantes(cs[k], hoje) <= maior {
      var k :| 0 <= k < |cs| && 0 <= DiasRestantes(cs[k], hoje) <= maior;
      assert VenceEntre(rows[cs[k].id], hoje, maior);
    }
    if exists id | id in rows :: VenceEntre(rows[id], hoje, maior) {
      var id :| id in rows && VenceEntre(rows[id], hoje, maior);
      var k :| 0 <= k < |cs| && cs[k].id == id;
      assert 0 <= DiasRestantes(cs[k], hoje) <= maior;
    }
  }

  /** An expiry check that runs sends something exactly when some product
      expires between today and today + the largest alert threshold. */
  lemma AvisaSeAlgumVence(db: DatabaseManager, para: seq<string>, hoje: int, dias: seq<int>)
    requires db.Valid() && dias != []
    ensures AvisosVencimento(para, BuscarTodosProdutosVencendo(db, MaiorDe(dias), hoje), hoje, dias) != []
      <==> exists id | id in db.produtos.rows :: VenceEntre(db.produtos.rows[id], hoje, MaiorDe(dias))
  {
    AvisaSeAlgumaLinhaVence(db.produtos.rows, para, BuscarTodosProdutosVencendo(db, MaiorDe(dias), hoje), hoje, dias);
  }

  class NotificacaoService {
    var config: Config
    /** The messages handed to the notifier, oldest first. */
    var enviados: seq<Email>

    /** __init__: the configuration _carregar_config loads, read as the
        checks read it. `instante` parses a stored timestamp. */
    constructor (arquivo: Option<Json>, instante: string -> Option<int>)
      requires ConfigDe(ConfigCarregada(arquivo), instante).Some?
      ensures Some(config) == ConfigDe(ConfigCarregada(arquivo), instante) && enviados == []
    {
      var carregada := CarregarConfig(arquivo);
      config := ConfigDe(carregada, instante).value;
      enviados := [];
    }

    /** verificar_estoque_baixo. baixos is what the low-stock query answers
        and envioOk what the notifier answers. */
    method VerificarEstoqueBaixo(agora: int, baixos: seq<Row<Produto>>, envioOk: bool) returns (r: bool)
      modifies this
      ensures var v := old(config.estoqueBaixo);
        && (!v.ativo || !IntervaloCumprido(v, agora) ==> !r && config == old(config) && enviados == old(enviados))
        && (v.ativo && IntervaloCumprido(v, agora) ==>
              config == old(config).(estoqueBaixo := v.(ultimaVerificacao := Some(agora))))
        && (v.ativo && IntervaloCumprido(v, agora) && baixos == [] ==> r && enviados == old(enviados))
        && (v.ativo && IntervaloCumprido(v, agora) && baixos != [] ==>
              r == envioOk && enviados == old(enviados) + [EmailEstoqueBaixo(old(config).destinatarios, baixos)])
    {
      var v := config.estoqueBaixo;
      if !v.ativo {
        return false;
      }
      if !IntervaloCumprido(v, agora) {
        return false;
      }
      config := config.(estoqueBaixo := v.(ultimaVerificacao := Some(agora)));
      if baixos == [] {
        return true;
      }
      enviados := enviados + [EmailEstoqueBaixo(config.destinatarios, baixos)];
      r := envioOk;
    }

    /** verificar_produtos_vencendo: Failure(ValueError) when alertas_dias is
        empty, which happens after the check has been stamped. */
    method VerificarProdutosVencendo(agora: int, db: DatabaseManager) returns (r: Result<bool, ErroVerificacao>)
      requires db.Valid()
      modifies this
      ensures var v := old(config.vencimento);
        && (!v.ativo || !IntervaloCumprido(v, agora) ==> r == Success(false) && config == old(config) && enviados == old(enviados))
        && (v.ativo && IntervaloCumprido(v, agora) ==>
              config == old(config).(vencimento := v.(ultimaVerificacao := Some(agora))))
        && (v.ativo && IntervaloCumprido(v, agora) && old(config.alertasDias) == [] ==>
              r == Failure(ValueError) && enviados == old(enviados))
      ensures var v := old(config.vencimento);
        var dias := old(config.alertasDias);
        v.ativo && IntervaloCumprido(v, agora) && dias != [] ==>
          var cs := BuscarTodosProdutosVencendo(db, MaiorDe(dias), agora / SEGUNDOS_POR_DIA);
          && enviados == old(enviados) + AvisosVencimento(old(config).destinatarios, cs, agora / SEGUNDOS_POR_DIA, dias)
          && r == Success(AvisosVencimento(old(config).destinatarios, cs, agora / SEGUNDOS_POR_DIA, dias) != [])
    {
      var v := config.vencimento;
      if !v.ativo || !IntervaloCumprido(v, agora) {
        return Success(false);
      }
      config := config.(vencimento := v.(ultimaVerificacao := Some(agora)));
      var dias := config.alertasDias;
      if dias == [] {
        return Failure(ValueError);
      }
      var hoje := agora / SEGUNDOS_POR_DIA;
      var maior := MaiorDe(dias);
      var menor := MenorDe(dias);
      var cs := BuscarTodosProdutosVencendo(db, maior, hoje);
      var urgentes, alerta := Classificar(cs, hoje, menor, maior);
      var avisos := (if urgentes != [] then [EmailUrgente(config.destinatarios, urgentes, menor)] else [])
        + (if alerta != [] then [EmailAlerta(config.destinatarios, alerta, maior)] else []);
      assert avisos == AvisosVencimento(config.destinatarios, cs, hoje, dias);
      enviados := enviados + avisos;
      r := Success(avisos != []);
    }
  }
}
