/**
 * The point-of-sale window: the cart of the sale in progress and its running
 * total, the open till, sales and manual cash movements, and the closing of
 * the till with its variance.
 *
 * The till ledger behind obter_caixa_aberto, registrar_venda, fechar_caixa and
 * the other ledger calls is not part of this model. Every write the window
 * sends to it is appended to a trace of calls, and every answer the window
 * reads back is a parameter of the handler that reads it. Money is in integer
 * cents; the spin-box limits of the dialogs are preconditions of the handlers.
 */
module Caixa {
  import opened Common
  import opened Text

  /** Maximum of the quantity spin box. */
  const QUANTIDADE_MAX: int := 9999
  /** 999999.99, the maximum of the price, balance and amount spin boxes, in cents. */
  const VALOR_MAX: int := 99999999
  /** Maximum of the instalments spin box. */
  const PARCELAS_MAX: int := 12

  const ENTRADA: string := "Entrada"
  const CARTAO_CREDITO: string := "Cart\U{E3}o de Cr\U{E9}dito"
  const OPERADOR: string := "Sistema"

  /** The payment methods offered when finishing a sale. */
  const FORMAS_VENDA: seq<string> := ["Dinheiro", CARTAO_CREDITO, "Cart\U{E3}o de D\U{E9}bito", "PIX", "Boleto"]

  /** The product row behind the selected entry of the product combo box. */
  datatype ProdutoSelecionado = ProdutoSelecionado(id: int, nome: string, estoque: int)

  /** One line of the cart. */
  datatype ItemVenda = ItemVenda(produtoId: int, produtoNome: string, quantidade: int, precoUnitario: int, subtotal: int)

  /** The open till, as obter_caixa_aberto returns it. */
  datatype CaixaAberto = CaixaAberto(id: int)

  /** A row of listar_movimentos_caixa: its tipo and its amount. */
  datatype Movimento = Movimento(tipo: string, valor: int)

  /** What the finish-sale dialog holds when "Confirmar Venda" is pressed. */
  datatype Pagamento = Pagamento(clienteId: Option<int>, desconto: int, forma: string, parcelas: int, observacao: string)

  /** The writes the window sends to the till ledger. */
  datatype ChamadaLivro =
    | AberturaCaixa(saldoInicial: int, operador: string, observacao: string)
    | FechamentoCaixa(caixaId: int, saldoInformado: int, diferenca: int, operador: string, observacao: string)
    | RegistrarVenda(clienteId: Option<int>, valorTotal: int, desconto: int, forma: string,
                     parcelas: int, observacao: string, status: string, operador: string)
    | RegistrarItemVenda(idVenda: int, produtoId: int, quantidade: int, precoUnitario: int, subtotal: int)
    | RegistrarMovimentoCaixa(caixaId: int, tipo: string, descricao: string, valor: int, forma: string,
                              vendaId: Option<int>, origem: string, operador: string, observacaoOpcional: Option<string>)

  datatype ResultadoItem = NenhumProduto | ProdutoInvalido | EstoqueInsuficiente | Adicionado

  datatype ResultadoVenda = VendaSemCaixa | VendaVazia | VendaCancelada | ErroAoRegistrarVenda | VendaConcluida(vendaId: int)

  datatype ResultadoFechamento = FechamentoSemCaixa | FechamentoNaoConfirmado | ErroAoFechar | Fechado(relatorioCaixaId: int)

  datatype ErroMovimento = DescricaoObrigatoria | ValorInvalido

  datatype ResultadoMovimento = MovimentoSemCaixa | MovimentoRejeitado(erro: ErroMovimento) | ErroAoRegistrarMovimento | MovimentoRegistrado

  /** The exception a subscript of None raises. */
  datatype ErroExecucao = TypeError

  /** Python truthiness of the id a ledger call returns (None and 0 are false). */
  predicate Verdadeiro(id: Option<int>) {
    id.Some? && id.value != 0
  }

  // ---------------------------------------------------------------------
  // The cart and its total
  // ---------------------------------------------------------------------

  /** A cart line as adicionar_item builds it from the two spin boxes. */
  predicate ItemValido(i: ItemVenda) {
    && 1 <= i.quantidade <= QUANTIDADE_MAX
    && 0 <= i.precoUnitario <= VALOR_MAX
    && i.subtotal == i.quantidade * i.precoUnitario
  }

  /** `sum(item['subtotal'] for item in itens)`. */
  function SomaSubtotais(itens: seq<ItemVenda>): int {
    if itens == [] then 0 else SomaSubtotais(itens[..|itens| - 1]) + itens[|itens| - 1].subtotal
  }

  lemma {:induction false} SomaSubtotaisConcat(a: seq<ItemVenda>, b: seq<ItemVenda>)
    ensures SomaSubtotais(a + b) == SomaSubtotais(a) + SomaSubtotais(b)
    decreases |b|
  {
    if b == [] {
      assert a + b == a;
    } else {
      assert (a + b)[..|a + b| - 1] == a + b[..|b| - 1];
      SomaSubtotaisConcat(a, b[..|b| - 1]);
    }
  }

  /** Removing the line at k takes exactly its subtotal off the sum. */
  lemma SomaSubtotaisSemItem(itens: seq<ItemVenda>, k: int)
    requires 0 <= k < |itens|
    ensures SomaSubtotais(itens[..k] + itens[k + 1..]) == SomaSubtotais(itens) - itens[k].subtotal
  {
    assert itens == itens[..k] + [itens[k]] + itens[k + 1..];
    SomaSubtotaisConcat(itens[..k] + [itens[k]], itens[k + 1..]);
    SomaSubtotaisConcat(itens[..k], [itens[k]]);
    SomaSubtotaisConcat(itens[..k], itens[k + 1..]);
    assert SomaSubtotais([itens[k]]) == itens[k].subtotal by {
      assert [itens[k]][..0] == [];
    }
  }

  /** A cart of well-formed lines never totals below zero. */
  lemma {:induction false} SomaSubtotaisNaoNegativa(itens: seq<ItemVenda>)
    requires forall k | 0 <= k < |itens| :: ItemValido(itens[k])
    ensures SomaSubtotais(itens) >= 0
  {
    if itens != [] {
      var u := itens[|itens| - 1];
      assert ItemValido(u);
      assert u.quantidade * u.precoUnitario >= 0;
      SomaSubtotaisNaoNegativa(itens[..|itens| - 1]);
    }
  }

  /** calcular_total's summing loop. */
  method SomarSubtotais(itens: seq<ItemVenda>) returns (soma: int)
    ensures soma == SomaSubtotais(itens)
  {
    soma := 0;
    var i := 0;
    while i < |itens|
      invariant 0 <= i <= |itens|
      invariant soma == SomaSubtotais(itens[..i])
    {
      assert itens[..i + 1][..i] == itens[..i];
      soma := soma + itens[i].subtotal;
      i := i + 1;
    }
    assert itens[..i] == itens;
  }

  // ---------------------------------------------------------------------
  // A sale as the ledger sees it
  // ---------------------------------------------------------------------

  /** The instalments recorded: the spin box when paying by credit card, 1
      otherwise (atualizar_parcelas resets and disables the spin box for every
      other method). */
  function ParcelasEfetivas(forma: string, parcelasSpin: int): (p: int)
    requires 1 <= parcelasSpin <= PARCELAS_MAX
    ensures 1 <= p <= PARCELAS_MAX
    ensures forma != CARTAO_CREDITO ==> p == 1
    ensures forma == CARTAO_CREDITO ==> p == parcelasSpin
  {
    if forma == CARTAO_CREDITO then parcelasSpin else 1
  }

  /** One registrar_item_venda per cart line, in cart order. */
  function ChamadasItens(vendaId: int, itens: seq<ItemVenda>): (cs: seq<ChamadaLivro>)
    ensures |cs| == |itens|
    ensures forall k | 0 <= k < |itens| ::
      cs[k] == RegistrarItemVenda(vendaId, itens[k].produtoId, itens[k].quantidade, itens[k].precoUnitario, itens[k].subtotal)
  {
    if itens == [] then []
    else
      var u := itens[|itens| - 1];
      ChamadasItens(vendaId, itens[..|itens| - 1]) + [RegistrarItemVenda(vendaId, u.produtoId, u.quantidade, u.precoUnitario, u.subtotal)]
  }

  /** The sum of the subtotals the item calls carry. */
  function SomaRegistrada(cs: seq<ChamadaLivro>): int {
    if cs == [] then 0
    else SomaRegistrada(cs[..|cs| - 1]) + (if cs[|cs| - 1].RegistrarItemVenda? then cs[|cs| - 1].subtotal else 0)
  }

  /** The item calls of a sale carry exactly the cart total. */
  lemma {:induction false} SomaRegistradaItens(vendaId: int, itens: seq<ItemVenda>)
    ensures SomaRegistrada(ChamadasItens(vendaId, itens)) == SomaSubtotais(itens)
  {
    if itens != [] {
      var cs := ChamadasItens(vendaId, itens);
      assert cs[..|cs| - 1] == ChamadasItens(vendaId, itens[..|itens| - 1]);
      SomaRegistradaItens(vendaId, itens[..|itens| - 1]);
    }
  }

  /** The charged amount: total_venda - desconto. */
  function TotalFinal(totalVenda: int, desconto: int): int {
    totalVenda - desconto
  }

  /** The ledger writes of processar_venda: the sale, and when the ledger
      answers with a (truthy) id, one call per cart line and the cash Entrada. */
  function ChamadasVenda(caixaId: int, p: Pagamento, totalVenda: int, itens: seq<ItemVenda>, vendaId: Option<int>): seq<ChamadaLivro>
    requires 1 <= p.parcelas <= PARCELAS_MAX
  {
    var totalFinal := TotalFinal(totalVenda, p.desconto);
    [RegistrarVenda(p.clienteId, totalFinal, p.desconto, p.forma, ParcelasEfetivas(p.forma, p.parcelas), p.observacao, "Conclu\U{ED}da", OPERADOR)]
    + (if Verdadeiro(vendaId) then
         ChamadasItens(vendaId.value, itens)
         + [RegistrarMovimentoCaixa(caixaId, ENTRADA, "Venda #" + IntToString(vendaId.value), totalFinal, p.forma,
                                    vendaId, "Venda", OPERADOR, None)]
       else [])
  }

  /** What a recorded sale means: the sale row and the cash Entrada both carry
      total - discount, the item calls add up to the total before discount,
      and the amount is within [0, total]. */
  lemma VendaRegistradaConfere(caixaId: int, p: Pagamento, totalVenda: int, itens: seq<ItemVenda>, vendaId: int)
    requires 1 <= p.parcelas <= PARCELAS_MAX
    requires 0 <= p.desconto <= totalVenda
    requires totalVenda == SomaSubtotais(itens)
    requires vendaId != 0
    ensures var cs := ChamadasVenda(caixaId, p, totalVenda, itens, Some(vendaId));
      && |cs| == |itens| + 2
      && cs[0].RegistrarVenda? && cs[0].valorTotal == totalVenda - p.desconto
      && cs[|cs| - 1].RegistrarMovimentoCaixa? && cs[|cs| - 1].tipo == ENTRADA
      && cs[|cs| - 1].valor == cs[0].valorTotal
      && SomaRegistrada(cs[1..|cs| - 1]) == cs[0].valorTotal + cs[0].desconto
      && 0 <= cs[0].valorTotal <= totalVenda
  {
    var cs := ChamadasVenda(caixaId, p, totalVenda, itens, Some(vendaId));
    assert cs[1..|cs| - 1] == ChamadasItens(vendaId, itens);
    SomaRegistradaItens(vendaId, itens);
  }

  // ---------------------------------------------------------------------
  // Closing the till
  // ---------------------------------------------------------------------

  /** The declared-balance spin box right after setValue(saldo_atual): Qt
      clamps the value into [0, 999999.99]. */
  function SaldoInformadoPadrao(saldoSistema: int): (v: int)
    ensures 0 <= v <= VALOR_MAX
    ensures 0 <= saldoSistema <= VALOR_MAX ==> v == saldoSistema
  {
    if saldoSistema < 0 then 0 else if saldoSistema > VALOR_MAX then VALOR_MAX else saldoSistema
  }

  /** `diferenca = saldo_informado - saldo_atual`. */
  function Diferenca(saldoInformado: int, saldoSistema: int): int {
    saldoInformado - saldoSistema
  }

  /** Left at its default the declared balance shows no difference exactly
      when the system balance fits the spin box; a negative balance shows a
      surplus and one above the maximum a shortage. */
  lemma DiferencaPadrao(saldoSistema: int)
    ensures Diferenca(SaldoInformadoPadrao(saldoSistema), saldoSistema) == 0 <==> 0 <= saldoSistema <= VALOR_MAX
    ensures saldoSistema < 0 ==> Diferenca(SaldoInformadoPadrao(saldoSistema), saldoSistema) == -saldoSistema
    ensures saldoSistema > VALOR_MAX ==> Diferenca(SaldoInformadoPadrao(saldoSistema), saldoSistema) < 0
  {
  }

  /** confirmar_fechamento as written asks for the closing report with the id
      of self.caixa_atual after verificar_caixa_aberto has refreshed it: the
      till open after the close, if any. */
  function RelatorioFechamentoComoEscrito(caixaDepois: Option<CaixaAberto>): Result<int, ErroExecucao> {
    if caixaDepois.Some? then Success(caixaDepois.value.id) else Failure(TypeError)
  }

  /** Once the ledger has closed the only till, no till is open and the code
      as written subscripts None, where the report of the closed till was due. */
  lemma RelatorioFechamentoComoEscritoFalha(caixaId: int)
    ensures RelatorioFechamentoComoEscrito(None) == Failure(TypeError)
    ensures RelatorioFechamentoComoEscrito(None) != Success(caixaId)
    ensures RelatorioFechamentoComoEscrito(Some(CaixaAberto(caixaId + 1))) != Success(caixaId)
  {
  }

  // ---------------------------------------------------------------------
  // Cash movements
  // ---------------------------------------------------------------------

  function SomaEntradas(ms: seq<Movimento>): int {
    if ms == [] then 0
    else SomaEntradas(ms[..|ms| - 1]) + (if ms[|ms| - 1].tipo == ENTRADA then ms[|ms| - 1].valor else 0)
  }

  /** Every tipo other than "Entrada" counts as an outflow. */
  function SomaSaidas(ms: seq<Movimento>): int {
    if ms == [] then 0
    else SomaSaidas(ms[..|ms| - 1]) + (if ms[|ms| - 1].tipo == ENTRADA then 0 else ms[|ms| - 1].valor)
  }

  /** Reference definition of the balance: each amount with its sign. */
  function SaldoComSinal(ms: seq<Movimento>): int {
    if ms == [] then 0
    else
      var m := ms[0];
      (if m.tipo == ENTRADA then m.valor else -m.valor) + SaldoComSinal(ms[1..])
  }

  function SomaValores(ms: seq<Movimento>): int {
    if ms == [] then 0 else ms[0].valor + SomaValores(ms[1..])
  }

  /** Inflows and outflows of a list add up over its parts. */
  lemma {:induction false} TotaisConcat(a: seq<Movimento>, b: seq<Movimento>)
    ensures SomaEntradas(a + b) == SomaEntradas(a) + SomaEntradas(b)
    ensures SomaSaidas(a + b) == SomaSaidas(a) + SomaSaidas(b)
    decreases |b|
  {
    if b == [] {
      assert a + b == a;
    } else {
      assert (a + b)[..|a + b| - 1] == a + b[..|b| - 1];
      TotaisConcat(a, b[..|b| - 1]);
    }
  }

  /** The period balance is the signed sum of the movements, and every
      amount is counted once, as inflow or as outflow. */
  lemma {:induction false} SaldoPeriodoCorreto(ms: seq<Movimento>)
    ensures SomaEntradas(ms) - SomaSaidas(ms) == SaldoComSinal(ms)
    ensures SomaEntradas(ms) + SomaSaidas(ms) == SomaValores(ms)
  {
    if ms != [] {
      assert ms == [ms[0]] + ms[1..];
      TotaisConcat([ms[0]], ms[1..]);
      assert [ms[0]][..0] == [];
      SaldoPeriodoCorreto(ms[1..]);
    }
  }

  /** The summing loop of carregar_movimentos and filtrar_movimentos. */
  method TotaisMovimentos(ms: seq<Movimento>) returns (entradas: int, saidas: int, saldo: int)
    ensures entradas == SomaEntradas(ms) && saidas == SomaSaidas(ms)
    ensures saldo == entradas - saidas && saldo == SaldoComSinal(ms)
  {
    entradas, saidas := 0, 0;
    var i := 0;
    while i < |ms|
      invariant 0 <= i <= |ms|
      invariant entradas == SomaEntradas(ms[..i]) && saidas == SomaSaidas(ms[..i])
    {
      assert ms[..i + 1][..i] == ms[..i];
      if ms[i].tipo == ENTRADA {
        entradas := entradas + ms[i].valor;
      } else {
        saidas := saidas + ms[i].valor;
      }
      i := i + 1;
    }
    assert ms[..i] == ms;
    saldo := entradas - saidas;
    SaldoPeriodoCorreto(ms);
  }

  /** The checks confirmar_movimento makes before writing: a description that
      is not blank once stripped, and a positive amount. */
  function ValidarMovimento(descricao: string, valor: int): (r: Result<string, ErroMovimento>)
    ensures r == Failure(DescricaoObrigatoria) <==> IsBlank(descricao)
    ensures r == Failure(ValorInvalido) <==> !IsBlank(descricao) && valor <= 0
    ensures r.Success? <==> !IsBlank(descricao) && valor > 0
    ensures r.Success? ==> r.value == Strip(descricao) && r.value != []
  {
    var d := Strip(descricao);
    if d == [] then Failure(DescricaoObrigatoria)
    else if valor <= 0 then Failure(ValorInvalido)
    else Success(d)
  }

  // ---------------------------------------------------------------------
  // The window
  // ---------------------------------------------------------------------

  class CaixaWindow {
    var caixaAtual: Option<CaixaAberto>
    var itensVenda: seq<ItemVenda>
    var totalVenda: int
    /** Every write sent to the till ledger, oldest first. */
    var chamadas: seq<ChamadaLivro>

    /** Every cart line is well formed and total_venda is their sum. */
    ghost predicate Valid()
      reads this
    {
      && (forall k | 0 <= k < |itensVenda| :: ItemValido(itensVenda[k]))
      && totalVenda == SomaSubtotais(itensVenda)
    }

    /** __init__: an empty cart, then verificar_caixa_aberto. */
    constructor (caixaAberto: Option<CaixaAberto>)
      ensures Valid()
      ensures caixaAtual == caixaAberto && itensVenda == [] && totalVenda == 0 && chamadas == []
    {
      caixaAtual := caixaAberto;
      itensVenda := [];
      totalVenda := 0;
      chamadas := [];
    }

    /** verificar_caixa_aberto: caixa_atual becomes what obter_caixa_aberto answers. */
    method VerificarCaixaAberto(caixaAberto: Option<CaixaAberto>)
      modifies this
      ensures caixaAtual == caixaAberto
      ensures itensVenda == old(itensVenda) && totalVenda == old(totalVenda) && chamadas == old(chamadas)
    {
      caixaAtual := caixaAberto;
    }

    /** calcular_total. */
    method CalcularTotal()
      modifies this
      ensures totalVenda == SomaSubtotais(itensVenda)
      ensures caixaAtual == old(caixaAtual) && itensVenda == old(itensVenda) && chamadas == old(chamadas)
    {
      totalVenda := SomarSubtotais(itensVenda);
    }

    /** adicionar_item: the combo index, its item data and the two spin boxes. */
    method AdicionarItem(indice: int, produto: Option<ProdutoSelecionado>, quantidade: int, preco: int) returns (r: ResultadoItem)
      requires Valid()
      requires 1 <= quantidade <= QUANTIDADE_MAX && 0 <= preco <= VALOR_MAX
      modifies this
      ensures Valid()
      ensures caixaAtual == old(caixaAtual) && chamadas == old(chamadas)
      ensures indice < 0 ==> r == NenhumProduto
      ensures indice >= 0 && produto.None? ==> r == ProdutoInvalido
      ensures indice >= 0 && produto.Some? && quantidade > produto.value.estoque ==> r == EstoqueInsuficiente
      ensures r != Adicionado ==> itensVenda == old(itensVenda) && totalVenda == old(totalVenda)
      ensures indice >= 0 && produto.Some? && quantidade <= produto.value.estoque ==>
        && r == Adicionado
        && itensVenda == old(itensVenda) + [ItemVenda(produto.value.id, produto.value.nome, quantidade, preco, quantidade * preco)]
        && totalVenda == old(totalVenda) + quantidade * preco
    {
      if indice < 0 {
        return NenhumProduto;
      }
      if produto.None? {
        return ProdutoInvalido;
      }
      var p := produto.value;
      if quantidade > p.estoque {
        return EstoqueInsuficiente;
      }
      var item := ItemVenda(p.id, p.nome, quantidade, preco, quantidade * preco);
      SomaSubtotaisConcat(itensVenda, [item]);
      assert SomaSubtotais([item]) == item.subtotal by {
        assert [item][..0] == [];
      }
      itensVenda := itensVenda + [item];
      CalcularTotal();
      r := Adicionado;
    }

    /** remover_item: deletes the line at row when row is a valid index. */
    method RemoverItem(linha: int)
      requires Valid()
      modifies this
      ensures Valid()
      ensures caixaAtual == old(caixaAtual) && chamadas == old(chamadas)
      ensures 0 <= linha < |old(itensVenda)| ==>
        && itensVenda == old(itensVenda)[..linha] + old(itensVenda)[linha + 1..]
        && totalVenda == old(totalVenda) - old(itensVenda)[linha].subtotal
      ensures !(0 <= linha < |old(itensVenda)|) ==> itensVenda == old(itensVenda) && totalVenda == old(totalVenda)
    {
      if 0 <= linha < |itensVenda| {
        SomaSubtotaisSemItem(itensVenda, linha);
        itensVenda := itensVenda[..linha] + itensVenda[linha + 1..];
        CalcularTotal();
      }
    }

    /** limpar_venda: with a non-empty cart and the question answered Yes. */
    method LimparVenda(confirma: bool)
      requires Valid()
      modifies this
      ensures Valid()
      ensures caixaAtual == old(caixaAtual) && chamadas == old(chamadas)
      ensures old(itensVenda) != [] && confirma ==> itensVenda == [] && totalVenda == 0
      ensures !(old(itensVenda) != [] && confirma) ==> itensVenda == old(itensVenda) && totalVenda == old(totalVenda)
    {
      if itensVenda != [] && confirma {
        itensVenda := [];
        CalcularTotal();
      }
    }

    /** finalizar_venda and, when the dialog is confirmed, processar_venda.
        pagamento is None when the dialog is closed without confirming;
        vendaId is what registrar_venda answers. */
    method FinalizarVenda(pagamento: Option<Pagamento>, vendaId: Option<int>) returns (r: ResultadoVenda)
      requires Valid()
      requires pagamento.Some? ==>
        && 0 <= pagamento.value.desconto <= totalVenda
        && 1 <= pagamento.value.parcelas <= PARCELAS_MAX
      modifies this
      ensures Valid()
      ensures caixaAtual == old(caixaAtual)
      ensures old(caixaAtual).None? ==> r == VendaSemCaixa
      ensures old(caixaAtual).Some? && old(itensVenda) == [] ==> r == VendaVazia
      ensures old(caixaAtual).Some? && old(itensVenda) != [] && pagamento.None? ==> r == VendaCancelada
      ensures r in {VendaSemCaixa, VendaVazia, VendaCancelada} ==>
        chamadas == old(chamadas) && itensVenda == old(itensVenda) && totalVenda == old(totalVenda)
      ensures old(caixaAtual).Some? && old(itensVenda) != [] && pagamento.Some? ==>
        chamadas == old(chamadas) + ChamadasVenda(old(caixaAtual).value.id, pagamento.value, old(totalVenda), old(itensVenda), vendaId)
      ensures old(caixaAtual).Some? && old(itensVenda) != [] && pagamento.Some? && Verdadeiro(vendaId) ==>
        r == VendaConcluida(vendaId.value) && itensVenda == [] && totalVenda == 0
      ensures old(caixaAtual).Some? && old(itensVenda) != [] && pagamento.Some? && !Verdadeiro(vendaId) ==>
        r == ErroAoRegistrarVenda && itensVenda == old(itensVenda) && totalVenda == old(totalVenda)
    {
      if caixaAtual.None? {
        return VendaSemCaixa;
      }
      if itensVenda == [] {
        return VendaVazia;
      }
      if pagamento.None? {
        return VendaCancelada;
      }
      var p := pagamento.value;
      var caixaId := caixaAtual.value.id;
      var totalFinal := TotalFinal(totalVenda, p.desconto);
      var inicio := chamadas;
      chamadas := chamadas + [RegistrarVenda(p.clienteId, totalFinal, p.desconto, p.forma,
                                             ParcelasEfetivas(p.forma, p.parcelas), p.observacao, "Conclu\U{ED}da", OPERADOR)];
      if !Verdadeiro(vendaId) {
        return ErroAoRegistrarVenda;
      }
      var v := vendaId.value;
      var base := chamadas;
      var i := 0;
      while i < |itensVenda|
        invariant 0 <= i <= |itensVenda|
        invariant chamadas == base + ChamadasItens(v, itensVenda[..i])
        invariant caixaAtual == old(caixaAtual) && itensVenda == old(itensVenda) && totalVenda == old(totalVenda)
      {
        var item := itensVenda[i];
        assert itensVenda[..i + 1][..i] == itensVenda[..i];
        chamadas := chamadas + [RegistrarItemVenda(v, item.produtoId, item.quantidade, item.precoUnitario, item.subtotal)];
        i := i + 1;
      }
      assert itensVenda[..i] == itensVenda;
      var movimento := RegistrarMovimentoCaixa(caixaId, ENTRADA, "Venda #" + IntToString(v), totalFinal, p.forma,
                                               vendaId, "Venda", OPERADOR, None);
      ConcatAssoc(base, ChamadasItens(v, itensVenda), [movimento]);
      ConcatAssoc(inicio, base[|inicio|..], ChamadasItens(v, itensVenda) + [movimento]);
      assert inicio + base[|inicio|..] == base;
      chamadas := chamadas + [movimento];
      itensVenda := [];
      CalcularTotal();
      r := VendaConcluida(v);
    }

    /** confirmar_abertura: caixaId is what abrir_caixa answers and
        caixaAberto what the following verificar_caixa_aberto reads. */
    method ConfirmarAbertura(saldoInicial: int, observacao: string, caixaId: Option<int>, caixaAberto: Option<CaixaAberto>)
      returns (aberto: bool)
      requires 0 <= saldoInicial <= VALOR_MAX
      modifies this
      ensures chamadas == old(chamadas) + [AberturaCaixa(saldoInicial, OPERADOR, observacao)]
      ensures aberto <==> Verdadeiro(caixaId)
      ensures caixaAtual == (if aberto then caixaAberto else old(caixaAtual))
      ensures itensVenda == old(itensVenda) && totalVenda == old(totalVenda)
    {
      chamadas := chamadas + [AberturaCaixa(saldoInicial, OPERADOR, observacao)];
      aberto := Verdadeiro(caixaId);
      if aberto {
        VerificarCaixaAberto(caixaAberto);
      }
    }

    /** fechar_caixa and confirmar_fechamento. saldoSistema is what
        obter_saldo_atual answered when the dialog opened; sucesso is what the
        ledger's fechar_caixa answers and caixaDepois what the following
        verificar_caixa_aberto reads. The closing report is for the till that
        was closed. */
    method FecharCaixa(saldoSistema: int, saldoInformado: int, observacao: string, confirma: bool,
                       sucesso: bool, caixaDepois: Option<CaixaAberto>) returns (r: ResultadoFechamento)
      requires 0 <= saldoInformado <= VALOR_MAX
      modifies this
      ensures itensVenda == old(itensVenda) && totalVenda == old(totalVenda)
      ensures old(caixaAtual).None? ==> r == FechamentoSemCaixa
      ensures old(caixaAtual).Some? && !confirma ==> r == FechamentoNaoConfirmado
      ensures old(caixaAtual).None? || !confirma ==> chamadas == old(chamadas) && caixaAtual == old(caixaAtual)
      ensures old(caixaAtual).Some? && confirma ==>
        chamadas == old(chamadas) + [FechamentoCaixa(old(caixaAtual).value.id, saldoInformado,
                                                 Diferenca(saldoInformado, saldoSistema), OPERADOR, observacao)]
      ensures old(caixaAtual).Some? && confirma && !sucesso ==> r == ErroAoFechar && caixaAtual == old(caixaAtual)
      ensures old(caixaAtual).Some? && confirma && sucesso ==>
        r == Fechado(old(caixaAtual).value.id) && caixaAtual == caixaDepois
    {
      if caixaAtual.None? {
        return FechamentoSemCaixa;
      }
      if !confirma {
        return FechamentoNaoConfirmado;
      }
      var caixaId := caixaAtual.value.id;
      chamadas := chamadas + [FechamentoCaixa(caixaId, saldoInformado, Diferenca(saldoInformado, saldoSistema), OPERADOR, observacao)];
      if !sucesso {
        return ErroAoFechar;
      }
      VerificarCaixaAberto(caixaDepois);
      r := Fechado(caixaId);
    }

    /** carregar_movimentos: the three totals it shows; zeros without an open till. */
    method CarregarMovimentos(movimentos: seq<Movimento>) returns (entradas: int, saidas: int, saldo: int)
      ensures caixaAtual.None? ==> entradas == 0 && saidas == 0 && saldo == 0
      ensures caixaAtual.Some? ==> entradas == SomaEntradas(movimentos) && saidas == SomaSaidas(movimentos)
      ensures caixaAtual.Some? ==> saldo == entradas - saidas && saldo == SaldoComSinal(movimentos)
    {
      if caixaAtual.None? {
        return 0, 0, 0;
      }
      entradas, saidas, saldo := TotaisMovimentos(movimentos);
    }

    /** filtrar_movimentos: the totals of the period's movements; nothing
        without an open till. */
    method FiltrarMovimentos(movimentos: seq<Movimento>) returns (totais: Option<(int, int, int)>)
      ensures totais.None? <==> caixaAtual.None?
      ensures totais.Some? ==>
        && totais.value.0 == SomaEntradas(movimentos) && totais.value.1 == SomaSaidas(movimentos)
        && totais.value.2 == SaldoComSinal(movimentos)
    {
      if caixaAtual.None? {
        return None;
      }
      var e, s, b := TotaisMovimentos(movimentos);
      totais := Some((e, s, b));
    }

    /** novo_movimento and confirmar_movimento: tipo is the button's
        "Entrada" or "Saída"; sucesso is what registrar_movimento_caixa answers. */
    method NovoMovimento(tipo: string, descricao: string, valor: int, forma: string, observacao: string, sucesso: bool)
      returns (r: ResultadoMovimento)
      requires 0 <= valor <= VALOR_MAX
      modifies this
      ensures caixaAtual == old(caixaAtual) && itensVenda == old(itensVenda) && totalVenda == old(totalVenda)
      ensures old(caixaAtual).None? ==> r == MovimentoSemCaixa && chamadas == old(chamadas)
      ensures old(caixaAtual).Some? && ValidarMovimento(descricao, valor).Failure? ==>
        r == MovimentoRejeitado(ValidarMovimento(descricao, valor).error) && chamadas == old(chamadas)
      ensures old(caixaAtual).Some? && ValidarMovimento(descricao, valor).Success? ==>
        && chamadas == old(chamadas) + [RegistrarMovimentoCaixa(old(caixaAtual).value.id, tipo, Strip(descricao), valor, forma,
                                                                 None, "Manual", OPERADOR, Some(observacao))]
        && r == (if sucesso then MovimentoRegistrado else ErroAoRegistrarMovimento)
    {
      if caixaAtual.None? {
        return MovimentoSemCaixa;
      }
      var v := ValidarMovimento(descricao, valor);
      if v.Failure? {
        return MovimentoRejeitado(v.error);
      }
      chamadas := chamadas + [RegistrarMovimentoCaixa(caixaAtual.value.id, tipo, v.value, valor, forma,
                                                      None, "Manual", OPERADOR, Some(observacao))];
      r := if sucesso then MovimentoRegistrado else ErroAoRegistrarMovimento;
    }
  }
}
