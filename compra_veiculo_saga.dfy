/**
  The purchase saga. `ExecutarCompra` drives a sale through the four steps
  RESERVA, CODIGO_PAGAMENTO, PAGAMENTO and RETIRADA; `ExecutarAteCodigoPagamento`
  stops after the payment code. When a step fails, the saga re-reads the sale
  and compensates: it cancels the sale (releasing the vehicle) unless the
  current status blocks it, writes a critical log when a paid sale cannot be
  finished, and logs, without rethrowing, a compensation that itself fails.

  `Compra` and `AteCodigo` state, as functions of the store before the call,
  the result, the store after it, the critical logs written and the steps
  attempted; the methods are proved to follow them and the lemmas below give
  the outcome at each failure point.
*/
module Saga {
  import opened Modelo
  import opened MaquinaVendas
  import opened Armazenamento
  import opened VendasServico

  datatype SagaStep = RESERVA | CODIGO_PAGAMENTO | PAGAMENTO | RETIRADA

  datatype CompraVeiculoResult = CompraVeiculoResult(
    sucesso: bool,
    venda: Option<Venda>,
    etapaFalha: Option<SagaStep>,
    motivoFalha: Option<string>)

  /**
    Fault oracle of one saga run: one per forward step, one for the re-read of
    the sale during compensation, one for the compensating cancellation.
  */
  datatype Falhas = Falhas(
    reserva: FalhaBanco,
    codigo: FalhaBanco,
    pagamento: FalhaBanco,
    retirada: FalhaBanco,
    releitura: Option<string>,
    cancelamento: FalhaBanco)

  /** The critical lines the saga writes to the error log. */
  datatype Registro =
    | SagaCritica(vendaId: Id, etapa: SagaStep, erro: string)
    | CompensacaoFalhou(vendaId: Id, erroOriginal: string, erroCompensacao: string)
    | CompensacaoParcialFalhou(vendaId: Id, erroOriginal: string, erroCompensacao: string)

  /** The full saga, or the one that stops after the payment code. */
  datatype Variante = Completa | Parcial

  /** What one saga run returns and leaves behind. */
  datatype Execucao = Execucao(
    resultado: CompraVeiculoResult,
    db: Db,
    registros: seq<Registro>,
    etapas: seq<SagaStep>)

  /**
    Statuses in which compensation does not cancel: RETIRADO and CANCELADO,
    and for the full saga also PAGO (a confirmed payment is never undone automatically).
  */
  predicate BloqueiaCancelamento(variante: Variante, s: StatusVenda)
  {
    s == RETIRADO || s == CANCELADO || (variante == Completa && s == PAGO)
  }

  function RegistroFalhaCompensacao(variante: Variante, vendaId: Id, original: string, compensacao: string): Registro
  {
    if variante == Completa then CompensacaoFalhou(vendaId, original, compensacao)
    else CompensacaoParcialFalhou(vendaId, original, compensacao)
  }

  /** The compensation for sale `vendaId` after step `etapa` failed with `mensagem`. */
  function Compensacao(db: Db, vendaId: Id, etapa: SagaStep, mensagem: string, falhas: Falhas, variante: Variante)
    : (r: (Db, seq<Registro>))
    ensures |r.1| <= 1
    ensures r.0 != db ==>
      && falhas.releitura.None? && vendaId in db.vendas
      && !BloqueiaCancelamento(variante, db.vendas[vendaId].status)
      && var v := db.vendas[vendaId].veiculoId;
      && v in db.veiculos
      && r.0 == Db(db.vendas[vendaId := db.vendas[vendaId].(status := CANCELADO)],
                   db.veiculos[v := db.veiculos[v].(statusEstoque := DISPONIVEL)],
                   db.clientes)
      && r.1 == []
    ensures r.1 == [SagaCritica(vendaId, etapa, mensagem)] <==>
      falhas.releitura.None? && vendaId in db.vendas && variante == Completa && db.vendas[vendaId].status == PAGO
  {
    if falhas.releitura.Some? then
      (db, [RegistroFalhaCompensacao(variante, vendaId, mensagem, Banco(falhas.releitura.value).Message())])
    else if vendaId !in db.vendas then
      (db, [])
    else if !BloqueiaCancelamento(variante, db.vendas[vendaId].status) then
      var (r, db') := CancelarVenda(db, vendaId, falhas.cancelamento);
      if r.Err? then (db', [RegistroFalhaCompensacao(variante, vendaId, mensagem, r.erro.Message())])
      else (db', [])
    else if variante == Completa && db.vendas[vendaId].status == PAGO then
      (db, [SagaCritica(vendaId, etapa, mensagem)])
    else
      (db, [])
  }

  /**
    The catch block: compensate if a sale was created (and has a non-empty
    id), then report the step and the original error message.
  */
  function Desfecho(db: Db, venda: Option<Venda>, etapa: SagaStep, erro: Erro, falhas: Falhas,
                  variante: Variante, etapas: seq<SagaStep>): Execucao
  {
    var mensagem := erro.Message();
    var (db', registros) :=
      if venda.Some? && venda.value.id != "" then Compensacao(db, venda.value.id, etapa, mensagem, falhas, variante)
      else (db, []);
    Execucao(CompraVeiculoResult(false, venda, Some(etapa), Some(mensagem)), db', registros, etapas)
  }

  /** The status a sale has when step `etapa` is attempted on it. */
  function StatusAntes(etapa: SagaStep): StatusVenda
  {
    match etapa
    case RESERVA => CANCELADO  // no sale exists yet; never consulted
    case CODIGO_PAGAMENTO => StatusVenda.RESERVADO
    case PAGAMENTO => CODIGO_GERADO
    case RETIRADA => PAGO
  }

  /**
    The full saga, step by step. A failed reservation leaves no sale and no
    change behind; otherwise the result carries the new sale as the last step
    that succeeded returned it, never as compensation left it.
  */
  function Compra(db: Db, clienteId: Id, veiculoId: Id, novoId: Id, agora: nat, falhas: Falhas): (e: Execucao)
    requires novoId !in db.vendas
    ensures e.resultado.sucesso <==> e.resultado.etapaFalha.None?
    ensures !e.resultado.sucesso ==> e.resultado.motivoFalha.Some?
    ensures e.resultado.venda.None? <==> e.resultado.etapaFalha == Some(RESERVA)
    ensures e.resultado.venda.None? ==> e.db == db && e.registros == []
    ensures e.resultado.venda.Some? ==>
      var v := e.resultado.venda.value;
      && v.id == novoId && v.clienteId == clienteId && v.veiculoId == veiculoId
      && v.status == (if e.resultado.sucesso then RETIRADO else StatusAntes(e.resultado.etapaFalha.value))
  {
    var (r1, db1) := Reservar(db, clienteId, veiculoId, novoId, falhas.reserva);
    if r1.Err? then Desfecho(db1, None, RESERVA, r1.erro, falhas, Completa, [RESERVA])
    else AposReserva(db1, r1.valor, agora, falhas)
  }

  /** The rest of the full saga once `venda` has been reserved. */
  function AposReserva(db: Db, venda: Venda, agora: nat, falhas: Falhas): Execucao
  {
    var (r, db') := GerarCodigo(db, venda.id, agora, falhas.codigo);
    if r.Err? then Desfecho(db', Some(venda), CODIGO_PAGAMENTO, r.erro, falhas, Completa, [RESERVA, CODIGO_PAGAMENTO])
    else AposCodigo(db', r.valor, falhas)
  }

  /** The rest of the full saga once the code of `venda` has been issued. */
  function AposCodigo(db: Db, venda: Venda, falhas: Falhas): Execucao
  {
    var (r, db') := ConfirmarPagamento(db, venda.id, falhas.pagamento);
    if r.Err? then Desfecho(db', Some(venda), PAGAMENTO, r.erro, falhas, Completa, [RESERVA, CODIGO_PAGAMENTO, PAGAMENTO])
    else AposPagamento(db', r.valor, falhas)
  }

  /** The last step of the full saga once `venda` has been paid. */
  function AposPagamento(db: Db, venda: Venda, falhas: Falhas): Execucao
  {
    var (r, db') := MarcarRetirada(db, venda.id, falhas.retirada);
    if r.Err? then
      Desfecho(db', Some(venda), RETIRADA, r.erro, falhas, Completa, [RESERVA, CODIGO_PAGAMENTO, PAGAMENTO, RETIRADA])
    else
      Execucao(CompraVeiculoResult(true, Some(r.valor), None, None), db', [],
               [RESERVA, CODIGO_PAGAMENTO, PAGAMENTO, RETIRADA])
  }

  /**
    The partial saga: reservation and payment code only. As in the full saga,
    the result carries the sale as the last step that succeeded returned it.
  */
  function AteCodigo(db: Db, clienteId: Id, veiculoId: Id, novoId: Id, agora: nat, falhas: Falhas): (e: Execucao)
    requires novoId !in db.vendas
    ensures e.resultado.sucesso <==> e.resultado.etapaFalha.None?
    ensures !e.resultado.sucesso ==> e.resultado.motivoFalha.Some?
    ensures e.resultado.etapaFalha.Some? ==> e.resultado.etapaFalha.value in {RESERVA, CODIGO_PAGAMENTO}
    ensures e.resultado.venda.None? <==> e.resultado.etapaFalha == Some(RESERVA)
    ensures e.resultado.venda.None? ==> e.db == db && e.registros == []
    ensures e.resultado.venda.Some? ==>
      var v := e.resultado.venda.value;
      && v.id == novoId && v.clienteId == clienteId && v.veiculoId == veiculoId
      && v.status == (if e.resultado.sucesso then CODIGO_GERADO else StatusVenda.RESERVADO)
  {
    var (r1, db1) := Reservar(db, clienteId, veiculoId, novoId, falhas.reserva);
    if r1.Err? then Desfecho(db1, None, RESERVA, r1.erro, falhas, Parcial, [RESERVA])
    else
      var (r2, db2) := GerarCodigo(db1, r1.valor.id, agora, falhas.codigo);
      if r2.Err? then Desfecho(db2, Some(r1.valor), CODIGO_PAGAMENTO, r2.erro, falhas, Parcial, [RESERVA, CODIGO_PAGAMENTO])
      else Execucao(CompraVeiculoResult(true, Some(r2.valor), None, None), db2, [], [RESERVA, CODIGO_PAGAMENTO])
  }

  class CompraVeiculoSaga {
    const vendasService: VendasService
    /** Lines written to the error log, oldest first. */
    var registros: seq<Registro>

    constructor (vendasService: VendasService)
      ensures this.vendasService == vendasService && registros == []
    {
      this.vendasService := vendasService;
      registros := [];
    }

    /** Re-reads sale `vendaId` and applies the compensation policy of `variante`; never throws. */
    method Compensar(vendaId: Id, etapa: SagaStep, mensagem: string, falhas: Falhas, variante: Variante)
      requires vendasService.Valid()
      modifies vendasService.db, this`registros
      ensures vendasService.Valid()
      ensures var (db', novos) := Compensacao(old(vendasService.db.Estado()), vendaId, etapa, mensagem, falhas, variante);
        vendasService.db.Estado() == db' && registros == old(registros) + novos
    {
      var atual := vendasService.ObterPorId(vendaId, falhas.releitura);
      if atual.Err? {
        registros := registros + [RegistroFalhaCompensacao(variante, vendaId, mensagem, atual.erro.Message())];
        return;
      }
      var vendaAtual := atual.valor;
      if vendaAtual.Some? && !BloqueiaCancelamento(variante, vendaAtual.value.status) {
        var cancelamento := vendasService.CancelarVenda(vendaId, falhas.cancelamento, Some("SAGA_FAIL: " + mensagem));
        if cancelamento.Err? {
          registros := registros + [RegistroFalhaCompensacao(variante, vendaId, mensagem, cancelamento.erro.Message())];
        }
      } else if variante == Completa && vendaAtual.Some? && vendaAtual.value.status == PAGO {
        registros := registros + [SagaCritica(vendaId, etapa, mensagem)];
      }
    }

    /** The catch block shared by both entry points. */
    method Falhar(venda: Option<Venda>, etapa: SagaStep, erro: Erro, falhas: Falhas, variante: Variante,
                  ghost etapas: seq<SagaStep>)
      returns (resultado: CompraVeiculoResult)
      requires vendasService.Valid()
      modifies vendasService.db, this`registros
      ensures vendasService.Valid()
      ensures var e := Desfecho(old(vendasService.db.Estado()), venda, etapa, erro, falhas, variante, etapas);
        && resultado == e.resultado
        && vendasService.db.Estado() == e.db
        && registros == old(registros) + e.registros
    {
      var mensagem := erro.Message();
      if venda.Some? && venda.value.id != "" {
        Compensar(venda.value.id, etapa, mensagem, falhas, variante);
      }
      resultado := CompraVeiculoResult(false, venda, Some(etapa), Some(mensagem));
    }

    /**
      The full purchase: reserve, issue the code, confirm the payment, record
      the pick-up. `venda` is the record returned by the last step that
      succeeded and `etapaAtual` the step being attempted; the first step that
      fails hands both to the catch block.
    */
    method ExecutarCompra(clienteId: Id, veiculoId: Id, novoId: Id, agora: nat, falhas: Falhas)
      returns (resultado: CompraVeiculoResult, ghost etapas: seq<SagaStep>)
      requires novoId !in vendasService.db.vendas
      requires vendasService.Valid()
      modifies vendasService.db, this`registros
      ensures vendasService.Valid()
      ensures var e := Compra(old(vendasService.db.Estado()), clienteId, veiculoId, novoId, agora, falhas);
        && resultado == e.resultado
        && vendasService.db.Estado() == e.db
        && registros == old(registros) + e.registros
        && etapas == e.etapas
    {
      ghost var db0 := vendasService.db.Estado();
      var venda: Option<Venda> := None;
      var etapaAtual: SagaStep;

      // 1) RESERVA
      etapaAtual := RESERVA;
      etapas := [etapaAtual];
      var r := vendasService.ReservarVeiculo(clienteId, veiculoId, novoId, falhas.reserva);
      if r.Err? {
        resultado := Falhar(venda, etapaAtual, r.erro, falhas, Completa, etapas);
        return;
      }
      venda := Some(r.valor);
      // what remains of the run, as the specification sees it
      ghost var db1 := vendasService.db.Estado();
      ghost var resto := Compra(db0, clienteId, veiculoId, novoId, agora, falhas);
      assert resto == AposReserva(db1, venda.value, agora, falhas);

      // 2) CODIGO_PAGAMENTO
      etapaAtual := CODIGO_PAGAMENTO;
      etapas := [RESERVA, CODIGO_PAGAMENTO];
      r := vendasService.GerarCodigoPagamento(venda.value.id, agora, falhas.codigo);
      if r.Err? {
        resultado := Falhar(venda, etapaAtual, r.erro, falhas, Completa, etapas);
        return;
      }
      ghost var db2 := vendasService.db.Estado();
      assert resto == AposCodigo(db2, r.valor, falhas) by {
        assert (r, db2) == GerarCodigo(db1, venda.value.id, agora, falhas.codigo);
      }
      venda := Some(r.valor);

      // 3) PAGAMENTO
      etapaAtual := PAGAMENTO;
      etapas := [RESERVA, CODIGO_PAGAMENTO, PAGAMENTO];
      r := vendasService.ConfirmarPagamento(venda.value.id, falhas.pagamento);
      if r.Err? {
        resultado := Falhar(venda, etapaAtual, r.erro, falhas, Completa, etapas);
        return;
      }
      ghost var db3 := vendasService.db.Estado();
      assert resto == AposPagamento(db3, r.valor, falhas) by {
        assert (r, db3) == ConfirmarPagamento(db2, venda.value.id, falhas.pagamento);
      }
      venda := Some(r.valor);

      // 4) RETIRADA
      etapaAtual := RETIRADA;
      etapas := [RESERVA, CODIGO_PAGAMENTO, PAGAMENTO, RETIRADA];
      r := vendasService.MarcarRetirada(venda.value.id, falhas.retirada);
      if r.Err? {
        resultado := Falhar(venda, etapaAtual, r.erro, falhas, Completa, etapas);
        return;
      }
      venda := Some(r.valor);

      resultado := CompraVeiculoResult(true, venda, None, None);
    }

    /** The partial purchase: reserve and issue the payment code. */
    method ExecutarAteCodigoPagamento(clienteId: Id, veiculoId: Id, novoId: Id, agora: nat, falhas: Falhas)
      returns (resultado: CompraVeiculoResult, ghost etapas: seq<SagaStep>)
      requires vendasService.Valid() && novoId !in vendasService.db.vendas
      modifies vendasService.db, this`registros
      ensures vendasService.Valid()
      ensures var e := AteCodigo(old(vendasService.db.Estado()), clienteId, veiculoId, novoId, agora, falhas);
        && resultado == e.resultado
        && vendasService.db.Estado() == e.db
        && registros == old(registros) + e.registros
        && etapas == e.etapas
    {
      var venda: Option<Venda> := None;
      var etapaAtual: SagaStep;

      etapaAtual := RESERVA;
      etapas := [etapaAtual];
      var r := vendasService.ReservarVeiculo(clienteId, veiculoId, novoId, falhas.reserva);
      if r.Err? {
        resultado := Falhar(venda, etapaAtual, r.erro, falhas, Parcial, etapas);
        return;
      }
      venda := Some(r.valor);

      etapaAtual := CODIGO_PAGAMENTO;
      etapas := etapas + [etapaAtual];
      r := vendasService.GerarCodigoPagamento(venda.value.id, agora, falhas.codigo);
      if r.Err? {
        resultado := Falhar(venda, etapaAtual, r.erro, falhas, Parcial, etapas);
        return;
      }
      venda := Some(r.valor);

      resultado := CompraVeiculoResult(true, venda, None, None);
    }
  }
}
