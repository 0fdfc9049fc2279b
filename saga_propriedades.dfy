/**
  What the purchase saga guarantees: when it succeeds, the outcome at each
  failure point (the compensation that runs, the log it writes, the message
  it reports), and that no run leaves the store incoherent.
*/
module SagaPropriedades {
  import opened Modelo
  import opened MaquinaVendas
  import opened Saga
  import CodigoPagamento
  import Consistencia

  const TODAS: seq<SagaStep> := [RESERVA, CODIGO_PAGAMENTO, PAGAMENTO, RETIRADA]

  /** Reservation succeeds exactly when nothing faults, the vehicle is DISPONIVEL and the buyer exists. */
  predicate ReservaPossivel(db: Db, clienteId: Id, veiculoId: Id, falhas: Falhas)
  {
    falhas.reserva.Nenhuma? && veiculoId in db.veiculos && db.veiculos[veiculoId].statusEstoque == DISPONIVEL
    && clienteId in db.clientes
  }

  /**
    Compensation of a sale whose status does not block cancellation: a failed
    re-read or a failed cancellation is logged and changes nothing; otherwise
    the sale is CANCELADO and its vehicle DISPONIVEL, and nothing is logged.
  */
  lemma CompensacaoCancela(db: Db, id: Id, etapa: SagaStep, mensagem: string, falhas: Falhas, variante: Variante)
    requires id in db.vendas && !BloqueiaCancelamento(variante, db.vendas[id].status)
    requires db.vendas[id].veiculoId in db.veiculos
    ensures falhas.releitura.Some? ==>
      Compensacao(db, id, etapa, mensagem, falhas, variante)
        == (db, [RegistroFalhaCompensacao(variante, id, mensagem, falhas.releitura.value)])
    ensures falhas.releitura.None? && !falhas.cancelamento.Nenhuma? ==>
      Compensacao(db, id, etapa, mensagem, falhas, variante)
        == (db, [RegistroFalhaCompensacao(variante, id, mensagem, falhas.cancelamento.mensagem)])
    ensures falhas.releitura.None? && falhas.cancelamento.Nenhuma? ==>
      var (db', registros) := Compensacao(db, id, etapa, mensagem, falhas, variante);
      var v := db.vendas[id].veiculoId;
      && registros == []
      && db' == Db(db.vendas[id := db.vendas[id].(status := CANCELADO)],
                   db.veiculos[v := db.veiculos[v].(statusEstoque := DISPONIVEL)],
                   db.clientes)
  {
  }

  /**
    The two compensation policies part ways on a PAGO sale: the full saga
    leaves it paid and writes a critical log, the partial one cancels it.
  */
  lemma PoliticasDivergem(db: Db, id: Id, etapa: SagaStep, mensagem: string, falhas: Falhas)
    requires id in db.vendas && db.vendas[id].status == PAGO && db.vendas[id].veiculoId in db.veiculos
    requires falhas.releitura.None? && falhas.cancelamento.Nenhuma?
    ensures Compensacao(db, id, etapa, mensagem, falhas, Completa) == (db, [SagaCritica(id, etapa, mensagem)])
    ensures var (db', registros) := Compensacao(db, id, etapa, mensagem, falhas, Parcial);
      && registros == []
      && db'.vendas[id].status == CANCELADO
      && db'.veiculos[db.vendas[id].veiculoId].statusEstoque == DISPONIVEL
  {
    CompensacaoCancela(db, id, etapa, mensagem, falhas, Parcial);
  }

  /**
    The full saga succeeds exactly when the reservation is possible and none
    of the three later steps faults; it then leaves the sale RETIRADO with the
    code issued at `agora`, the vehicle VENDIDO and no log.
  */
  lemma CompraSucesso(db: Db, clienteId: Id, veiculoId: Id, novoId: Id, agora: nat, falhas: Falhas)
    requires novoId !in db.vendas
    ensures var e := Compra(db, clienteId, veiculoId, novoId, agora, falhas);
      e.resultado.sucesso <==>
        ReservaPossivel(db, clienteId, veiculoId, falhas)
        && falhas.codigo.Nenhuma? && falhas.pagamento.Nenhuma? && falhas.retirada.Nenhuma?
    ensures var e := Compra(db, clienteId, veiculoId, novoId, agora, falhas);
      e.resultado.sucesso ==>
        var venda := Venda(novoId, clienteId, veiculoId, RETIRADO, Some(CodigoPagamento.Codigo(novoId, agora)));
        && e.resultado == CompraVeiculoResult(true, Some(venda), None, None)
        && e.db.vendas == db.vendas[novoId := venda]
        && e.db.veiculos == db.veiculos[veiculoId := db.veiculos[veiculoId].(statusEstoque := VENDIDO)]
        && e.registros == []
        && e.etapas == TODAS
  {
    var (r1, db1) := Reservar(db, clienteId, veiculoId, novoId, falhas.reserva);
    if r1.Ok? {
      assert Compra(db, clienteId, veiculoId, novoId, agora, falhas) == AposReserva(db1, r1.valor, agora, falhas);
      var (r2, db2) := GerarCodigo(db1, novoId, agora, falhas.codigo);
      if r2.Ok? {
        assert AposReserva(db1, r1.valor, agora, falhas) == AposCodigo(db2, r2.valor, falhas);
        var (r3, db3) := ConfirmarPagamento(db2, novoId, falhas.pagamento);
        assert db2.vendas[novoId].veiculoId == veiculoId;
        if r3.Ok? {
          assert AposCodigo(db2, r2.valor, falhas) == AposPagamento(db3, r3.valor, falhas);
          var (r4, db4) := MarcarRetirada(db3, novoId, falhas.retirada);
          assert r4.Ok? <==> falhas.retirada.Nenhuma?;
        }
      }
    }
  }

  /** A failed reservation reports RESERVA and its error, and changes and logs nothing. */
  lemma FalhaNaReserva(db: Db, clienteId: Id, veiculoId: Id, novoId: Id, agora: nat, falhas: Falhas)
    requires novoId !in db.vendas && !ReservaPossivel(db, clienteId, veiculoId, falhas)
    ensures var r := Reservar(db, clienteId, veiculoId, novoId, falhas.reserva).0;
      && r.Err?
      && Compra(db, clienteId, veiculoId, novoId, agora, falhas)
           == Execucao(CompraVeiculoResult(false, None, Some(RESERVA), Some(r.erro.Message())), db, [], [RESERVA])
  {
  }

  /**
    A fault while issuing the code: the result carries the RESERVADO sale,
    CODIGO_PAGAMENTO and the fault's own message. If compensation goes through,
    the sale is CANCELADO and the vehicle DISPONIVEL again; if the re-read or
    the cancellation faults, that is logged and the sale stays RESERVADO.
  */
  lemma FalhaNoCodigo(db: Db, clienteId: Id, veiculoId: Id, novoId: Id, agora: nat, falhas: Falhas)
    requires novoId !in db.vendas && novoId != ""
    requires ReservaPossivel(db, clienteId, veiculoId, falhas) && !falhas.codigo.Nenhuma?
    ensures var e := Compra(db, clienteId, veiculoId, novoId, agora, falhas);
      && e.resultado == CompraVeiculoResult(false, Some(Venda(novoId, clienteId, veiculoId, StatusVenda.RESERVADO, None)),
                                            Some(CODIGO_PAGAMENTO), Some(falhas.codigo.mensagem))
      && e.etapas == [RESERVA, CODIGO_PAGAMENTO]
    ensures var e := Compra(db, clienteId, veiculoId, novoId, agora, falhas);
      falhas.releitura.None? && falhas.cancelamento.Nenhuma? ==>
        && e.registros == []
        && e.db == db.(vendas := db.vendas[novoId := Venda(novoId, clienteId, veiculoId, CANCELADO, None)])
    ensures var e := Compra(db, clienteId, veiculoId, novoId, agora, falhas);
      falhas.releitura.Some? ==>
        && e.registros == [CompensacaoFalhou(novoId, falhas.codigo.mensagem, falhas.releitura.value)]
        && e.db.vendas[novoId].status == StatusVenda.RESERVADO
    ensures var e := Compra(db, clienteId, veiculoId, novoId, agora, falhas);
      falhas.releitura.None? && !falhas.cancelamento.Nenhuma? ==>
        && e.registros == [CompensacaoFalhou(novoId, falhas.codigo.mensagem, falhas.cancelamento.mensagem)]
        && e.db.vendas[novoId].status == StatusVenda.RESERVADO
  {
    var (r1, db1) := Reservar(db, clienteId, veiculoId, novoId, falhas.reserva);
    CompensacaoCancela(db1, novoId, CODIGO_PAGAMENTO, falhas.codigo.mensagem, falhas, Completa);
  }

  /**
    A fault while confirming the payment: the result carries the sale with its
    code, PAGAMENTO and the fault's message; a successful compensation cancels
    the sale and releases the vehicle, a failed one is logged.
  */
  lemma FalhaNoPagamento(db: Db, clienteId: Id, veiculoId: Id, novoId: Id, agora: nat, falhas: Falhas)
    requires novoId !in db.vendas && novoId != ""
    requires ReservaPossivel(db, clienteId, veiculoId, falhas)
    requires falhas.codigo.Nenhuma? && !falhas.pagamento.Nenhuma?
    ensures var e := Compra(db, clienteId, veiculoId, novoId, agora, falhas);
      var comCodigo := Venda(novoId, clienteId, veiculoId, CODIGO_GERADO, Some(CodigoPagamento.Codigo(novoId, agora)));
      && e.resultado == CompraVeiculoResult(false, Some(comCodigo), Some(PAGAMENTO), Some(falhas.pagamento.mensagem))
      && e.etapas == [RESERVA, CODIGO_PAGAMENTO, PAGAMENTO]
    ensures var e := Compra(db, clienteId, veiculoId, novoId, agora, falhas);
      falhas.releitura.None? && falhas.cancelamento.Nenhuma? ==>
        && e.registros == []
        && e.db == db.(vendas := db.vendas[novoId := Venda(novoId, clienteId, veiculoId, CANCELADO,
                                                           Some(CodigoPagamento.Codigo(novoId, agora)))])
    ensures var e := Compra(db, clienteId, veiculoId, novoId, agora, falhas);
      falhas.releitura.Some? ==>
        && e.registros == [CompensacaoFalhou(novoId, falhas.pagamento.mensagem, falhas.releitura.value)]
        && e.db.vendas[novoId].status == CODIGO_GERADO
    ensures var e := Compra(db, clienteId, veiculoId, novoId, agora, falhas);
      falhas.releitura.None? && !falhas.cancelamento.Nenhuma? ==>
        && e.registros == [CompensacaoFalhou(novoId, falhas.pagamento.mensagem, falhas.cancelamento.mensagem)]
        && e.db.vendas[novoId].status == CODIGO_GERADO
  {
    var codigo := CodigoPagamento.Codigo(novoId, agora);
    var db2 := db.(vendas := db.vendas[novoId := Venda(novoId, clienteId, veiculoId, CODIGO_GERADO, Some(codigo))],
                   veiculos := db.veiculos[veiculoId := db.veiculos[veiculoId].(statusEstoque := StatusEstoque.RESERVADO)]);
    CompraAtePagamento(db, clienteId, veiculoId, novoId, agora, falhas);
    CompensacaoCancela(db2, novoId, PAGAMENTO, falhas.pagamento.mensagem, falhas, Completa);
    assert db2.veiculos[veiculoId := db2.veiculos[veiculoId].(statusEstoque := DISPONIVEL)] == db.veiculos;
  }

  /** With reservation and code issued, the full saga continues at the payment of the sale with its code. */
  lemma CompraAteCodigo(db: Db, clienteId: Id, veiculoId: Id, novoId: Id, agora: nat, falhas: Falhas)
    requires novoId !in db.vendas
    requires ReservaPossivel(db, clienteId, veiculoId, falhas) && falhas.codigo.Nenhuma?
    ensures Compra(db, clienteId, veiculoId, novoId, agora, falhas)
         == AposCodigo(db.(vendas := db.vendas[novoId := Venda(novoId, clienteId, veiculoId, CODIGO_GERADO,
                                                               Some(CodigoPagamento.Codigo(novoId, agora)))],
                           veiculos := db.veiculos[veiculoId := db.veiculos[veiculoId].(statusEstoque := StatusEstoque.RESERVADO)]),
                       Venda(novoId, clienteId, veiculoId, CODIGO_GERADO, Some(CodigoPagamento.Codigo(novoId, agora))),
                       falhas)
  {
    var reservada := Venda(novoId, clienteId, veiculoId, StatusVenda.RESERVADO, None);
    var comCodigo := reservada.(status := CODIGO_GERADO, codigoPagamento := Some(CodigoPagamento.Codigo(novoId, agora)));
    var veiculos' := db.veiculos[veiculoId := db.veiculos[veiculoId].(statusEstoque := StatusEstoque.RESERVADO)];
    var (r1, db1) := Reservar(db, clienteId, veiculoId, novoId, falhas.reserva);
    assert r1 == Ok(reservada) && db1 == db.(vendas := db.vendas[novoId := reservada], veiculos := veiculos');
    var (r2, db2) := GerarCodigo(db1, novoId, agora, falhas.codigo);
    assert r2 == Ok(comCodigo) && db2 == db.(vendas := db.vendas[novoId := comCodigo], veiculos := veiculos');
  }

  /** With the payment step faulting, the full saga is the compensation of the sale with its code. */
  lemma CompraAtePagamento(db: Db, clienteId: Id, veiculoId: Id, novoId: Id, agora: nat, falhas: Falhas)
    requires novoId !in db.vendas && novoId != ""
    requires ReservaPossivel(db, clienteId, veiculoId, falhas)
    requires falhas.codigo.Nenhuma? && !falhas.pagamento.Nenhuma?
    ensures var comCodigo := Venda(novoId, clienteId, veiculoId, CODIGO_GERADO, Some(CodigoPagamento.Codigo(novoId, agora)));
      var db2 := db.(vendas := db.vendas[novoId := comCodigo],
                     veiculos := db.veiculos[veiculoId := db.veiculos[veiculoId].(statusEstoque := StatusEstoque.RESERVADO)]);
      var (db', registros) := Compensacao(db2, novoId, PAGAMENTO, falhas.pagamento.mensagem, falhas, Completa);
      Compra(db, clienteId, veiculoId, novoId, agora, falhas)
        == Execucao(CompraVeiculoResult(false, Some(comCodigo), Some(PAGAMENTO), Some(falhas.pagamento.mensagem)),
                    db', registros, [RESERVA, CODIGO_PAGAMENTO, PAGAMENTO])
  {
    var comCodigo := Venda(novoId, clienteId, veiculoId, CODIGO_GERADO, Some(CodigoPagamento.Codigo(novoId, agora)));
    var db2 := db.(vendas := db.vendas[novoId := comCodigo],
                   veiculos := db.veiculos[veiculoId := db.veiculos[veiculoId].(statusEstoque := StatusEstoque.RESERVADO)]);
    CompraAteCodigo(db, clienteId, veiculoId, novoId, agora, falhas);
    var (r3, db3) := ConfirmarPagamento(db2, novoId, falhas.pagamento);
    assert r3.Err? && db3 == db2 && r3.erro.Message() == falhas.pagamento.mensagem;
  }



  /**
    A fault while recording the pick-up: the payment stays confirmed (sale
    PAGO, vehicle VENDIDO), a critical log names the sale and the step, and no
    cancellation is attempted, so the cancellation's fault oracle is irrelevant.
  */
  lemma FalhaNaRetirada(db: Db, clienteId: Id, veiculoId: Id, novoId: Id, agora: nat, falhas: Falhas, outra: FalhaBanco)
    requires novoId !in db.vendas && novoId != ""
    requires ReservaPossivel(db, clienteId, veiculoId, falhas)
    requires falhas.codigo.Nenhuma? && falhas.pagamento.Nenhuma? && !falhas.retirada.Nenhuma?
    ensures var e := Compra(db, clienteId, veiculoId, novoId, agora, falhas);
      var paga := Venda(novoId, clienteId, veiculoId, PAGO, Some(CodigoPagamento.Codigo(novoId, agora)));
      && e.resultado == CompraVeiculoResult(false, Some(paga), Some(RETIRADA), Some(falhas.retirada.mensagem))
      && e.etapas == TODAS
      && e.db.vendas[novoId] == paga
      && e.db.veiculos[veiculoId].statusEstoque == VENDIDO
    ensures var e := Compra(db, clienteId, veiculoId, novoId, agora, falhas);
      falhas.releitura.None? ==> e.registros == [SagaCritica(novoId, RETIRADA, falhas.retirada.mensagem)]
    ensures var e := Compra(db, clienteId, veiculoId, novoId, agora, falhas);
      falhas.releitura.Some? ==>
        e.registros == [CompensacaoFalhou(novoId, falhas.retirada.mensagem, falhas.releitura.value)]
    ensures Compra(db, clienteId, veiculoId, novoId, agora, falhas)
         == Compra(db, clienteId, veiculoId, novoId, agora, falhas.(cancelamento := outra))
  {
    var paga := Venda(novoId, clienteId, veiculoId, PAGO, Some(CodigoPagamento.Codigo(novoId, agora)));
    var db3 := db.(vendas := db.vendas[novoId := paga],
                   veiculos := db.veiculos[veiculoId := db.veiculos[veiculoId].(statusEstoque := VENDIDO)]);
    CompraAteRetirada(db, clienteId, veiculoId, novoId, agora, falhas);
    CompraAteRetirada(db, clienteId, veiculoId, novoId, agora, falhas.(cancelamento := outra));
    assert db3.vendas[novoId] == paga;
  }

  /** With the pick-up step faulting, the full saga is the compensation of the paid sale. */
  lemma CompraAteRetirada(db: Db, clienteId: Id, veiculoId: Id, novoId: Id, agora: nat, falhas: Falhas)
    requires novoId !in db.vendas && novoId != ""
    requires ReservaPossivel(db, clienteId, veiculoId, falhas)
    requires falhas.codigo.Nenhuma? && falhas.pagamento.Nenhuma? && !falhas.retirada.Nenhuma?
    ensures var paga := Venda(novoId, clienteId, veiculoId, PAGO, Some(CodigoPagamento.Codigo(novoId, agora)));
      var db3 := db.(vendas := db.vendas[novoId := paga],
                     veiculos := db.veiculos[veiculoId := db.veiculos[veiculoId].(statusEstoque := VENDIDO)]);
      var (db', registros) := Compensacao(db3, novoId, RETIRADA, falhas.retirada.mensagem, falhas, Completa);
      Compra(db, clienteId, veiculoId, novoId, agora, falhas)
        == Execucao(CompraVeiculoResult(false, Some(paga), Some(RETIRADA), Some(falhas.retirada.mensagem)),
                    db', registros, TODAS)
  {
    var paga := Venda(novoId, clienteId, veiculoId, PAGO, Some(CodigoPagamento.Codigo(novoId, agora)));
    var db3 := db.(vendas := db.vendas[novoId := paga],
                   veiculos := db.veiculos[veiculoId := db.veiculos[veiculoId].(statusEstoque := VENDIDO)]);
    CompraAtePago(db, clienteId, veiculoId, novoId, agora, falhas);
    var (r4, db4) := MarcarRetirada(db3, novoId, falhas.retirada);
    assert r4.Err? && db4 == db3 && r4.erro.Message() == falhas.retirada.mensagem;
    assert AposPagamento(db3, paga, falhas) == Desfecho(db3, Some(paga), RETIRADA, r4.erro, falhas, Completa, TODAS);
  }

  /** With reservation, code and payment done, the full saga continues at the pick-up of the paid sale. */
  lemma CompraAtePago(db: Db, clienteId: Id, veiculoId: Id, novoId: Id, agora: nat, falhas: Falhas)
    requires novoId !in db.vendas
    requires ReservaPossivel(db, clienteId, veiculoId, falhas)
    requires falhas.codigo.Nenhuma? && falhas.pagamento.Nenhuma?
    ensures Compra(db, clienteId, veiculoId, novoId, agora, falhas)
         == AposPagamento(db.(vendas := db.vendas[novoId := Venda(novoId, clienteId, veiculoId, PAGO,
                                                                  Some(CodigoPagamento.Codigo(novoId, agora)))],
                              veiculos := db.veiculos[veiculoId := db.veiculos[veiculoId].(statusEstoque := VENDIDO)]),
                          Venda(novoId, clienteId, veiculoId, PAGO, Some(CodigoPagamento.Codigo(novoId, agora))),
                          falhas)
  {
    var comCodigo := Venda(novoId, clienteId, veiculoId, CODIGO_GERADO, Some(CodigoPagamento.Codigo(novoId, agora)));
    var paga := comCodigo.(status := PAGO);
    var db2 := db.(vendas := db.vendas[novoId := comCodigo],
                   veiculos := db.veiculos[veiculoId := db.veiculos[veiculoId].(statusEstoque := StatusEstoque.RESERVADO)]);
    var db3 := db.(vendas := db.vendas[novoId := paga],
                   veiculos := db.veiculos[veiculoId := db.veiculos[veiculoId].(statusEstoque := VENDIDO)]);
    CompraAteCodigo(db, clienteId, veiculoId, novoId, agora, falhas);
    var (r3, db3') := ConfirmarPagamento(db2, novoId, falhas.pagamento);
    assert db2.vendas[novoId := paga] == db3.vendas;
    assert db2.veiculos[veiculoId := db2.veiculos[veiculoId].(statusEstoque := VENDIDO)] == db3.veiculos;
    assert r3 == Ok(paga) && db3' == db3;
  }



  /**
    Compensation is keyed on a truthy sale id: with an empty id a failure
    after the reservation compensates nothing, and the reservation stays.
  */
  lemma IdVazioNaoCompensa(db: Db, clienteId: Id, veiculoId: Id, agora: nat, falhas: Falhas)
    requires "" !in db.vendas
    requires ReservaPossivel(db, clienteId, veiculoId, falhas) && !falhas.codigo.Nenhuma?
    ensures var e := Compra(db, clienteId, veiculoId, "", agora, falhas);
      && !e.resultado.sucesso
      && e.registros == []
      && e.db.vendas[""].status == StatusVenda.RESERVADO
      && e.db.veiculos[veiculoId].statusEstoque == StatusEstoque.RESERVADO
  {
  }

  /**
    The steps attempted are a non-empty prefix of the four; a failed run
    reports the last of them, a successful one all four and no failure.
  */
  lemma EtapasDaCompra(db: Db, clienteId: Id, veiculoId: Id, novoId: Id, agora: nat, falhas: Falhas)
    requires novoId !in db.vendas
    ensures var e := Compra(db, clienteId, veiculoId, novoId, agora, falhas);
      && 1 <= |e.etapas| <= |TODAS|
      && e.etapas == TODAS[..|e.etapas|]
      && (e.resultado.sucesso ==> e.etapas == TODAS && e.resultado.etapaFalha.None? && e.resultado.motivoFalha.None?)
      && (!e.resultado.sucesso ==> e.resultado.etapaFalha == Some(e.etapas[|e.etapas| - 1]) && e.resultado.motivoFalha.Some?)
  {
    var (r1, db1) := Reservar(db, clienteId, veiculoId, novoId, falhas.reserva);
    if r1.Ok? {
      var (r2, db2) := GerarCodigo(db1, r1.valor.id, agora, falhas.codigo);
      if r2.Ok? {
        var (r3, db3) := ConfirmarPagamento(db2, r2.valor.id, falhas.pagamento);
        if r3.Ok? {
          var (r4, db4) := MarcarRetirada(db3, r3.valor.id, falhas.retirada);
        }
      }
    }
  }

  /** A compensation keeps the store coherent. */
  lemma CompensacaoPreserva(db: Db, id: Id, etapa: SagaStep, mensagem: string, falhas: Falhas, variante: Variante)
    requires Consistencia.Coerente(db)
    ensures Consistencia.Coerente(Compensacao(db, id, etapa, mensagem, falhas, variante).0)
  {
    if falhas.releitura.None? && id in db.vendas && !BloqueiaCancelamento(variante, db.vendas[id].status) {
      Consistencia.CancelarVendaPreserva(db, id, falhas.cancelamento);
    }
  }

  /** The pick-up step and its compensation keep the store coherent. */
  lemma AposPagamentoPreserva(db: Db, venda: Venda, falhas: Falhas)
    requires Consistencia.Coerente(db)
    ensures Consistencia.Coerente(AposPagamento(db, venda, falhas).db)
  {
    var (r, db') := MarcarRetirada(db, venda.id, falhas.retirada);
    Consistencia.MarcarRetiradaPreserva(db, venda.id, falhas.retirada);
    if r.Err? && venda.id != "" {
      CompensacaoPreserva(db', venda.id, RETIRADA, r.erro.Message(), falhas, Completa);
    }
  }

  /** The payment step, what follows it and its compensation keep the store coherent. */
  lemma AposCodigoPreserva(db: Db, venda: Venda, falhas: Falhas)
    requires Consistencia.Coerente(db)
    ensures Consistencia.Coerente(AposCodigo(db, venda, falhas).db)
  {
    var (r, db') := ConfirmarPagamento(db, venda.id, falhas.pagamento);
    Consistencia.ConfirmarPagamentoPreserva(db, venda.id, falhas.pagamento);
    if r.Err? {
      if venda.id != "" {
        CompensacaoPreserva(db', venda.id, PAGAMENTO, r.erro.Message(), falhas, Completa);
      }
    } else {
      AposPagamentoPreserva(db', r.valor, falhas);
    }
  }

  /** The code step, what follows it and its compensation keep the store coherent. */
  lemma AposReservaPreserva(db: Db, venda: Venda, agora: nat, falhas: Falhas)
    requires Consistencia.Coerente(db)
    ensures Consistencia.Coerente(AposReserva(db, venda, agora, falhas).db)
  {
    var (r, db') := GerarCodigo(db, venda.id, agora, falhas.codigo);
    Consistencia.GerarCodigoPreserva(db, venda.id, agora, falhas.codigo);
    if r.Err? {
      if venda.id != "" {
        CompensacaoPreserva(db', venda.id, CODIGO_PAGAMENTO, r.erro.Message(), falhas, Completa);
      }
    } else {
      AposCodigoPreserva(db', r.valor, falhas);
    }
  }

  /** Whatever faults occur, a run of the full saga keeps the store coherent. */
  lemma CompraPreserva(db: Db, clienteId: Id, veiculoId: Id, novoId: Id, agora: nat, falhas: Falhas)
    requires Consistencia.Coerente(db) && novoId !in db.vendas
    ensures Consistencia.Coerente(Compra(db, clienteId, veiculoId, novoId, agora, falhas).db)
  {
    var (r, db') := Reservar(db, clienteId, veiculoId, novoId, falhas.reserva);
    Consistencia.ReservarPreserva(db, clienteId, veiculoId, novoId, falhas.reserva);
    if r.Ok? {
      AposReservaPreserva(db', r.valor, agora, falhas);
    }
  }

  /**
    The partial saga succeeds exactly when the reservation is possible and the
    code step does not fault; the sale is then CODIGO_GERADO with the code
    issued at `agora` and the vehicle still RESERVADO.
  */
  lemma AteCodigoSucesso(db: Db, clienteId: Id, veiculoId: Id, novoId: Id, agora: nat, falhas: Falhas)
    requires novoId !in db.vendas
    ensures var e := AteCodigo(db, clienteId, veiculoId, novoId, agora, falhas);
      e.resultado.sucesso <==> ReservaPossivel(db, clienteId, veiculoId, falhas) && falhas.codigo.Nenhuma?
    ensures var e := AteCodigo(db, clienteId, veiculoId, novoId, agora, falhas);
      e.resultado.sucesso ==>
        var venda := Venda(novoId, clienteId, veiculoId, CODIGO_GERADO, Some(CodigoPagamento.Codigo(novoId, agora)));
        && e.resultado == CompraVeiculoResult(true, Some(venda), None, None)
        && e.db.vendas == db.vendas[novoId := venda]
        && e.db.veiculos == db.veiculos[veiculoId := db.veiculos[veiculoId].(statusEstoque := StatusEstoque.RESERVADO)]
        && e.registros == []
        && e.etapas == [RESERVA, CODIGO_PAGAMENTO]
  {
  }

  /**
    A fault while issuing the code in the partial saga: compensation cancels
    the sale and releases the vehicle, or logs its own failure under the
    partial-saga label; the reported message is the original one.
  */
  lemma AteCodigoFalhaNoCodigo(db: Db, clienteId: Id, veiculoId: Id, novoId: Id, agora: nat, falhas: Falhas)
    requires novoId !in db.vendas && novoId != ""
    requires ReservaPossivel(db, clienteId, veiculoId, falhas) && !falhas.codigo.Nenhuma?
    ensures var e := AteCodigo(db, clienteId, veiculoId, novoId, agora, falhas);
      && e.resultado == CompraVeiculoResult(false, Some(Venda(novoId, clienteId, veiculoId, StatusVenda.RESERVADO, None)),
                                            Some(CODIGO_PAGAMENTO), Some(falhas.codigo.mensagem))
      && e.etapas == [RESERVA, CODIGO_PAGAMENTO]
    ensures var e := AteCodigo(db, clienteId, veiculoId, novoId, agora, falhas);
      falhas.releitura.None? && falhas.cancelamento.Nenhuma? ==>
        && e.registros == []
        && e.db == db.(vendas := db.vendas[novoId := Venda(novoId, clienteId, veiculoId, CANCELADO, None)])
    ensures var e := AteCodigo(db, clienteId, veiculoId, novoId, agora, falhas);
      falhas.releitura.Some? ==>
        && e.registros == [CompensacaoParcialFalhou(novoId, falhas.codigo.mensagem, falhas.releitura.value)]
        && e.db.vendas[novoId].status == StatusVenda.RESERVADO
    ensures var e := AteCodigo(db, clienteId, veiculoId, novoId, agora, falhas);
      falhas.releitura.None? && !falhas.cancelamento.Nenhuma? ==>
        && e.registros == [CompensacaoParcialFalhou(novoId, falhas.codigo.mensagem, falhas.cancelamento.mensagem)]
        && e.db.vendas[novoId].status == StatusVenda.RESERVADO
  {
    var (r1, db1) := Reservar(db, clienteId, veiculoId, novoId, falhas.reserva);
    CompensacaoCancela(db1, novoId, CODIGO_PAGAMENTO, falhas.codigo.mensagem, falhas, Parcial);
  }

  /** Whatever faults occur, a run of the partial saga keeps the store coherent. */
  lemma AteCodigoPreserva(db: Db, clienteId: Id, veiculoId: Id, novoId: Id, agora: nat, falhas: Falhas)
    requires Consistencia.Coerente(db) && novoId !in db.vendas
    ensures Consistencia.Coerente(AteCodigo(db, clienteId, veiculoId, novoId, agora, falhas).db)
  {
    var (r1, db1) := Reservar(db, clienteId, veiculoId, novoId, falhas.reserva);
    Consistencia.ReservarPreserva(db, clienteId, veiculoId, novoId, falhas.reserva);
    if r1.Err? {
      return;
    }
    var (r2, db2) := GerarCodigo(db1, novoId, agora, falhas.codigo);
    Consistencia.GerarCodigoPreserva(db1, novoId, agora, falhas.codigo);
    if r2.Err? {
      CompensacaoPreserva(db2, novoId, CODIGO_PAGAMENTO, r2.erro.Message(), falhas, Parcial);
    }
  }
  /**
    Running the four service steps one by one, with no fault, ends in the same
    store and the same RETIRADO sale as one fault-free run of the full saga.
  */
  lemma PassoAPassoIgualCompra(db: Db, clienteId: Id, veiculoId: Id, novoId: Id, agora: nat, falhas: Falhas)
    requires novoId !in db.vendas && ReservaPossivel(db, clienteId, veiculoId, falhas)
    requires falhas.codigo.Nenhuma? && falhas.pagamento.Nenhuma? && falhas.retirada.Nenhuma?
    ensures var (r1, db1) := Reservar(db, clienteId, veiculoId, novoId, Nenhuma);
      var (r2, db2) := GerarCodigo(db1, novoId, agora, Nenhuma);
      var (r3, db3) := ConfirmarPagamento(db2, novoId, Nenhuma);
      var (r4, db4) := MarcarRetirada(db3, novoId, Nenhuma);
      var e := Compra(db, clienteId, veiculoId, novoId, agora, falhas);
      && r1.Ok? && r2.Ok? && r3.Ok? && r4.Ok?
      && e.resultado.sucesso && e.resultado.venda == Some(r4.valor)
      && e.db == db4
  {
    CompraSucesso(db, clienteId, veiculoId, novoId, agora, falhas);
    var (r1, db1) := Reservar(db, clienteId, veiculoId, novoId, Nenhuma);
    var (r2, db2) := GerarCodigo(db1, novoId, agora, Nenhuma);
    assert db2.vendas[novoId].veiculoId == veiculoId;
  }
}
