/**
  The four purchase steps and the cancellation, each reading the sale (or the
  vehicle), checking its guard and writing the store. Every method is proved
  to do exactly what the corresponding function of `MaquinaVendas` says, and
  to keep the invariant of `Consistencia`.

  `falha` is the fault oracle for the call (see `Modelo.FalhaBanco`); `agora`
  stands for `Date.now()`; `novoId` is the id the database assigns to a new sale.
*/
module VendasServico {
  import opened Modelo
  import opened Ordenacao
  import opened Armazenamento
  import opened VendasRepositorio
  import MaquinaVendas
  import CodigoPagamento
  import Consistencia

  class VendasService {
    const db: Banco
    const vendasRepository: VendasRepository

    ghost predicate Valid()
      reads db
    {
      vendasRepository.db == db && db.Valid()
    }

    constructor (vendasRepository: VendasRepository)
      ensures this.vendasRepository == vendasRepository && db == vendasRepository.db
    {
      this.vendasRepository := vendasRepository;
      db := vendasRepository.db;
    }

    /** Step 1: reserve an available vehicle and open a RESERVADO sale, in one transaction. */
    method ReservarVeiculo(clienteId: Id, veiculoId: Id, novoId: Id, falha: FalhaBanco) returns (r: Resultado<Venda>)
      requires Valid() && novoId !in db.vendas
      modifies db
      ensures Valid()
      ensures (r, db.Estado()) == MaquinaVendas.Reservar(old(db.Estado()), clienteId, veiculoId, novoId, falha)
      ensures old(Consistencia.Coerente(db.Estado())) ==> Consistencia.Coerente(db.Estado())
    {
      ghost var antes := db.Estado();
      if Consistencia.Coerente(antes) {
        Consistencia.ReservarPreserva(antes, clienteId, veiculoId, novoId, falha);
      }
      if falha.NaLeitura? {
        return Err(Banco(falha.mensagem));
      }
      if veiculoId !in db.veiculos {
        return Err(VeiculoNaoEncontrado);
      }
      var veiculo := db.veiculos[veiculoId];
      if veiculo.statusEstoque != DISPONIVEL {
        return Err(VeiculoIndisponivel);
      }
      // the transaction commits both writes or neither
      if falha.NaEscrita? {
        return Err(Banco(falha.mensagem));
      }
      if clienteId !in db.clientes {
        return Err(ClienteAusente);
      }
      db.veiculos := db.veiculos[veiculoId := veiculo.(statusEstoque := StatusEstoque.RESERVADO)];
      var venda := Venda(novoId, clienteId, veiculoId, StatusVenda.RESERVADO, None);
      db.vendas := db.vendas[novoId := venda];
      r := Ok(venda);
    }

    /** Step 2: issue the payment code of a RESERVADO sale; the vehicle is not touched. */
    method GerarCodigoPagamento(vendaId: Id, agora: nat, falha: FalhaBanco) returns (r: Resultado<Venda>)
      requires Valid()
      modifies db
      ensures Valid()
      ensures (r, db.Estado()) == MaquinaVendas.GerarCodigo(old(db.Estado()), vendaId, agora, falha)
      ensures old(Consistencia.Coerente(db.Estado())) ==> Consistencia.Coerente(db.Estado())
    {
      ghost var antes := db.Estado();
      if Consistencia.Coerente(antes) {
        Consistencia.GerarCodigoPreserva(antes, vendaId, agora, falha);
      }
      if falha.NaLeitura? {
        return Err(Banco(falha.mensagem));
      }
      var venda := vendasRepository.FindById(vendaId);
      if venda.None? {
        return Err(VendaNaoEncontrada);
      }
      if venda.value.status != StatusVenda.RESERVADO {
        return Err(CodigoSomenteReservada);
      }
      var codigo := CodigoPagamento.Codigo(venda.value.id, agora);
      if falha.NaEscrita? {
        return Err(Banco(falha.mensagem));
      }
      r := vendasRepository.UpdateStatus(vendaId, CODIGO_GERADO, Valor(codigo));
    }

    /** Step 3: confirm the payment; the sale becomes PAGO and its vehicle VENDIDO, in one transaction. */
    method ConfirmarPagamento(vendaId: Id, falha: FalhaBanco) returns (r: Resultado<Venda>)
      requires Valid()
      modifies db
      ensures Valid()
      ensures (r, db.Estado()) == MaquinaVendas.ConfirmarPagamento(old(db.Estado()), vendaId, falha)
      ensures old(Consistencia.Coerente(db.Estado())) ==> Consistencia.Coerente(db.Estado())
    {
      ghost var antes := db.Estado();
      if Consistencia.Coerente(antes) {
        Consistencia.ConfirmarPagamentoPreserva(antes, vendaId, falha);
      }
      if falha.NaLeitura? {
        return Err(Banco(falha.mensagem));
      }
      var venda := vendasRepository.FindById(vendaId);
      if venda.None? {
        return Err(VendaNaoEncontrada);
      }
      if venda.value.status != CODIGO_GERADO {
        return Err(PagamentoSomenteCodigoGerado);
      }
      // the transaction commits both writes or neither
      if falha.NaEscrita? {
        return Err(Banco(falha.mensagem));
      }
      var paga := db.vendas[vendaId].(status := PAGO);
      if paga.veiculoId !in db.veiculos {
        return Err(RegistroAusente);
      }
      db.vendas := db.vendas[vendaId := paga];
      db.veiculos := db.veiculos[paga.veiculoId := db.veiculos[paga.veiculoId].(statusEstoque := VENDIDO)];
      r := Ok(paga);
    }

    /** Step 4: record the pick-up of a PAGO sale; the code and the vehicle are kept. */
    method MarcarRetirada(vendaId: Id, falha: FalhaBanco) returns (r: Resultado<Venda>)
      requires Valid()
      modifies db
      ensures Valid()
      ensures (r, db.Estado()) == MaquinaVendas.MarcarRetirada(old(db.Estado()), vendaId, falha)
      ensures old(Consistencia.Coerente(db.Estado())) ==> Consistencia.Coerente(db.Estado())
    {
      ghost var antes := db.Estado();
      if Consistencia.Coerente(antes) {
        Consistencia.MarcarRetiradaPreserva(antes, vendaId, falha);
      }
      if falha.NaLeitura? {
        return Err(Banco(falha.mensagem));
      }
      var venda := vendasRepository.FindById(vendaId);
      if venda.None? {
        return Err(VendaNaoEncontrada);
      }
      if venda.value.status != PAGO {
        return Err(RetiradaSomentePaga);
      }
      if falha.NaEscrita? {
        return Err(Banco(falha.mensagem));
      }
      r := vendasRepository.UpdateStatus(vendaId, RETIRADO, Ausente);
    }

    /**
      Cancels a sale not yet picked up nor already cancelled; the vehicle goes
      back to DISPONIVEL in the same transaction. `motivo` is accepted and not stored.
    */
    method CancelarVenda(vendaId: Id, falha: FalhaBanco, motivo: Option<string> := None) returns (r: Resultado<Venda>)
      requires Valid()
      modifies db
      ensures Valid()
      ensures (r, db.Estado()) == MaquinaVendas.CancelarVenda(old(db.Estado()), vendaId, falha)
      ensures old(Consistencia.Coerente(db.Estado())) ==> Consistencia.Coerente(db.Estado())
    {
      ghost var antes := db.Estado();
      if Consistencia.Coerente(antes) {
        Consistencia.CancelarVendaPreserva(antes, vendaId, falha);
      }
      if falha.NaLeitura? {
        return Err(Banco(falha.mensagem));
      }
      var venda := vendasRepository.FindById(vendaId);
      if venda.None? {
        return Err(VendaNaoEncontrada);
      }
      if venda.value.status == RETIRADO {
        return Err(VendaJaConcluida);
      }
      if venda.value.status == CANCELADO {
        return Err(VendaJaCancelada);
      }
      // the transaction commits both writes or neither
      if falha.NaEscrita? {
        return Err(Banco(falha.mensagem));
      }
      var cancelada := db.vendas[vendaId].(status := CANCELADO);
      if cancelada.veiculoId !in db.veiculos {
        return Err(RegistroAusente);
      }
      db.vendas := db.vendas[vendaId := cancelada];
      db.veiculos := db.veiculos[cancelada.veiculoId := db.veiculos[cancelada.veiculoId].(statusEstoque := DISPONIVEL)];
      r := Ok(cancelada);
    }

    /** Every sale, or those of one status, ordered by the price of their vehicle. */
    method ListarVendas(status: Option<StatusVenda> := None) returns (r: seq<Venda>)
      requires Valid()
      ensures forall v :: multiset(r)[v] == if Listada(db.vendas, v, status) then 1 else 0
      ensures Ordenado(r, ChaveVenda(db.veiculos), Asc)
    {
      r := vendasRepository.ListByStatusOrdered(status);
    }

    /** The current record of a sale, read from the store (`falhaLeitura`: the read throws). */
    method ObterPorId(id: Id, falhaLeitura: Option<string>) returns (r: Resultado<Option<Venda>>)
      requires Valid()
      ensures falhaLeitura.Some? ==> r == Err(Banco(falhaLeitura.value))
      ensures falhaLeitura.None? ==> r.Ok? && (r.valor.None? <==> id !in db.vendas)
      ensures falhaLeitura.None? && id in db.vendas ==> r == Ok(Some(db.vendas[id]))
    {
      if falhaLeitura.Some? {
        return Err(Banco(falhaLeitura.value));
      }
      var venda := vendasRepository.FindById(id);
      r := Ok(venda);
    }
  }
}
