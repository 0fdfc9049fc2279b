/**
  The sale state machine: what each step of `VendasService` does to the
  store, as a function from the store before the call to the call's outcome
  and the store after it. Each step reads the records it needs, checks one
  guard on the current status and writes both tables in one atomic
  transaction, so a step that throws leaves the store as it was.

  `falha` says whether the database throws during the call, and where: at the
  first read (before any guard is checked) or at the write (after the guards
  passed). Each function's contract states its guard, its error cases and its
  effect; module `Consistencia` proves what the steps preserve.
*/
module MaquinaVendas {
  import opened Modelo
  import CodigoPagamento

  /** A step's outcome and the store after it. */
  type Passo = (Resultado<Venda>, Db)

  /** Reserve vehicle `veiculoId` for buyer `clienteId`, creating sale `novoId`. */
  function Reservar(db: Db, clienteId: Id, veiculoId: Id, novoId: Id, falha: FalhaBanco): (p: Passo)
    requires novoId !in db.vendas
    ensures p.0.Err? ==> p.1 == db
    ensures p.0.Ok? <==>
      falha.Nenhuma? && veiculoId in db.veiculos && db.veiculos[veiculoId].statusEstoque == DISPONIVEL
      && clienteId in db.clientes
    ensures !falha.NaLeitura? && veiculoId !in db.veiculos ==> p.0 == Err(VeiculoNaoEncontrado)
    ensures !falha.NaLeitura? && veiculoId in db.veiculos && db.veiculos[veiculoId].statusEstoque != DISPONIVEL ==>
      p.0 == Err(VeiculoIndisponivel)
    ensures p.0.Ok? ==>
      && p.0.valor == Venda(novoId, clienteId, veiculoId, StatusVenda.RESERVADO, None)
      && p.1.vendas == db.vendas[novoId := p.0.valor]
      && p.1.veiculos == db.veiculos[veiculoId := db.veiculos[veiculoId].(statusEstoque := StatusEstoque.RESERVADO)]
      && p.1.clientes == db.clientes
  {
    if falha.NaLeitura? then (Err(Banco(falha.mensagem)), db)
    else if veiculoId !in db.veiculos then (Err(VeiculoNaoEncontrado), db)
    else if db.veiculos[veiculoId].statusEstoque != DISPONIVEL then (Err(VeiculoIndisponivel), db)
    else if falha.NaEscrita? then (Err(Banco(falha.mensagem)), db)
    else if clienteId !in db.clientes then (Err(ClienteAusente), db)
    else
      var veiculo := db.veiculos[veiculoId].(statusEstoque := StatusEstoque.RESERVADO);
      var venda := Venda(novoId, clienteId, veiculoId, StatusVenda.RESERVADO, None);
      (Ok(venda), db.(vendas := db.vendas[novoId := venda], veiculos := db.veiculos[veiculoId := veiculo]))
  }

  /** Issue the payment code of a reserved sale at time `agora`. */
  function GerarCodigo(db: Db, vendaId: Id, agora: nat, falha: FalhaBanco): (p: Passo)
    ensures p.0.Err? ==> p.1 == db
    ensures p.0.Ok? <==>
      falha.Nenhuma? && vendaId in db.vendas && db.vendas[vendaId].status == StatusVenda.RESERVADO
    ensures !falha.NaLeitura? && vendaId !in db.vendas ==> p.0 == Err(VendaNaoEncontrada)
    ensures !falha.NaLeitura? && vendaId in db.vendas && db.vendas[vendaId].status != StatusVenda.RESERVADO ==>
      p.0 == Err(CodigoSomenteReservada)
    ensures p.0.Ok? ==>
      && p.0.valor == db.vendas[vendaId].(status := CODIGO_GERADO,
                                          codigoPagamento := Some(CodigoPagamento.Codigo(db.vendas[vendaId].id, agora)))
      && p.1 == db.(vendas := db.vendas[vendaId := p.0.valor])
  {
    if falha.NaLeitura? then (Err(Banco(falha.mensagem)), db)
    else if vendaId !in db.vendas then (Err(VendaNaoEncontrada), db)
    else
      var venda := db.vendas[vendaId];
      if venda.status != StatusVenda.RESERVADO then (Err(CodigoSomenteReservada), db)
      else if falha.NaEscrita? then (Err(Banco(falha.mensagem)), db)
      else
        var codigo := CodigoPagamento.Codigo(venda.id, agora);
        var nova := venda.(status := CODIGO_GERADO, codigoPagamento := Some(codigo));
        (Ok(nova), db.(vendas := db.vendas[vendaId := nova]))
  }

  /** Confirm the payment of a sale whose code was issued: the sale is PAGO and its vehicle VENDIDO. */
  function ConfirmarPagamento(db: Db, vendaId: Id, falha: FalhaBanco): (p: Passo)
    ensures p.0.Err? ==> p.1 == db
    ensures p.0.Ok? <==>
      falha.Nenhuma? && vendaId in db.vendas && db.vendas[vendaId].status == CODIGO_GERADO
      && db.vendas[vendaId].veiculoId in db.veiculos
    ensures !falha.NaLeitura? && vendaId !in db.vendas ==> p.0 == Err(VendaNaoEncontrada)
    ensures !falha.NaLeitura? && vendaId in db.vendas && db.vendas[vendaId].status != CODIGO_GERADO ==>
      p.0 == Err(PagamentoSomenteCodigoGerado)
    ensures p.0.Ok? ==>
      var vid := db.vendas[vendaId].veiculoId;
      && p.0.valor == db.vendas[vendaId].(status := PAGO)
      && p.1.vendas == db.vendas[vendaId := p.0.valor]
      && p.1.veiculos == db.veiculos[vid := db.veiculos[vid].(statusEstoque := VENDIDO)]
      && p.1.clientes == db.clientes
  {
    if falha.NaLeitura? then (Err(Banco(falha.mensagem)), db)
    else if vendaId !in db.vendas then (Err(VendaNaoEncontrada), db)
    else
      var venda := db.vendas[vendaId];
      if venda.status != CODIGO_GERADO then (Err(PagamentoSomenteCodigoGerado), db)
      else if falha.NaEscrita? then (Err(Banco(falha.mensagem)), db)
      else if venda.veiculoId !in db.veiculos then (Err(RegistroAusente), db)
      else
        var paga := venda.(status := PAGO);
        var vendido := db.veiculos[venda.veiculoId].(statusEstoque := VENDIDO);
        (Ok(paga), db.(vendas := db.vendas[vendaId := paga], veiculos := db.veiculos[venda.veiculoId := vendido]))
  }

  /** Record the pick-up of a paid sale; the payment code and the vehicle are left alone. */
  function MarcarRetirada(db: Db, vendaId: Id, falha: FalhaBanco): (p: Passo)
    ensures p.0.Err? ==> p.1 == db
    ensures p.0.Ok? <==> falha.Nenhuma? && vendaId in db.vendas && db.vendas[vendaId].status == PAGO
    ensures !falha.NaLeitura? && vendaId !in db.vendas ==> p.0 == Err(VendaNaoEncontrada)
    ensures !falha.NaLeitura? && vendaId in db.vendas && db.vendas[vendaId].status != PAGO ==>
      p.0 == Err(RetiradaSomentePaga)
    ensures p.0.Ok? ==>
      && p.0.valor == db.vendas[vendaId].(status := RETIRADO)
      && p.1 == db.(vendas := db.vendas[vendaId := p.0.valor])
  {
    if falha.NaLeitura? then (Err(Banco(falha.mensagem)), db)
    else if vendaId !in db.vendas then (Err(VendaNaoEncontrada), db)
    else
      var venda := db.vendas[vendaId];
      if venda.status != PAGO then (Err(RetiradaSomentePaga), db)
      else if falha.NaEscrita? then (Err(Banco(falha.mensagem)), db)
      else
        var retirada := venda.(status := RETIRADO);
        (Ok(retirada), db.(vendas := db.vendas[vendaId := retirada]))
  }

  /**
    Cancel a sale that is neither picked up nor already cancelled: the sale is
    CANCELADO and its vehicle DISPONIVEL again.
  */
  function CancelarVenda(db: Db, vendaId: Id, falha: FalhaBanco): (p: Passo)
    ensures p.0.Err? ==> p.1 == db
    ensures p.0.Ok? <==>
      falha.Nenhuma? && vendaId in db.vendas
      && db.vendas[vendaId].status !in {RETIRADO, CANCELADO}
      && db.vendas[vendaId].veiculoId in db.veiculos
    ensures !falha.NaLeitura? && vendaId !in db.vendas ==> p.0 == Err(VendaNaoEncontrada)
    ensures !falha.NaLeitura? && vendaId in db.vendas && db.vendas[vendaId].status == RETIRADO ==>
      p.0 == Err(VendaJaConcluida)
    ensures !falha.NaLeitura? && vendaId in db.vendas && db.vendas[vendaId].status == CANCELADO ==>
      p.0 == Err(VendaJaCancelada)
    ensures p.0.Ok? ==>
      var vid := db.vendas[vendaId].veiculoId;
      && p.0.valor == db.vendas[vendaId].(status := CANCELADO)
      && p.1.vendas == db.vendas[vendaId := p.0.valor]
      && p.1.veiculos == db.veiculos[vid := db.veiculos[vid].(statusEstoque := DISPONIVEL)]
      && p.1.clientes == db.clientes
  {
    if falha.NaLeitura? then (Err(Banco(falha.mensagem)), db)
    else if vendaId !in db.vendas then (Err(VendaNaoEncontrada), db)
    else
      var venda := db.vendas[vendaId];
      if venda.status == RETIRADO then (Err(VendaJaConcluida), db)
      else if venda.status == CANCELADO then (Err(VendaJaCancelada), db)
      else if falha.NaEscrita? then (Err(Banco(falha.mensagem)), db)
      else if venda.veiculoId !in db.veiculos then (Err(RegistroAusente), db)
      else
        var cancelada := venda.(status := CANCELADO);
        var liberado := db.veiculos[venda.veiculoId].(statusEstoque := DISPONIVEL);
        (Ok(cancelada), db.(vendas := db.vendas[vendaId := cancelada], veiculos := db.veiculos[venda.veiculoId := liberado]))
  }

  // ----- the transition table -----

  /** One call into the state machine, with its arguments. */
  datatype Operacao =
    | Reserva(clienteId: Id, veiculoId: Id, novoId: Id)
    | GeracaoCodigo(vendaId: Id, agora: nat)
    | Pagamento(vendaId: Id)
    | Retirada(vendaId: Id)
    | Cancelamento(vendaId: Id)

  /** A reservation needs a sale id the store has not used yet. */
  predicate Aplicavel(db: Db, op: Operacao)
  {
    op.Reserva? ==> op.novoId !in db.vendas
  }

  /** Runs one step of the state machine. */
  function Aplicar(db: Db, op: Operacao, falha: FalhaBanco): Passo
    requires Aplicavel(db, op)
  {
    match op
    case Reserva(c, v, n) => Reservar(db, c, v, n, falha)
    case GeracaoCodigo(id, agora) => GerarCodigo(db, id, agora, falha)
    case Pagamento(id) => ConfirmarPagamento(db, id, falha)
    case Retirada(id) => MarcarRetirada(db, id, falha)
    case Cancelamento(id) => CancelarVenda(db, id, falha)
  }

  /** Position of a status along the forward path. */
  function Ordem(s: StatusVenda): nat
  {
    match s
    case RESERVADO => 0
    case CODIGO_GERADO => 1
    case PAGO => 2
    case RETIRADO => 3
    case CANCELADO => 4
  }

  /** The edges of the sale lifecycle: one step forward, or a cancellation before pick-up. */
  predicate Aresta(de: StatusVenda, para: StatusVenda)
  {
    || (de == StatusVenda.RESERVADO && para == CODIGO_GERADO)
    || (de == CODIGO_GERADO && para == PAGO)
    || (de == PAGO && para == RETIRADO)
    || (de in {StatusVenda.RESERVADO, CODIGO_GERADO, PAGO} && para == CANCELADO)
  }

  /** Along an edge the status never moves backward, and nothing leaves RETIRADO or CANCELADO. */
  lemma ArestaAvanca(de: StatusVenda, para: StatusVenda)
    requires Aresta(de, para)
    ensures Ordem(de) < Ordem(para)
    ensures de != RETIRADO && de != CANCELADO
  {
  }

  /**
    Every step leaves every existing sale in place, and either keeps its status
    or moves it along one edge of the lifecycle.
  */
  lemma {:induction false} SegueArestas(db: Db, op: Operacao, falha: FalhaBanco, id: Id)
    requires Aplicavel(db, op) && id in db.vendas
    ensures var db' := Aplicar(db, op, falha).1;
      && id in db'.vendas
      && (db'.vendas[id].status == db.vendas[id].status || Aresta(db.vendas[id].status, db'.vendas[id].status))
  {
    var (r, db') := Aplicar(db, op, falha);
    if r.Ok? {
      match op
      case Reserva(c, v, n) =>
        assert id != n;
      case GeracaoCodigo(vid, agora) =>
      case Pagamento(vid) =>
      case Retirada(vid) =>
      case Cancelamento(vid) =>
    }
  }
  /**
    Two reservations of the same vehicle, one after the other: once the first
    succeeds the vehicle is no longer DISPONIVEL, so the second fails with
    "não está disponível" (or with the read fault) and changes nothing.
  */
  lemma ReservaDupla(db: Db, c1: Id, c2: Id, veiculoId: Id, n1: Id, n2: Id, falha: FalhaBanco)
    requires n1 !in db.vendas && n2 !in db.vendas && n1 != n2
    requires Reservar(db, c1, veiculoId, n1, Nenhuma).0.Ok?
    ensures var db1 := Reservar(db, c1, veiculoId, n1, Nenhuma).1;
      && n2 !in db1.vendas
      && Reservar(db1, c2, veiculoId, n2, falha).1 == db1
      && Reservar(db1, c2, veiculoId, n2, falha).0
           == if falha.NaLeitura? then Err(Banco(falha.mensagem)) else Err(VeiculoIndisponivel)
  {
  }

  /**
    Cancelling twice: after a successful cancellation the sale is CANCELADO,
    so a second cancellation fails with "já está cancelada" (or with the read
    fault) and neither the sale nor any vehicle changes again.
  */
  lemma CancelamentoDuplo(db: Db, vendaId: Id, f1: FalhaBanco, f2: FalhaBanco)
    requires CancelarVenda(db, vendaId, f1).0.Ok?
    ensures var db1 := CancelarVenda(db, vendaId, f1).1;
      && CancelarVenda(db1, vendaId, f2).1 == db1
      && CancelarVenda(db1, vendaId, f2).0
           == if f2.NaLeitura? then Err(Banco(f2.mensagem)) else Err(VendaJaCancelada)
  {
  }
}
