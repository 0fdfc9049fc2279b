/**
  The cross-entity invariant of the purchase flow: a vehicle's stock status
  always agrees with the sale (if any) that holds it, at most one live sale
  holds a vehicle, and a sale carries a payment code exactly from
  CODIGO_GERADO onward. Every step of the state machine and every vehicle
  write of the services preserves it.
*/
module Consistencia {
  import opened Modelo
  import opened MaquinaVendas
  import VeiculosRepositorio

  /** A sale that still holds its vehicle. */
  predicate Ativa(v: Venda)
  {
    v.status != CANCELADO
  }

  /** The stock status the vehicle of a live sale in status `s` must have. */
  function EstoqueDe(s: StatusVenda): StatusEstoque
  {
    match s
    case RESERVADO => StatusEstoque.RESERVADO
    case CODIGO_GERADO => StatusEstoque.RESERVADO
    case PAGO => VENDIDO
    case RETIRADO => VENDIDO
    case CANCELADO => DISPONIVEL
  }

  /** No code while RESERVADO; a code from CODIGO_GERADO onward (a cancelled sale keeps what it had). */
  predicate CodigoCoerente(v: Venda)
  {
    && (v.status == StatusVenda.RESERVADO ==> v.codigoPagamento.None?)
    && (v.status in {CODIGO_GERADO, PAGO, RETIRADO} ==> v.codigoPagamento.Some?)
  }

  /** Each live sale's vehicle is in the stock status its sale status implies. */
  ghost predicate EstoqueAcompanha(db: Db)
    requires Integro(db)
  {
    forall id | id in db.vendas && Ativa(db.vendas[id]) ::
      db.veiculos[db.vendas[id].veiculoId].statusEstoque == EstoqueDe(db.vendas[id].status)
  }

  /** No two live sales hold the same vehicle. */
  ghost predicate UmaVendaPorVeiculo(db: Db)
  {
    forall a, b | a in db.vendas && b in db.vendas && Ativa(db.vendas[a]) && Ativa(db.vendas[b])
                  && db.vendas[a].veiculoId == db.vendas[b].veiculoId :: a == b
  }

  /** `vid` is held by some live sale. */
  ghost predicate Detido(db: Db, vid: Id)
  {
    exists id :: id in db.vendas && Ativa(db.vendas[id]) && db.vendas[id].veiculoId == vid
  }

  /** A vehicle is RESERVADO or VENDIDO only while a live sale holds it. */
  ghost predicate SemReservaOrfa(db: Db)
  {
    forall vid | vid in db.veiculos && db.veiculos[vid].statusEstoque != DISPONIVEL :: Detido(db, vid)
  }

  ghost predicate Coerente(db: Db)
  {
    && Integro(db)
    && (forall id | id in db.vendas :: CodigoCoerente(db.vendas[id]))
    && EstoqueAcompanha(db)
    && UmaVendaPorVeiculo(db)
    && SemReservaOrfa(db)
  }

  /** The empty store the application starts from is coherent. */
  lemma InicialCoerente(clientes: set<Id>)
    ensures Coerente(Db(map[], map[], clientes))
  {
  }

  /**
    Under the invariant, a vehicle is VENDIDO exactly when a PAGO or RETIRADO
    sale refers to it, and DISPONIVEL exactly when no live sale does.
  */
  lemma VendidoSeVendaPaga(db: Db, vid: Id)
    requires Coerente(db) && vid in db.veiculos
    ensures db.veiculos[vid].statusEstoque == VENDIDO <==>
      exists id :: id in db.vendas && db.vendas[id].veiculoId == vid && db.vendas[id].status in {PAGO, RETIRADO}
    ensures db.veiculos[vid].statusEstoque == DISPONIVEL <==> !Detido(db, vid)
  {
    if db.veiculos[vid].statusEstoque != DISPONIVEL {
      var id :| id in db.vendas && Ativa(db.vendas[id]) && db.vendas[id].veiculoId == vid;
      assert db.veiculos[vid].statusEstoque == EstoqueDe(db.vendas[id].status);
    }
    if Detido(db, vid) {
      var id :| id in db.vendas && Ativa(db.vendas[id]) && db.vendas[id].veiculoId == vid;
      assert db.veiculos[vid].statusEstoque == EstoqueDe(db.vendas[id].status);
    }
  }

  // ----- preservation, step by step -----

  lemma ReservarPreserva(db: Db, clienteId: Id, veiculoId: Id, novoId: Id, falha: FalhaBanco)
    requires Coerente(db) && novoId !in db.vendas
    ensures Coerente(Reservar(db, clienteId, veiculoId, novoId, falha).1)
  {
    var (r, db') := Reservar(db, clienteId, veiculoId, novoId, falha);
    if r.Ok? {
      var nova := r.valor;
      // no live sale held the vehicle, since it was DISPONIVEL
      forall id | id in db.vendas && Ativa(db.vendas[id]) ensures db.vendas[id].veiculoId != veiculoId {
        assert db.veiculos[db.vendas[id].veiculoId].statusEstoque == EstoqueDe(db.vendas[id].status);
      }
      assert Integro(db');
      assert EstoqueAcompanha(db');
      assert UmaVendaPorVeiculo(db');
      forall vid | vid in db'.veiculos && db'.veiculos[vid].statusEstoque != DISPONIVEL ensures Detido(db', vid) {
        if vid == veiculoId {
          assert db'.vendas[novoId] == nova;
        } else {
          assert Detido(db, vid);
          var id :| id in db.vendas && Ativa(db.vendas[id]) && db.vendas[id].veiculoId == vid;
          assert db'.vendas[id] == db.vendas[id];
        }
      }
    }
  }

  lemma GerarCodigoPreserva(db: Db, vendaId: Id, agora: nat, falha: FalhaBanco)
    requires Coerente(db)
    ensures Coerente(GerarCodigo(db, vendaId, agora, falha).1)
  {
    var (r, db') := GerarCodigo(db, vendaId, agora, falha);
    if r.Ok? {
      assert Integro(db');
      assert EstoqueAcompanha(db');
      assert UmaVendaPorVeiculo(db');
      forall vid | vid in db'.veiculos && db'.veiculos[vid].statusEstoque != DISPONIVEL ensures Detido(db', vid) {
        assert Detido(db, vid);
        var id :| id in db.vendas && Ativa(db.vendas[id]) && db.vendas[id].veiculoId == vid;
        assert id in db'.vendas && Ativa(db'.vendas[id]) && db'.vendas[id].veiculoId == vid;
      }
    }
  }

  lemma ConfirmarPagamentoPreserva(db: Db, vendaId: Id, falha: FalhaBanco)
    requires Coerente(db)
    ensures Coerente(ConfirmarPagamento(db, vendaId, falha).1)
  {
    var (r, db') := ConfirmarPagamento(db, vendaId, falha);
    if r.Ok? {
      var veiculoId := db.vendas[vendaId].veiculoId;
      // the paid sale is the only live sale holding its vehicle
      forall id | id in db.vendas && Ativa(db.vendas[id]) && db.vendas[id].veiculoId == veiculoId
        ensures id == vendaId
      {
      }
      assert Integro(db');
      assert EstoqueAcompanha(db');
      assert UmaVendaPorVeiculo(db');
      forall vid | vid in db'.veiculos && db'.veiculos[vid].statusEstoque != DISPONIVEL ensures Detido(db', vid) {
        if vid == veiculoId {
          assert db'.vendas[vendaId].veiculoId == vid && Ativa(db'.vendas[vendaId]);
        } else {
          assert Detido(db, vid);
          var id :| id in db.vendas && Ativa(db.vendas[id]) && db.vendas[id].veiculoId == vid;
          assert id in db'.vendas && Ativa(db'.vendas[id]) && db'.vendas[id].veiculoId == vid;
        }
      }
    }
  }

  lemma MarcarRetiradaPreserva(db: Db, vendaId: Id, falha: FalhaBanco)
    requires Coerente(db)
    ensures Coerente(MarcarRetirada(db, vendaId, falha).1)
  {
    var (r, db') := MarcarRetirada(db, vendaId, falha);
    if r.Ok? {
      assert Integro(db');
      assert EstoqueAcompanha(db');
      assert UmaVendaPorVeiculo(db');
      forall vid | vid in db'.veiculos && db'.veiculos[vid].statusEstoque != DISPONIVEL ensures Detido(db', vid) {
        assert Detido(db, vid);
        var id :| id in db.vendas && Ativa(db.vendas[id]) && db.vendas[id].veiculoId == vid;
        assert id in db'.vendas && Ativa(db'.vendas[id]) && db'.vendas[id].veiculoId == vid;
      }
    }
  }

  lemma CancelarVendaPreserva(db: Db, vendaId: Id, falha: FalhaBanco)
    requires Coerente(db)
    ensures Coerente(CancelarVenda(db, vendaId, falha).1)
  {
    var (r, db') := CancelarVenda(db, vendaId, falha);
    if r.Ok? {
      var veiculoId := db.vendas[vendaId].veiculoId;
      // the cancelled sale was the only live sale holding its vehicle
      forall id | id in db.vendas && Ativa(db.vendas[id]) && db.vendas[id].veiculoId == veiculoId
        ensures id == vendaId
      {
      }
      assert Integro(db');
      assert EstoqueAcompanha(db');
      assert UmaVendaPorVeiculo(db');
      forall vid | vid in db'.veiculos && db'.veiculos[vid].statusEstoque != DISPONIVEL ensures Detido(db', vid) {
        assert vid != veiculoId;
        assert Detido(db, vid);
        var id :| id in db.vendas && Ativa(db.vendas[id]) && db.vendas[id].veiculoId == vid;
        assert id != vendaId;
        assert id in db'.vendas && Ativa(db'.vendas[id]) && db'.vendas[id].veiculoId == vid;
      }
    }
  }

  /** Every step of the sale state machine, failed or not, preserves the invariant. */
  lemma {:induction false} AplicarPreserva(db: Db, op: Operacao, falha: FalhaBanco)
    requires Coerente(db) && Aplicavel(db, op)
    ensures Coerente(Aplicar(db, op, falha).1)
  {
    match op
    case Reserva(c, v, n) => ReservarPreserva(db, c, v, n, falha);
    case GeracaoCodigo(id, agora) => GerarCodigoPreserva(db, id, agora, falha);
    case Pagamento(id) => ConfirmarPagamentoPreserva(db, id, falha);
    case Retirada(id) => MarcarRetiradaPreserva(db, id, falha);
    case Cancelamento(id) => CancelarVendaPreserva(db, id, falha);
  }

  /** Once a sale has a payment code, no step changes it. */
  lemma {:induction false} CodigoImutavel(db: Db, op: Operacao, falha: FalhaBanco, id: Id)
    requires Aplicavel(db, op)
    requires id in db.vendas && CodigoCoerente(db.vendas[id]) && db.vendas[id].codigoPagamento.Some?
    ensures var db' := Aplicar(db, op, falha).1;
      id in db'.vendas && db'.vendas[id].codigoPagamento == db.vendas[id].codigoPagamento
  {
    match op
    case Reserva(c, v, n) => assert id != n;
    case GeracaoCodigo(vid, agora) =>
    case Pagamento(vid) =>
    case Retirada(vid) =>
    case Cancelamento(vid) =>
  }

  // ----- vehicle writes made by the services -----

  /** Registering a vehicle under a fresh id keeps the invariant: nothing holds it yet. */
  lemma CadastroPreserva(db: Db, novoId: Id, dados: DadosVeiculo)
    requires Coerente(db) && novoId !in db.veiculos
    ensures Coerente(db.(veiculos := db.veiculos[novoId := VeiculosRepositorio.NovoVeiculo(novoId, dados)]))
  {
    var db' := db.(veiculos := db.veiculos[novoId := VeiculosRepositorio.NovoVeiculo(novoId, dados)]);
    assert Integro(db');
    forall id | id in db.vendas ensures db.vendas[id].veiculoId != novoId {
    }
    assert EstoqueAcompanha(db');
    forall vid | vid in db'.veiculos && db'.veiculos[vid].statusEstoque != DISPONIVEL ensures Detido(db', vid) {
      assert Detido(db, vid);
    }
  }

  /** Editing a vehicle's descriptive fields keeps the invariant: its stock status is untouched. */
  lemma EdicaoPreserva(db: Db, id: Id, a: AlteracaoVeiculo)
    requires Coerente(db) && id in db.veiculos
    ensures Coerente(db.(veiculos := db.veiculos[id := VeiculosRepositorio.AplicarAlteracao(db.veiculos[id], a)]))
  {
    var db' := db.(veiculos := db.veiculos[id := VeiculosRepositorio.AplicarAlteracao(db.veiculos[id], a)]);
    assert Integro(db');
    assert EstoqueAcompanha(db');
    forall vid | vid in db'.veiculos && db'.veiculos[vid].statusEstoque != DISPONIVEL ensures Detido(db', vid) {
      assert Detido(db, vid);
    }
  }
}
