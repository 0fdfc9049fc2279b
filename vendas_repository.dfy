/**
  Data access for the `venda` table: lookup, partial update, the status
  update with its optional payment-code write, and the listing of sales
  (optionally of one status) ordered by the price of the vehicle each refers to.
*/
module VendasRepositorio {
  import opened Modelo
  import opened Ordenacao
  import opened Armazenamento

  /**
    The payment code after an update whose `codigoPagamento` argument is `arg`:
    `undefined` keeps it, `null` clears it, a string replaces it.
  */
  function NovoCodigo(atual: Option<string>, arg: Campo<string>): (r: Option<string>)
    ensures arg.Ausente? ==> r == atual
    ensures arg.Nulo? ==> r == None
    ensures arg.Valor? ==> r == Some(arg.v)
  {
    match arg
    case Ausente => atual
    case Nulo => None
    case Valor(c) => Some(c)
  }

  /** Applies a partial update to a sale: only the supplied fields change. */
  function AplicarAlteracao(v: Venda, a: AlteracaoVenda): (r: Venda)
    ensures r.id == v.id && r.clienteId == v.clienteId && r.veiculoId == v.veiculoId
    ensures r.status == (if a.status.Some? then a.status.value else v.status)
    ensures r.codigoPagamento == NovoCodigo(v.codigoPagamento, a.codigoPagamento)
  {
    v.(status := if a.status.Some? then a.status.value else v.status,
       codigoPagamento := NovoCodigo(v.codigoPagamento, a.codigoPagamento))
  }

  /** The price of the vehicle a sale refers to (the sort key of the listing). */
  function PrecoDaVenda(veiculos: map<Id, Veiculo>, v: Venda): real
  {
    if v.veiculoId in veiculos then veiculos[v.veiculoId].preco else 0.0
  }

  function ChaveVenda(veiculos: map<Id, Veiculo>): Venda -> real
  {
    v => PrecoDaVenda(veiculos, v)
  }

  /** `v` is a stored sale and matches the optional status filter. */
  ghost predicate Listada(vendas: map<Id, Venda>, v: Venda, status: Option<StatusVenda>)
  {
    v in vendas.Values && (status.Some? ==> v.status == status.value)
  }

  ghost predicate Visitada(vendas: map<Id, Venda>, pendentes: set<Id>, v: Venda, status: Option<StatusVenda>)
  {
    v.id in vendas && v.id !in pendentes && vendas[v.id] == v && (status.Some? ==> v.status == status.value)
  }

  class VendasRepository {
    const db: Banco

    constructor (db: Banco)
      ensures this.db == db
    {
      this.db := db;
    }

    /** `findUnique`: the sale stored under `id`, or nothing. */
    function FindById(id: Id): (r: Option<Venda>)
      reads db
      ensures r.None? <==> id !in db.vendas
      ensures r.Some? ==> r.value == db.vendas[id]
    {
      if id in db.vendas then Some(db.vendas[id]) else None
    }

    /** Partial update of one sale; an unknown id throws "record not found". */
    method Update(id: Id, dados: AlteracaoVenda) returns (r: Resultado<Venda>)
      requires db.Valid()
      modifies db`vendas
      ensures db.Valid()
      ensures id !in old(db.vendas) ==> r == Err(RegistroAusente) && db.vendas == old(db.vendas)
      ensures id in old(db.vendas) ==>
        && r == Ok(AplicarAlteracao(old(db.vendas)[id], dados))
        && db.vendas == old(db.vendas)[id := r.valor]
    {
      if id !in db.vendas {
        return Err(RegistroAusente);
      }
      var v := AplicarAlteracao(db.vendas[id], dados);
      db.vendas := db.vendas[id := v];
      r := Ok(v);
    }

    /**
      Sets the status of one sale, and its payment code only when a code
      argument is given (`null` clears it).
    */
    method UpdateStatus(id: Id, status: StatusVenda, codigoPagamento: Campo<string>) returns (r: Resultado<Venda>)
      requires db.Valid()
      modifies db`vendas
      ensures db.Valid()
      ensures id !in old(db.vendas) ==> r == Err(RegistroAusente) && db.vendas == old(db.vendas)
      ensures id in old(db.vendas) ==>
        && r.Ok?
        && r.valor == old(db.vendas)[id].(status := status,
                                          codigoPagamento := NovoCodigo(old(db.vendas)[id].codigoPagamento, codigoPagamento))
        && db.vendas == old(db.vendas)[id := r.valor]
    {
      r := Update(id, AlteracaoVenda(Some(status), codigoPagamento));
    }

    /**
      `findMany` with an optional status filter, ordered by the price of the
      referenced vehicle, ascending: each matching sale appears exactly once.
    */
    method ListByStatusOrdered(status: Option<StatusVenda>) returns (r: seq<Venda>)
      requires db.Valid()
      ensures forall v :: multiset(r)[v] == if Listada(db.vendas, v, status) then 1 else 0
      ensures Ordenado(r, ChaveVenda(db.veiculos), Asc)
    {
      var pendentes := db.vendas.Keys;
      var achadas: seq<Venda> := [];
      while pendentes != {}
        invariant pendentes <= db.vendas.Keys
        invariant forall v :: multiset(achadas)[v] == if Visitada(db.vendas, pendentes, v, status) then 1 else 0
        decreases pendentes
      {
        var id :| id in pendentes;
        var v := db.vendas[id];
        if status.None? || v.status == status.value {
          achadas := achadas + [v];
        }
        pendentes := pendentes - {id};
      }
      forall v: Venda ensures (v.id in db.vendas && db.vendas[v.id] == v) <==> v in db.vendas.Values {
        if v in db.vendas.Values {
          var k :| k in db.vendas && db.vendas[k] == v;
        }
      }
      r := Ordenar(achadas, ChaveVenda(db.veiculos), Asc);
    }
  }
}
