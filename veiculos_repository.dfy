/**
  Data access for the `veiculo` table: creation (always as DISPONIVEL),
  lookup, partial update, stock-status update and the listing of one stock
  status ordered by price.
*/
module VeiculosRepositorio {
  import opened Modelo
  import opened Ordenacao
  import opened Armazenamento

  /** The record created from a registration body: the stock status is forced to DISPONIVEL. */
  function NovoVeiculo(id: Id, dados: DadosVeiculo): (v: Veiculo)
    ensures v.id == id && v.statusEstoque == DISPONIVEL
    ensures v.marca == dados.marca && v.modelo == dados.modelo && v.ano == dados.ano
    ensures v.cor == dados.cor && v.preco == dados.preco
  {
    Veiculo(id, dados.marca, dados.modelo, dados.ano, dados.cor, dados.preco, DISPONIVEL)
  }

  /** Applies a partial edit: supplied fields replace the stored ones, the rest are kept. */
  function AplicarAlteracao(v: Veiculo, a: AlteracaoVeiculo): (r: Veiculo)
    ensures r.id == v.id && r.statusEstoque == v.statusEstoque
    ensures r.marca == (if a.marca.Some? then a.marca.value else v.marca)
    ensures r.modelo == (if a.modelo.Some? then a.modelo.value else v.modelo)
    ensures r.ano == (if a.ano.Some? then a.ano.value else v.ano)
    ensures r.cor == (if a.cor.Some? then a.cor.value else v.cor)
    ensures r.preco == (if a.preco.Some? then a.preco.value else v.preco)
  {
    v.(marca := if a.marca.Some? then a.marca.value else v.marca,
       modelo := if a.modelo.Some? then a.modelo.value else v.modelo,
       ano := if a.ano.Some? then a.ano.value else v.ano,
       cor := if a.cor.Some? then a.cor.value else v.cor,
       preco := if a.preco.Some? then a.preco.value else v.preco)
  }

  /** Applying the same edit twice is the same as applying it once. */
  lemma AlteracaoIdempotente(v: Veiculo, a: AlteracaoVeiculo)
    ensures AplicarAlteracao(AplicarAlteracao(v, a), a) == AplicarAlteracao(v, a)
  {
  }

  /** An edit with no field supplied changes nothing. */
  lemma AlteracaoVaziaNeutra(v: Veiculo)
    ensures AplicarAlteracao(v, AlteracaoVeiculo(None, None, None, None, None)) == v
  {
  }

  function Preco(v: Veiculo): real
  {
    v.preco
  }

  /** `v` is a stored vehicle in stock status `status`. */
  ghost predicate Selecionado(veiculos: map<Id, Veiculo>, v: Veiculo, status: StatusEstoque)
  {
    v in veiculos.Values && v.statusEstoque == status
  }

  /** `v` is stored under its own id, in status `status`, and that id was already visited. */
  ghost predicate Visitado(veiculos: map<Id, Veiculo>, pendentes: set<Id>, v: Veiculo, status: StatusEstoque)
  {
    v.id in veiculos && v.id !in pendentes && veiculos[v.id] == v && v.statusEstoque == status
  }

  class VeiculosRepository {
    const db: Banco

    constructor (db: Banco)
      ensures this.db == db
    {
      this.db := db;
    }

    /** Stores a new vehicle; whatever the body says, it starts DISPONIVEL. */
    method Create(novoId: Id, dados: DadosVeiculo) returns (v: Veiculo)
      requires db.Valid() && novoId !in db.veiculos
      modifies db`veiculos
      ensures db.Valid()
      ensures v == NovoVeiculo(novoId, dados) && v.statusEstoque == DISPONIVEL
      ensures db.veiculos == old(db.veiculos)[novoId := v]
    {
      v := NovoVeiculo(novoId, dados);
      db.veiculos := db.veiculos[novoId := v];
    }

    /** `findUnique`: the vehicle stored under `id`, or nothing. */
    function FindById(id: Id): (r: Option<Veiculo>)
      reads db
      ensures r.None? <==> id !in db.veiculos
      ensures r.Some? ==> r.value == db.veiculos[id]
    {
      if id in db.veiculos then Some(db.veiculos[id]) else None
    }

    /** Partial update of one vehicle; an unknown id throws "record not found". */
    method Update(id: Id, dados: AlteracaoVeiculo) returns (r: Resultado<Veiculo>)
      requires db.Valid()
      modifies db`veiculos
      ensures db.Valid()
      ensures id !in old(db.veiculos) ==> r == Err(RegistroAusente) && db.veiculos == old(db.veiculos)
      ensures id in old(db.veiculos) ==>
        && r == Ok(AplicarAlteracao(old(db.veiculos)[id], dados))
        && db.veiculos == old(db.veiculos)[id := r.valor]
    {
      if id !in db.veiculos {
        return Err(RegistroAusente);
      }
      var v := AplicarAlteracao(db.veiculos[id], dados);
      db.veiculos := db.veiculos[id := v];
      r := Ok(v);
    }

    /** Overwrites the stock status of one vehicle and nothing else. */
    method SetStatus(id: Id, status: StatusEstoque) returns (r: Resultado<Veiculo>)
      requires db.Valid()
      modifies db`veiculos
      ensures db.Valid()
      ensures id !in old(db.veiculos) ==> r == Err(RegistroAusente) && db.veiculos == old(db.veiculos)
      ensures id in old(db.veiculos) ==>
        && r == Ok(old(db.veiculos)[id].(statusEstoque := status))
        && db.veiculos == old(db.veiculos)[id := r.valor]
    {
      if id !in db.veiculos {
        return Err(RegistroAusente);
      }
      var v := db.veiculos[id].(statusEstoque := status);
      db.veiculos := db.veiculos[id := v];
      r := Ok(v);
    }

    /**
      `findMany` filtered by stock status and ordered by price: each stored
      vehicle in that status appears exactly once, and no other record appears.
    */
    method ListByStatusOrdered(status: StatusEstoque, orderBy: Direcao := Asc) returns (r: seq<Veiculo>)
      requires db.Valid()
      ensures forall v :: multiset(r)[v] == if Selecionado(db.veiculos, v, status) then 1 else 0
      ensures Ordenado(r, Preco, orderBy)
    {
      var pendentes := db.veiculos.Keys;
      var achados: seq<Veiculo> := [];
      while pendentes != {}
        invariant pendentes <= db.veiculos.Keys
        invariant forall v :: multiset(achados)[v] == if Visitado(db.veiculos, pendentes, v, status) then 1 else 0
        decreases pendentes
      {
        var id :| id in pendentes;
        var v := db.veiculos[id];
        if v.statusEstoque == status {
          achados := achados + [v];
        }
        pendentes := pendentes - {id};
      }
      forall v: Veiculo ensures (v.id in db.veiculos && db.veiculos[v.id] == v) <==> v in db.veiculos.Values {
        if v in db.veiculos.Values {
          var k :| k in db.veiculos && db.veiculos[k] == v;
        }
      }
      r := Ordenar(achados, Preco, orderBy);
    }
  }
}
