/**
  Vehicle catalogue rules on top of the repository: registration, editing
  (refused once the vehicle is sold) and the two public listings.
*/
module VeiculosServico {
  import opened Modelo
  import opened Ordenacao
  import opened Armazenamento
  import opened VeiculosRepositorio
  import Consistencia

  class VeiculosService {
    const repo: VeiculosRepository

    constructor (repo: VeiculosRepository)
      ensures this.repo == repo
    {
      this.repo := repo;
    }

    /** Registers a vehicle; it always starts DISPONIVEL and is held by no sale. */
    method CadastrarVeiculo(novoId: Id, dados: DadosVeiculo) returns (v: Veiculo)
      requires repo.db.Valid() && novoId !in repo.db.veiculos
      modifies repo.db`veiculos
      ensures repo.db.Valid()
      ensures v == NovoVeiculo(novoId, dados) && v.statusEstoque == DISPONIVEL
      ensures repo.db.veiculos == old(repo.db.veiculos)[novoId := v]
      ensures old(Consistencia.Coerente(repo.db.Estado())) ==> Consistencia.Coerente(repo.db.Estado())
    {
      ghost var antes := repo.db.Estado();
      v := repo.Create(novoId, dados);
      if Consistencia.Coerente(antes) {
        Consistencia.CadastroPreserva(antes, novoId, dados);
      }
    }

    /**
      Edits the descriptive fields of a vehicle. An unknown id and a VENDIDO
      vehicle are refused without any change; the stock status never changes.
    */
    method EditarVeiculo(id: Id, dados: AlteracaoVeiculo) returns (r: Resultado<Veiculo>)
      requires repo.db.Valid()
      modifies repo.db`veiculos
      ensures repo.db.Valid()
      ensures id !in old(repo.db.veiculos) ==>
        r == Err(VeiculoNaoEncontrado) && repo.db.veiculos == old(repo.db.veiculos)
      ensures id in old(repo.db.veiculos) && old(repo.db.veiculos)[id].statusEstoque == VENDIDO ==>
        r == Err(VeiculoJaVendido) && repo.db.veiculos == old(repo.db.veiculos)
      ensures id in old(repo.db.veiculos) && old(repo.db.veiculos)[id].statusEstoque != VENDIDO ==>
        && r == Ok(AplicarAlteracao(old(repo.db.veiculos)[id], dados))
        && repo.db.veiculos == old(repo.db.veiculos)[id := r.valor]
        && r.valor.statusEstoque == old(repo.db.veiculos)[id].statusEstoque
      ensures old(Consistencia.Coerente(repo.db.Estado())) ==> Consistencia.Coerente(repo.db.Estado())
    {
      ghost var antes := repo.db.Estado();
      var veiculo := repo.FindById(id);
      if veiculo.None? {
        return Err(VeiculoNaoEncontrado);
      }
      // simple rule: a sold vehicle can no longer be edited
      if veiculo.value.statusEstoque == VENDIDO {
        return Err(VeiculoJaVendido);
      }
      r := repo.Update(id, dados);
      if Consistencia.Coerente(antes) {
        Consistencia.EdicaoPreserva(antes, id, dados);
      }
    }

    /** The DISPONIVEL vehicles, each once, ordered by price (ascending unless told otherwise). */
    method ListarDisponiveis(orderBy: Direcao := Asc) returns (r: seq<Veiculo>)
      requires repo.db.Valid()
      ensures forall v :: multiset(r)[v] == if Selecionado(repo.db.veiculos, v, DISPONIVEL) then 1 else 0
      ensures Ordenado(r, Preco, orderBy)
    {
      r := repo.ListByStatusOrdered(DISPONIVEL, orderBy);
    }

    /** The VENDIDO vehicles, each once, ordered by price (ascending unless told otherwise). */
    method ListarVendidos(orderBy: Direcao := Asc) returns (r: seq<Veiculo>)
      requires repo.db.Valid()
      ensures forall v :: multiset(r)[v] == if Selecionado(repo.db.veiculos, v, VENDIDO) then 1 else 0
      ensures Ordenado(r, Preco, orderBy)
    {
      r := repo.ListByStatusOrdered(VENDIDO, orderBy);
    }
  }
}
