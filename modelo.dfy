/**
  Domain types shared by every layer of the vehicle-purchase flow: the two
  persisted entities (Venda and Veiculo) with their closed status enums, the
  request bodies, the errors the services throw, the fault oracle that stands
  for "the database threw here", and the abstract value of the whole store.
*/
module Modelo {

  /** Record identities are opaque strings (uuids generated by the database). */
  type Id = string

  datatype Option<+T> = None | Some(value: T)

  /** Sale lifecycle, in the order the purchase moves through it. */
  datatype StatusVenda = RESERVADO | CODIGO_GERADO | PAGO | RETIRADO | CANCELADO

  /** Availability of a vehicle in the inventory. */
  datatype StatusEstoque = DISPONIVEL | RESERVADO | VENDIDO

  datatype Venda = Venda(
    id: Id,
    clienteId: Id,
    veiculoId: Id,
    status: StatusVenda,
    codigoPagamento: Option<string>)

  datatype Veiculo = Veiculo(
    id: Id,
    marca: string,
    modelo: string,
    ano: int,
    cor: string,
    preco: real,
    statusEstoque: StatusEstoque)

  /** Body accepted when a vehicle is registered: it has no stock status. */
  datatype DadosVeiculo = DadosVeiculo(marca: string, modelo: string, ano: int, cor: string, preco: real)

  /** Partial body of a vehicle edit: every descriptive field is optional, the stock status is absent. */
  datatype AlteracaoVeiculo = AlteracaoVeiculo(
    marca: Option<string>,
    modelo: Option<string>,
    ano: Option<int>,
    cor: Option<string>,
    preco: Option<real>)

  /** An optional, nullable argument: `undefined`, `null` or a value. */
  datatype Campo<+T> = Ausente | Nulo | Valor(v: T)

  /** Partial body of a sale update (its scalar fields). */
  datatype AlteracaoVenda = AlteracaoVenda(status: Option<StatusVenda>, codigoPagamento: Campo<string>)

  /** Sort direction of a listing by price. */
  datatype Direcao = Asc | Desc

  /** The errors the flow can raise. */
  datatype Erro =
    | VeiculoNaoEncontrado
    | VeiculoIndisponivel
    | VendaNaoEncontrada
    | CodigoSomenteReservada
    | PagamentoSomenteCodigoGerado
    | RetiradaSomentePaga
    | VendaJaConcluida
    | VendaJaCancelada
    | VeiculoJaVendido
    | RegistroAusente
    | ClienteAusente
    | Banco(detalhe: string)
  {
    /** The `message` of the thrown error. */
    function Message(): string
    {
      match this
      case VeiculoNaoEncontrado => "Veículo não encontrado"
      case VeiculoIndisponivel => "Veículo não está disponível para reserva"
      case VendaNaoEncontrada => "Venda não encontrada"
      case CodigoSomenteReservada => "Só é possível gerar código para vendas reservadas"
      case PagamentoSomenteCodigoGerado => "Só é possível confirmar pagamento de vendas com código gerado"
      case RetiradaSomentePaga => "Só é possível marcar retirada de vendas pagas"
      case VendaJaConcluida => "Não é possível cancelar uma venda já concluída (RETIRADO)"
      case VendaJaCancelada => "Venda já está cancelada"
      case VeiculoJaVendido => "Não é possível editar veículo já vendido"
      case RegistroAusente => "Record to update not found."
      case ClienteAusente => "No 'Cliente' record was found for a nested connect."
      case Banco(d) => d
    }
  }

  datatype Resultado<+T> = Ok(valor: T) | Err(erro: Erro)

  /**
    Fault oracle for one service call: the database either answers, or throws
    (with the given message) at the call's first read or at its write.
  */
  datatype FalhaBanco = Nenhuma | NaLeitura(mensagem: string) | NaEscrita(mensagem: string)

  /** The abstract value of the store: both tables and the registered buyers. */
  datatype Db = Db(vendas: map<Id, Venda>, veiculos: map<Id, Veiculo>, clientes: set<Id>)

  /**
    Structural integrity the database itself guarantees: each record is stored
    under its own id, and a sale's foreign keys name an existing vehicle and buyer.
  */
  ghost predicate Integro(db: Db)
  {
    && (forall id | id in db.veiculos :: db.veiculos[id].id == id)
    && (forall id | id in db.vendas ::
          && db.vendas[id].id == id
          && db.vendas[id].veiculoId in db.veiculos
          && db.vendas[id].clienteId in db.clientes)
  }
}
