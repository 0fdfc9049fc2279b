# Vehicle purchase saga — a Dafny model

This project models the core of a vehicle store back end. Buyers purchase
vehicles through a saga (`CompraVeiculoSaga`) that drives a sale (`Venda`)
through four steps:

1. RESERVA: reserve the vehicle and create the sale.
2. CODIGO_PAGAMENTO: issue a payment code.
3. PAGAMENTO: confirm the payment.
4. RETIRADA: record the pick-up.

Each step is a method of `VendasService`. The sale's status must match the
step's guard, and the reservation and payment steps also change the
vehicle's stock status (`statusEstoque`) in the same transaction. When a
step fails, the saga re-reads the sale. It then cancels the sale, which puts
the vehicle back to DISPONIVEL, unless the status forbids that. For a paid
sale it writes a critical log instead. If the compensation itself fails, it
logs that separately. The model also covers the vehicle catalogue
(`VeiculosService`) and both repositories.

How the model is built:

- **Store.** The Prisma database is a class `Armazenamento.Banco`. It holds a
  map of sales, a map of vehicles and the set of registered buyers. Its
  abstract value is `Modelo.Db`.
- **Classes.** Repositories, services and the saga are classes holding
  references to their collaborators, as in the source. Every state-changing
  method says what it modifies.
- **Spec functions.** Each service step is proved equal to a pure function of
  module `MaquinaVendas`. Each saga entry point is proved equal to
  `Saga.Compra` or `Saga.AteCodigo`.
- **Faults.** A fault oracle (`FalhaBanco`, and `Saga.Falhas` for a saga run)
  stands for the database throwing. A fault at the first read throws before
  any guard runs. A fault at the write throws after the guards pass. Either
  way the transaction leaves the store unchanged.
- **Inputs from outside.** `Date.now()` is the parameter `agora`. The id the
  database assigns to a new sale or vehicle is the parameter `novoId`, which
  must be unused.
- **Invariant.** `Consistencia.Coerente` says each live sale's vehicle is in
  the stock status its sale status implies. It also says at most one live
  sale holds a vehicle, and a vehicle is held only while reserved or sold.
  Every step and every saga run is proved to preserve it.

## Model

| member | source | states |
|---|---|---|
| `Ordenacao.Ordenar` | src/modules/veiculos/veiculos.repository.ts:26-34 | the result is ordered by the key in the requested direction and is a permutation (same multiset) of the input |
| `CodigoPagamento.Base36` | src/modules/vendas/vendas.service.ts:65-67 | `toString(36)` of a number is a non-empty string of digits and lower-case letters with no leading zero: exactly `"0"` for zero, and a numeral not starting with `0` otherwise |
| `CodigoPagamento.Maiusculas` | src/modules/vendas/vendas.service.ts:65-67 | `toUpperCase` keeps the length and upper-cases each ASCII letter, leaving other characters alone |
| `CodigoPagamento.Fragmento` | src/modules/vendas/vendas.service.ts:65 | `id.slice(0, 8)` is a prefix of the id of at most 8 characters |
| `CodigoPagamento.Base36Inversa` | src/modules/vendas/vendas.service.ts:65-67 | reading back the upper-cased base-36 numeral of a timestamp gives the timestamp |
| `CodigoPagamento.DigitosMaiusculos` | src/modules/vendas/vendas.service.ts:65-67 | the timestamp part of a code uses only `0-9` and `A-Z` |
| `CodigoPagamento.DecomporForma` | src/modules/vendas/vendas.service.ts:65-67 | any `PAY-<fragment>-<digits>` whose digits hold no `-` parses into that fragment and the value of the digits, the hyphens inside the fragment notwithstanding |
| `CodigoPagamento.CodigoDecompoe` | src/modules/vendas/vendas.service.ts:65-67 | a code `PAY-<fragment>-<TIME>` parses back into its id fragment and timestamp |
| `CodigoPagamento.CodigoInjetivo` | src/modules/vendas/vendas.service.ts:65-67 | two codes are equal exactly when their id fragments and timestamps are equal |
| `CodigoPagamento.Codigo` | src/modules/vendas/vendas.service.ts:65-67 | a code starts with `PAY-` and is longer than the prefix plus the separator |
| `VeiculosRepositorio.NovoVeiculo` | src/modules/veiculos/veiculos.repository.ts:6-13 | a created vehicle copies the body's fields and is DISPONIVEL whatever the body says |
| `VeiculosRepositorio.AplicarAlteracao` | src/modules/veiculos/veiculos.repository.ts:19-24 | an edit replaces exactly the supplied fields and keeps the id and the stock status |
| `VeiculosRepositorio.AlteracaoIdempotente` | src/modules/veiculos/veiculos.repository.ts:19-24 | applying the same edit twice equals applying it once |
| `VeiculosRepositorio.AlteracaoVaziaNeutra` | src/modules/veiculos/veiculos.repository.ts:19-24 | an edit with no field supplied changes nothing |
| `VeiculosRepositorio.VeiculosRepository.Create` | src/modules/veiculos/veiculos.repository.ts:6-13 | stores the new DISPONIVEL vehicle under its id; nothing else changes |
| `VeiculosRepositorio.VeiculosRepository.FindById` | src/modules/veiculos/veiculos.repository.ts:15-17 | nothing exactly when the id is not stored, otherwise the stored record |
| `VeiculosRepositorio.VeiculosRepository.Update` | src/modules/veiculos/veiculos.repository.ts:19-24 | an unknown id fails with "record not found" and changes nothing; otherwise only that vehicle changes, to the edited record |
| `VeiculosRepositorio.VeiculosRepository.SetStatus` | src/modules/veiculos/veiculos.repository.ts:36-41 | an unknown id fails and changes nothing; otherwise only the stock status of that vehicle changes |
| `VeiculosRepositorio.VeiculosRepository.ListByStatusOrdered` | src/modules/veiculos/veiculos.repository.ts:26-34 | every stored vehicle in the status appears exactly once, nothing else appears, ordered by price in the requested direction, ascending by default |
| `VendasRepositorio.NovoCodigo` | src/modules/vendas/vendas.repository.ts:20-31 | an absent code argument keeps the stored code, `null` clears it, a string replaces it |
| `VendasRepositorio.AplicarAlteracao` | src/modules/vendas/vendas.repository.ts:13-18 | a partial update changes only the supplied status and code; id, buyer and vehicle are kept |
| `VendasRepositorio.VendasRepository.FindById` | src/modules/vendas/vendas.repository.ts:9-11 | nothing exactly when the id is not stored, otherwise the stored sale |
| `VendasRepositorio.VendasRepository.Update` | src/modules/vendas/vendas.repository.ts:13-18 | an unknown id fails with "record not found" and changes nothing; otherwise only that sale changes |
| `VendasRepositorio.VendasRepository.UpdateStatus` | src/modules/vendas/vendas.repository.ts:20-32 | sets the status, and the code only when a code argument is given; an unknown id fails and changes nothing |
| `VendasRepositorio.VendasRepository.ListByStatusOrdered` | src/modules/vendas/vendas.repository.ts:34-43 | every stored sale matching the optional status filter appears exactly once, ordered by its vehicle's price, ascending |
| `MaquinaVendas.Reservar` | src/modules/vendas/vendas.service.ts:16-52 | succeeds exactly when nothing faults, the vehicle exists and is DISPONIVEL and the buyer exists; it then creates a RESERVADO sale without code and marks the vehicle RESERVADO; each guard's error, and any failure leaves the store unchanged |
| `MaquinaVendas.GerarCodigo` | src/modules/vendas/vendas.service.ts:57-74 | succeeds exactly when the sale exists and is RESERVADO and nothing faults; it then sets CODIGO_GERADO and the code built from the sale id and `agora`; the vehicle is untouched; errors leave the store unchanged |
| `MaquinaVendas.ConfirmarPagamento` | src/modules/vendas/vendas.service.ts:79-108 | succeeds exactly when the sale is CODIGO_GERADO, its vehicle exists and nothing faults; the sale becomes PAGO and its vehicle VENDIDO together; errors leave the store unchanged |
| `MaquinaVendas.MarcarRetirada` | src/modules/vendas/vendas.service.ts:113-122 | succeeds exactly when the sale is PAGO and nothing faults; only its status becomes RETIRADO, keeping code and vehicle |
| `MaquinaVendas.CancelarVenda` | src/modules/vendas/vendas.service.ts:127-159 | succeeds exactly when the sale exists, is neither RETIRADO nor CANCELADO, its vehicle exists and nothing faults; the sale becomes CANCELADO and its vehicle DISPONIVEL together; the two refusals have their own errors |
| `MaquinaVendas.ArestaAvanca` | src/modules/vendas/vendas.service.ts:124-138 | along a lifecycle edge the status moves forward, and nothing leaves RETIRADO or CANCELADO |
| `MaquinaVendas.ReservaDupla` | src/modules/vendas/vendas.service.ts:20-31 | after one successful reservation of a vehicle, a second reservation of it fails as unavailable and changes nothing |
| `MaquinaVendas.CancelamentoDuplo` | src/modules/vendas/vendas.service.ts:128-138 | after one successful cancellation, cancelling the same sale again fails as already cancelled and changes nothing |
| `MaquinaVendas.SegueArestas` | src/modules/vendas/vendas.service.ts:57-159 | any step keeps every existing sale and either leaves its status alone or moves it along one lifecycle edge |
| `Consistencia.VendidoSeVendaPaga` | src/modules/vendas/vendas.service.ts:89-105 | in a coherent store a vehicle is VENDIDO exactly when a PAGO or RETIRADO sale refers to it, and DISPONIVEL exactly when no live sale holds it |
| `Consistencia.ReservarPreserva` | src/modules/vendas/vendas.service.ts:16-52 | reservation, successful or not, keeps the store coherent |
| `Consistencia.GerarCodigoPreserva` | src/modules/vendas/vendas.service.ts:57-74 | issuing the code keeps the store coherent |
| `Consistencia.ConfirmarPagamentoPreserva` | src/modules/vendas/vendas.service.ts:79-108 | confirming the payment keeps the store coherent |
| `Consistencia.MarcarRetiradaPreserva` | src/modules/vendas/vendas.service.ts:113-122 | recording the pick-up keeps the store coherent |
| `Consistencia.CancelarVendaPreserva` | src/modules/vendas/vendas.service.ts:127-159 | cancelling keeps the store coherent, the released vehicle included |
| `Consistencia.AplicarPreserva` | src/modules/vendas/vendas.service.ts:16-159 | any one step of the sale state machine keeps the store coherent |
| `Consistencia.CodigoImutavel` | src/modules/vendas/vendas.service.ts:57-159 | once a sale has a payment code, no step changes or clears it |
| `Consistencia.CadastroPreserva` | src/modules/veiculos/veiculos.repository.ts:6-13 | registering a vehicle keeps the store coherent |
| `Consistencia.EdicaoPreserva` | src/modules/veiculos/veiculos.service.ts:12-24 | editing a vehicle's descriptive fields keeps the store coherent |
| `VeiculosServico.VeiculosService.CadastrarVeiculo` | src/modules/veiculos/veiculos.service.ts:8-10 | stores the new vehicle as DISPONIVEL and keeps the store coherent |
| `VeiculosServico.VeiculosService.EditarVeiculo` | src/modules/veiculos/veiculos.service.ts:12-24 | unknown id: "Veículo não encontrado"; VENDIDO: "Não é possível editar veículo já vendido"; both change nothing; otherwise applies the edit without touching the stock status; coherence is kept |
| `VeiculosServico.VeiculosService.ListarDisponiveis` | src/modules/veiculos/veiculos.service.ts:26-28 | exactly the DISPONIVEL vehicles, each once, ordered by price (ascending by default) |
| `VeiculosServico.VeiculosService.ListarVendidos` | src/modules/veiculos/veiculos.service.ts:30-32 | exactly the VENDIDO vehicles, each once, ordered by price (ascending by default) |
| `VendasServico.VendasService.ReservarVeiculo` | src/modules/vendas/vendas.service.ts:16-52 | result and new store are those of `MaquinaVendas.Reservar`; coherence is kept |
| `VendasServico.VendasService.GerarCodigoPagamento` | src/modules/vendas/vendas.service.ts:57-74 | result and new store are those of `MaquinaVendas.GerarCodigo`; coherence is kept |
| `VendasServico.VendasService.ConfirmarPagamento` | src/modules/vendas/vendas.service.ts:79-108 | result and new store are those of `MaquinaVendas.ConfirmarPagamento`; coherence is kept |
| `VendasServico.VendasService.MarcarRetirada` | src/modules/vendas/vendas.service.ts:113-122 | result and new store are those of `MaquinaVendas.MarcarRetirada`; coherence is kept |
| `VendasServico.VendasService.CancelarVenda` | src/modules/vendas/vendas.service.ts:127-159 | result and new store are those of `MaquinaVendas.CancelarVenda`; the reason is accepted and not stored; coherence is kept |
| `VendasServico.VendasService.ListarVendas` | src/modules/vendas/vendas.service.ts:161-163 | all sales, or those of one status, each once, ordered by vehicle price |
| `VendasServico.VendasService.ObterPorId` | src/modules/vendas/vendas.service.ts:165-167 | the stored sale, nothing for an unknown id, or the read fault |
| `Saga.Compensacao` | src/core/saga/compra-veiculo.saga.ts:97-130 | at most one log line; the store changes only by cancelling a sale the re-read found and the status allows, and then the new store is exactly the old one with that sale CANCELADO and its vehicle DISPONIVEL, buyers unchanged, and nothing is logged; a critical line is written exactly when the re-read succeeds on a PAGO sale in the full saga |
| `Saga.Compra` | src/core/saga/compra-veiculo.saga.ts:61-139 | success exactly when no step is reported failed, and every failure carries a message; no sale exactly when the reservation failed, and then nothing changed or was logged; otherwise the sale returned is the new one, RETIRADO on success, else in the status it had when the failing step was attempted |
| `Saga.AteCodigo` | src/core/saga/compra-veiculo.saga.ts:149-208 | success exactly when no step is reported failed; only RESERVA or CODIGO_PAGAMENTO can fail; no sale exactly when the reservation failed, and then nothing changed or was logged; otherwise the sale returned is the new one, CODIGO_GERADO on success and RESERVADO on failure |
| `Saga.CompraVeiculoSaga.Compensar` | src/core/saga/compra-veiculo.saga.ts:97-130 | store and new log lines are those of `Saga.Compensacao`: re-read, cancel if the status allows, critical log for a paid sale, logged compensation failure |
| `Saga.CompraVeiculoSaga.Falhar` | src/core/saga/compra-veiculo.saga.ts:91-137 | compensates only when a sale with a non-empty id exists; the result is a failure carrying the last sale, the step and the original message |
| `Saga.CompraVeiculoSaga.ExecutarCompra` | src/core/saga/compra-veiculo.saga.ts:61-139 | result, new store, log lines and steps attempted are those of `Saga.Compra`, whose outcome at each failure point the `SagaPropriedades` lemmas give |
| `Saga.CompraVeiculoSaga.ExecutarAteCodigoPagamento` | src/core/saga/compra-veiculo.saga.ts:149-208 | result, new store, log lines and steps attempted are those of `Saga.AteCodigo` |
| `SagaPropriedades.CompensacaoCancela` | src/core/saga/compra-veiculo.saga.ts:97-130 | for a cancellable sale: a re-read or cancel fault is logged with both messages and changes nothing; otherwise the new store is exactly the old one with the sale CANCELADO and its vehicle DISPONIVEL, and nothing is logged |
| `SagaPropriedades.PoliticasDivergem` | src/core/saga/compra-veiculo.saga.ts:180-189 | on a PAGO sale the full saga leaves the store alone and logs critically, while the partial saga cancels it and releases the vehicle |
| `SagaPropriedades.CompraSucesso` | src/core/saga/compra-veiculo.saga.ts:61-90 | the saga succeeds exactly when the reservation is possible and no later step faults; then the sale is RETIRADO with the code for `agora`, the vehicle VENDIDO, all four steps run, nothing logged |
| `SagaPropriedades.FalhaNaReserva` | src/core/saga/compra-veiculo.saga.ts:67-73 | a failed reservation reports RESERVA and the reservation's message, with no sale, no change, no log |
| `SagaPropriedades.FalhaNoCodigo` | src/core/saga/compra-veiculo.saga.ts:75-137 | a fault at the code step reports CODIGO_PAGAMENTO, the RESERVADO sale and the original message; when compensation goes through, the final store is the original one plus the new sale, CANCELADO without code, the vehicle being DISPONIVEL again; otherwise its failure is logged and the sale stays RESERVADO |
| `SagaPropriedades.FalhaNoPagamento` | src/core/saga/compra-veiculo.saga.ts:79-137 | a fault at the payment step reports PAGAMENTO, the sale with its code and the original message; when compensation goes through, the final store is the original one plus the new sale, CANCELADO with its code, the vehicle being DISPONIVEL again; otherwise its failure is logged and the sale keeps CODIGO_GERADO |
| `SagaPropriedades.FalhaNaRetirada` | src/core/saga/compra-veiculo.saga.ts:83-137 | a fault at the pick-up step leaves the sale PAGO and the vehicle VENDIDO, logs a critical line naming the sale and step, and never attempts a cancellation |
| `SagaPropriedades.IdVazioNaoCompensa` | src/core/saga/compra-veiculo.saga.ts:98 | with an empty sale id nothing is compensated and the reservation stays |
| `SagaPropriedades.EtapasDaCompra` | src/core/saga/compra-veiculo.saga.ts:64-137 | the steps attempted are a non-empty prefix of the four; a failure names the last of them and carries a message, a success names none |
| `SagaPropriedades.CompensacaoPreserva` | src/core/saga/compra-veiculo.saga.ts:97-130 | compensation keeps the store coherent |
| `SagaPropriedades.CompraPreserva` | src/core/saga/compra-veiculo.saga.ts:61-139 | a full saga run keeps the store coherent, whatever faults occur |
| `SagaPropriedades.PassoAPassoIgualCompra` | src/core/saga/compra-veiculo.saga.ts:67-90 | the four service steps run one by one without faults end in the same store and RETIRADO sale as one fault-free saga run |
| `SagaPropriedades.AteCodigoSucesso` | src/core/saga/compra-veiculo.saga.ts:149-168 | the partial saga succeeds exactly when the reservation is possible and the code step does not fault; the sale is then CODIGO_GERADO with its code and the vehicle still RESERVADO |
| `SagaPropriedades.AteCodigoFalhaNoCodigo` | src/core/saga/compra-veiculo.saga.ts:169-207 | a fault at the code step of the partial saga reports the original message; when compensation goes through, the final store is the original one plus the new sale, CANCELADO without code; otherwise a partial-saga compensation failure is logged and the sale stays RESERVADO |
| `SagaPropriedades.AteCodigoPreserva` | src/core/saga/compra-veiculo.saga.ts:149-208 | a partial saga run keeps the store coherent, whatever faults occur |

## Left out

- HTTP routes, controllers, request validation (Zod schemas), authentication,
  the buyers module, message queue and API documentation: these are I/O glue
  around the core.
- Concurrency and transaction isolation: every call runs alone against the
  store. Two interleaved sagas reserving the same vehicle are not modelled.
- The real clock and id generation are parameters (`agora`, `novoId`).
- Errors that are not `Error` objects: every modelled failure is an `Error`.
  The fallback messages "Erro desconhecido…" are therefore unreachable and
  not modelled.
- Prisma's own error texts for a missing record (`RegistroAusente`) and a
  missing buyer in a nested connect (`ClienteAusente`) are approximations.
- `VendasRepository.create` is not used by the modelled core and is not
  modelled.
- Relations loaded with `include` in the sale listing are not returned. Only
  the sale records are.
- The order of records with equal price is left unspecified.
- `preco` is an exact `real`, not a floating-point number.
- `VeiculosService` and `VeiculosRepository` calls are not given a fault
  oracle. Their database failures are not modelled.
- `VeiculosRepositorio.VeiculosRepository.SetStatus`: not proved to preserve
  coherence, because it can break it. The source calls it from nowhere in
  the core. The same holds for `VendasRepositorio.VendasRepository.Update`
  and `VendasRepositorio.VendasRepository.UpdateStatus`: they write a sale's
  status without touching its vehicle, so only the service steps that pair
  them with the vehicle write are proved to keep coherence.
- `VendasRepositorio.AplicarAlteracao`: narrows `Prisma.VendaUpdateInput` to
  the status and the payment code. Changing a sale's buyer, vehicle or id
  through `update` is not modelled; the core never calls `update`, only
  `updateStatus`.
- `VeiculosRepositorio.VeiculosRepository.ListByStatusOrdered`: accepts any
  stock status, whereas the source's type allows only DISPONIVEL and VENDIDO.
- `CodigoPagamento.Maiusculas`: upper-cases ASCII letters only, which is all
  a base-36 numeral contains.
- The `try`/`catch` of both saga entry points is an early return into
  `Falhar` at the first step that fails, with the current `venda` and
  `etapaAtual`.
- Each step after the reservation reads the sale, checks its status, then
  writes (src/modules/vendas/vendas.service.ts:58-73 and the steps after it).
  The write is not conditional on the status read. The model does the same,
  so a race between the check and the write, like other concurrency, is not
  modelled.
- `cancelarVenda` also cancels a PAGO sale and puts its VENDIDO vehicle back
  to DISPONIVEL (src/modules/vendas/vendas.service.ts:125-158). Only the full
  saga's compensation refuses to cancel a PAGO sale. The model does the same:
  see `MaquinaVendas.CancelarVenda` and `SagaPropriedades.PoliticasDivergem`.
- A write that commits and then throws, for example when the acknowledgement
  is lost, is not modelled. A fault in the model always leaves the store
  unchanged. The saga's critical log is therefore reachable only at
  RETIRADA, the one step whose sale is already PAGO when it fails.
