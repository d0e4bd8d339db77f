# Car rental (locadora) — a verified Dafny model

This project models the rules of a small car-rental business written in
Python (`locadora.py`):

- a **car** (`Carro`) is a two-state machine, available or rented; renting
  stamps the rental with the current time, returning clears the stamp, and
  both transitions refuse the wrong state with nothing changed;
- the **fee** for a return (`calcular_pagamento`) is the whole days elapsed
  times the daily rate, plus a late penalty of 10% of the daily rate
  (`TAXA_MULTA_DIARIA`) for each day past the agreed days;
- a **customer** (`Cliente`) holds at most two rented cars
  (`LIMITE_CARROS_POR_CLIENTE`); renting checks the cap before the car,
  returning checks that the customer holds the car;
- the **rental service** (`Locadora`) delegates to the customer and, on a
  return, computes the fee *before* the car is returned, because returning
  clears the time stamp the fee is computed from.

Files:

- `tipos.dfy` (module `Tipos`): `Option`, the error kinds `Erro`
  (`LocadoraErro`, the generic kind, plus `LimiteLocacaoExcedido`,
  `CarroIndisponivel`, `CarroNaoAlugado`) and the outcomes `Resultado` and
  `Retorno<T>` that replace the Python exceptions.
- `tarifas.dfy` (module `Tarifas`): the fee formula as pure functions, a
  day-by-day reference definition of the bill, and lemmas about them.
- `listas.dfy` (module `Listas`): append and `list.remove` (first
  occurrence) on sequences, with lemmas about lists without repetitions.
- `dominio.dfy` (module `Dominio`): the classes `Carro`, `Cliente` and
  `Locadora` with their fields, object invariants (`Valid`) and the methods
  that change them.
- `cenarios.dfy` (module `Cenarios`): concrete runs that mirror the
  repository's tests; each fixes its outcome in its postcondition.

Representation choices:

- The clock is a parameter `agora` (integer microseconds, the resolution of
  Python's `datetime`). Elapsed days are `(agora - inicio) / 86_400_000_000`;
  Dafny's `/` rounds down for a positive divisor, as `timedelta.days` does,
  also for negative differences.
- Money is exact (`real`); `0.10` is exactly one tenth.
- A customer's list is a `seq<Carro>` of object references. `Carro` defines
  no equality in Python, so `in` and `list.remove` compare identity, which
  is what `==` on Dafny references does.
- The fleet and the customer list of `Locadora` are `const` sequences: the
  service never changes the lists, only the objects in them.

Where the tests and the code disagree, the model follows `locadora.py`:
`test_locadora.py` calls `devolver(dias_alugado_previsto=...)` returning a
pair and a two-argument `devolver_carro`, neither of which exists in
`locadora.py`. Its fee examples (900 with no penalty; 1411 with 51 of
penalty) are reproduced in `Cenarios`. The tests move the rental time stamp
back by assigning to it; the scenarios instead rent at the earlier instant,
which sets the same field to the same value.

## Model

| member | source | states |
|---|---|---|
| `Tarifas.DiasDecorridos` | locadora.py:56 | the elapsed days are the largest whole number of days that fit between the rental stamp and now (floor, also when now precedes the stamp) |
| `Tarifas.Pagamento` | locadora.py:57-64 | no penalty when returned within the agreed days; with a positive rate there is a penalty exactly when the car is late; with a non-negative rate and elapsed days the penalty is non-negative and no larger than the total |
| `Tarifas.PagamentoDiaADia` | locadora.py:57-64 | the closed formula equals the bill added up one day at a time, each day costing the rate plus 10% of it once past the agreed days |
| `Tarifas.PagamentoMonotono` | locadora.py:57-64 | with a non-negative rate, more elapsed days never lower the total nor the penalty |
| `Tarifas.MultaLimitada` | locadora.py:59-63 | the penalty is at most 10% (`TAXA_MULTA_DIARIA`) of the rental part `days * rate` |
| `Listas.PrimeiroIndice` | locadora.py:96 | the position found holds the element and no earlier position does |
| `Listas.RemoverPrimeiroRecorta` | locadora.py:96 | `remove` cuts out exactly the first occurrence, every other car keeping its order |
| `Listas.RemoverSemRepeticao` | locadora.py:96 | on a list without repetitions, `remove` of a held car shortens the list by one, drops that car and only it, and keeps it free of repetitions |
| `Listas.AnexarSemRepeticao` | locadora.py:89 | appending a car not yet held keeps the list free of repetitions |
| `Dominio.Carro.constructor` | locadora.py:30-35 | a new car keeps its model, plate and rate, is available, has no rental stamp, and satisfies the invariant "stamp present iff rented" |
| `Dominio.Carro.Alugar` | locadora.py:37-42 | an available car becomes rented stamped with now; a rented car fails with `CarroIndisponivel` and nothing changes; the invariant is preserved |
| `Dominio.Carro.Devolver` | locadora.py:44-49 | a rented car becomes available with no stamp (its initial state); an available car fails with the generic `LocadoraErro` and nothing changes; the invariant is preserved |
| `Dominio.Carro.CalcularPagamento` | locadora.py:51-64 | reads the car only; `(0, 0)` when there is no rental stamp, otherwise the fee for the whole days elapsed since the stamp |
| `Dominio.Cliente.constructor` | locadora.py:73-76 | a new customer holds no cars and satisfies the customer invariant |
| `Dominio.Cliente.PodeAlugar` | locadora.py:78-80 | true exactly when one more car still fits under the cap of 2 |
| `Dominio.Cliente.AlugarCarro` | locadora.py:82-89 | at the cap: `LimiteLocacaoExcedido` with neither customer nor car changed, even for an available car; under the cap with a rented car: `CarroIndisponivel` with nothing changed; otherwise the car is rented and appended once; the invariant (cap, no repetitions, all held cars rented) is preserved |
| `Dominio.Cliente.DevolverCarro` | locadora.py:91-96 | a car not held: `CarroNaoAlugado` with nothing changed, whatever the car's own state; a held car is returned and its first occurrence removed, the others keeping their order, the list one shorter; the invariant is preserved |
| `Dominio.Locadora.constructor` | locadora.py:105-107 | the service shares the given fleet and customers; with available cars, distinct customers and empty lists it starts out consistent |
| `Dominio.Locadora.Alugar` | locadora.py:109-111 | the customer's outcome and changes, errors propagated; renting a fleet car to a registered customer keeps the service invariant (a fleet car is rented exactly when one customer holds it) |
| `Dominio.Locadora.Devolver` | locadora.py:114-117 | on success returns the fee computed from the stamp before the return, after which computing it again would give `(0, 0)`; errors propagate unchanged and discard the fee; the service invariant is preserved |
| `Dominio.DonoUnico` | locadora.py:82-96 | under the service invariant, a rented fleet car is held by exactly one customer |
| `Cenarios.CicloAlugarDevolver` | test_locadora.py:7-20 | rent then return: available again, no stamp, no penalty, nothing due at the same instant |
| `Cenarios.AlugarCarroIndisponivel` | test_locadora.py:22-28 | renting a rented car fails with `CarroIndisponivel` and keeps the first stamp |
| `Cenarios.ClienteExcedeLimite` | test_locadora.py:30-41 | two rentals succeed, the third fails with `LimiteLocacaoExcedido`, two cars stay held and the third car stays available |
| `Cenarios.DevolverCarroNaoAlugado` | test_locadora.py:43-49 | returning a car the customer never rented fails with `CarroNaoAlugado` |
| `Cenarios.PagamentoSemMulta` | test_locadora.py:51-63 | rate 180, five days elapsed, seven agreed: `(900, 0)` |
| `Cenarios.PagamentoComMulta` | test_locadora.py:65-81 | rate 170, eight days elapsed, five agreed: `(1411, 51)` |

## Left out

- Console output: `__str__` of cars and customers, `exibir_status` and the
  messages printed by `Locadora.alugar` and `Locadora.devolver`
  (locadora.py:66-68, 98-99, 112, 119-132); they only display state.
- The `__main__` demonstration (locadora.py:136-182): scripted console I/O.
- Reading the wall clock (`datetime.now()`): the current instant is the
  parameter `agora`.
- Floating-point rounding of `valor_diaria * 0.10` and of the sums: money is
  exact.
- Exception messages and the exception class hierarchy: only the distinct
  error kinds are modelled, so catching the base kind for all of them is not.
- Assigning to `data_locacao` from outside the class: no operation of the
  core does it; the scenarios rent at the earlier instant instead.
- The customer's `nome` and `id` and the car's `modelo` and `placa` are kept
  as constants but play no part in any rule.
