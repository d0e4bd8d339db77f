/** Value types shared by the rental domain: an optional value and the
    outcome of an operation that can fail with one of the domain's error kinds. */
module Tipos {

  datatype Option<+T> = None | Some(value: T)

  /** The failure kinds of the rental domain. `LocadoraErro` is the generic
      kind, raised on its own when an already available car is returned. */
  datatype Erro =
    | LocadoraErro
    | LimiteLocacaoExcedido
    | CarroIndisponivel
    | CarroNaoAlugado

  /** Outcome of an operation that returns nothing when it succeeds. */
  datatype Resultado = Ok | Falha(erro: Erro)

  /** Outcome of an operation that returns a value when it succeeds. */
  datatype Retorno<+T> = Sucesso(valor: T) | Falhou(erro: Erro)
}
