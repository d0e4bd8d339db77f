/** Concrete runs of the rental domain, each fixing its outcome in its
    postcondition from the operations' contracts alone. */
module Cenarios {
  import opened Tipos
  import opened Tarifas
  import opened Dominio

  /** A car rented and returned comes back available, without time stamp,
      and a return at the instant of renting costs nothing. */
  method CicloAlugarDevolver(agora: int) returns (alugado: Resultado, devolvido: Retorno<Cobranca>,
                                                  disponivel: bool, semData: bool)
    ensures alugado == Ok
    ensures devolvido == Sucesso(Cobranca(0.0, 0.0))
    ensures disponivel && semData
  {
    var carro := new Carro("Fusca", "XYZ-0011", 100.0);
    var cliente := new Cliente("Ana", 303);
    var locadora := new Locadora([carro], [cliente]);
    alugado := locadora.Alugar(cliente, carro, agora);
    devolvido := locadora.Devolver(cliente, carro, 5, agora);
    disponivel := carro.disponivel;
    semData := carro.dataLocacao == None;
  }

  /** Renting a car twice fails the second time, and the car stays rented
      since the first time stamp. */
  method AlugarCarroIndisponivel(agora: int, depois: int)
    returns (primeiro: Resultado, segundo: Resultado, data: Option<int>)
    ensures primeiro == Ok && segundo == Falha(CarroIndisponivel)
    ensures data == Some(agora)
  {
    var carro := new Carro("Corsa", "BCA-1122", 120.0);
    primeiro := carro.Alugar(agora);
    segundo := carro.Alugar(depois);
    data := carro.dataLocacao;
  }

  /** A fresh customer can rent two cars; the third is refused for the cap,
      the list keeps two cars and the third car stays available. */
  method ClienteExcedeLimite(agora: int)
    returns (r1: Resultado, r2: Resultado, r3: Resultado, alugados: nat, terceiroDisponivel: bool)
    ensures r1 == Ok && r2 == Ok
    ensures r3 == Falha(LimiteLocacaoExcedido)
    ensures alugados == 2 && terceiroDisponivel
  {
    var cliente := new Cliente("Carlos", 202);
    var carro1 := new Carro("Gol", "CDE-3344", 130.0);
    var carro2 := new Carro("Palio", "EFG-5566", 140.0);
    var carro3 := new Carro("Uno", "GHI-7788", 110.0);
    r1 := cliente.AlugarCarro(carro1, agora);
    r2 := cliente.AlugarCarro(carro2, agora);
    r3 := cliente.AlugarCarro(carro3, agora);
    alugados := |cliente.carrosAlugados|;
    terceiroDisponivel := carro3.disponivel;
  }

  /** Returning a car the customer never rented is refused. */
  method DevolverCarroNaoAlugado() returns (r: Resultado)
    ensures r == Falha(CarroNaoAlugado)
  {
    var cliente := new Cliente("Ana", 303);
    var carro := new Carro("Civic", "IJK-9900", 250.0);
    r := cliente.DevolverCarro(carro);
  }

  /** Rented five days before `agora` at 180 a day with seven days agreed:
      900 due, no penalty. */
  method PagamentoSemMulta(agora: int) returns (c: Cobranca)
    ensures c == Cobranca(900.0, 0.0)
  {
    var carro := new Carro("HB20", "LMN-1212", 180.0);
    var _ := carro.Alugar(agora - 5 * MicrosPorDia);
    c := carro.CalcularPagamento(7, agora);
  }

  /** Rented eight days before `agora` at 170 a day with five days agreed:
      three late days, 51 of penalty, 1411 due. */
  method PagamentoComMulta(agora: int) returns (c: Cobranca)
    ensures c == Cobranca(1411.0, 51.0)
  {
    var carro := new Carro("Onix", "OPQ-3434", 170.0);
    var _ := carro.Alugar(agora - 8 * MicrosPorDia);
    c := carro.CalcularPagamento(5, agora);
  }
}
