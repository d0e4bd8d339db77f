/** The rental domain: cars that move between available and rented,
    customers holding at most `LimiteCarrosPorCliente` rented cars, and the
    rental service that coordinates them. The clock is a parameter `agora`
    (integer microseconds) of every operation that reads it. */
module Dominio {
  import opened Tipos
  import opened Tarifas
  import opened Listas

  /** Most cars one customer may hold rented at the same time. */
  const LimiteCarrosPorCliente: nat := 2

  /** A car of the fleet: a two-state machine, available or rented. */
  class Carro {
    const modelo: string
    const placa: string
    const valorDiaria: real
    var disponivel: bool
    /** When the current rental started; set only while the car is rented. */
    var dataLocacao: Option<int>

    /** The rental time stamp is present exactly while the car is rented. */
    ghost predicate Valid()
      reads this
    {
      dataLocacao.Some? <==> !disponivel
    }

    constructor (modelo: string, placa: string, valorDiaria: real)
      ensures this.modelo == modelo && this.placa == placa && this.valorDiaria == valorDiaria
      ensures disponivel && dataLocacao == None
      ensures Valid()
    {
      this.modelo := modelo;
      this.placa := placa;
      this.valorDiaria := valorDiaria;
      disponivel := true;
      dataLocacao := None;
    }

    /** Available -> Rented, stamping the rental with `agora`; a rented car
        is refused with nothing changed. */
    method Alugar(agora: int) returns (r: Resultado)
      modifies this
      ensures old(disponivel) ==> r == Ok && !disponivel && dataLocacao == Some(agora)
      ensures !old(disponivel) ==> r == Falha(CarroIndisponivel) && unchanged(this)
      ensures old(Valid()) ==> Valid()
    {
      if !disponivel {
        return Falha(CarroIndisponivel);
      }
      disponivel := false;
      dataLocacao := Some(agora);
      r := Ok;
    }

    /** Rented -> Available, clearing the time stamp; an available car is
        refused with the generic error and nothing changed. */
    method Devolver() returns (r: Resultado)
      modifies this
      ensures !old(disponivel) ==> r == Ok && disponivel && dataLocacao == None
      ensures old(disponivel) ==> r == Falha(LocadoraErro) && unchanged(this)
      ensures old(Valid()) ==> Valid()
    {
      if disponivel {
        return Falha(LocadoraErro);
      }
      disponivel := true;
      dataLocacao := None;
      r := Ok;
    }

    /** What returning the car at `agora` costs, for `diasPrevistos` agreed
        days: nothing when no rental is under way, otherwise the fee for the
        whole days elapsed since the rental started. Reads the car only. */
    function CalcularPagamento(diasPrevistos: int, agora: int): (r: Cobranca)
      reads this
      ensures dataLocacao.None? ==> r == Cobranca(0.0, 0.0)
      ensures dataLocacao.Some? ==>
                r == Pagamento(valorDiaria, DiasDecorridos(dataLocacao.value, agora), diasPrevistos)
    {
      match dataLocacao
      case None => Cobranca(0.0, 0.0)
      case Some(inicio) => Pagamento(valorDiaria, DiasDecorridos(inicio, agora), diasPrevistos)
    }
  }

  /** A customer and the cars they currently hold, in the order rented. */
  class Cliente {
    const nome: string
    const id: int
    var carrosAlugados: seq<Carro>

    /** At most `LimiteCarrosPorCliente` cars, none twice, each of them
        rented and consistent. */
    ghost predicate Valid()
      reads this, carrosAlugados
    {
      && |carrosAlugados| <= LimiteCarrosPorCliente
      && SemRepeticao(carrosAlugados)
      && forall c :: c in carrosAlugados ==> !c.disponivel && c.Valid()
    }

    constructor (nome: string, id: int)
      ensures this.nome == nome && this.id == id
      ensures carrosAlugados == []
      ensures Valid()
    {
      this.nome := nome;
      this.id := id;
      carrosAlugados := [];
    }

    /** Whether the customer has room for one more car under the cap. */
    function PodeAlugar(): (r: bool)
      reads this
      ensures r ==> |carrosAlugados| + 1 <= LimiteCarrosPorCliente
      ensures !r ==> |carrosAlugados| >= LimiteCarrosPorCliente
    {
      |carrosAlugados| < LimiteCarrosPorCliente
    }

    /** Rents `carro` to this customer: the cap is checked first, then the
        car is rented, and only then is it appended to the list. */
    method AlugarCarro(carro: Carro, agora: int) returns (r: Resultado)
      modifies this, carro
      ensures !old(PodeAlugar()) ==>
                r == Falha(LimiteLocacaoExcedido) && unchanged(this, carro)
      ensures old(PodeAlugar()) && !old(carro.disponivel) ==>
                r == Falha(CarroIndisponivel) && unchanged(this, carro)
      ensures old(PodeAlugar()) && old(carro.disponivel) ==>
                && r == Ok
                && carrosAlugados == old(carrosAlugados) + [carro]
                && !carro.disponivel && carro.dataLocacao == Some(agora)
      ensures old(Valid()) ==> Valid()
    {
      if !PodeAlugar() {
        return Falha(LimiteLocacaoExcedido);
      }
      ghost var antes := carrosAlugados;
      r := carro.Alugar(agora);
      if r.Falha? {
        return;
      }
      if old(Valid()) {
        assert carro !in antes;
        AnexarSemRepeticao(antes, carro);
      }
      carrosAlugados := carrosAlugados + [carro];
    }

    /** Takes `carro` back from this customer: it must be in the list; the
        car is returned, and only then is it removed from the list. */
    method DevolverCarro(carro: Carro) returns (r: Resultado)
      modifies this, carro
      ensures carro !in old(carrosAlugados) ==>
                r == Falha(CarroNaoAlugado) && unchanged(this, carro)
      ensures carro in old(carrosAlugados) && old(carro.disponivel) ==>
                r == Falha(LocadoraErro) && unchanged(this, carro)
      ensures carro in old(carrosAlugados) && !old(carro.disponivel) ==>
                && r == Ok
                && carro.disponivel && carro.dataLocacao == None
                && carrosAlugados == RemoverPrimeiro(old(carrosAlugados), carro)
      ensures old(Valid()) && r == Ok ==>
                && |carrosAlugados| == old(|carrosAlugados|) - 1
                && forall c :: c in carrosAlugados <==> c in old(carrosAlugados) && c != carro
      ensures old(Valid()) ==> Valid()
    {
      if carro !in carrosAlugados {
        return Falha(CarroNaoAlugado);
      }
      ghost var antes := carrosAlugados;
      r := carro.Devolver();
      if r.Falha? {
        return;
      }
      carrosAlugados := RemoverPrimeiro(carrosAlugados, carro);
      if old(Valid()) {
        RemoverSemRepeticao(antes, carro);
      }
    }
  }

  /** The rental service: a fleet and the registered customers, both shared
      with whoever built them; it only coordinates their operations. */
  class Locadora {
    const carros: seq<Carro>
    const clientes: seq<Cliente>

    /** Every fleet car is consistent; customers are distinct, each within
        the cap, holding fleet cars only, none twice; and a fleet car is
        rented exactly when some customer holds it, no two customers
        holding the same car. */
    ghost predicate Valid()
      reads this, carros, clientes
    {
      && (forall c :: c in carros ==> c.Valid())
      && (forall i, j :: 0 <= i < j < |clientes| ==> clientes[i] != clientes[j])
      && (forall k :: k in clientes ==>
            && |k.carrosAlugados| <= LimiteCarrosPorCliente
            && SemRepeticao(k.carrosAlugados)
            && forall c :: c in k.carrosAlugados ==> c in carros)
      && (forall c :: c in carros ==>
            (!c.disponivel <==> exists k :: k in clientes && c in k.carrosAlugados))
      && (forall i, j, c ::
            0 <= i < |clientes| && 0 <= j < |clientes| && i != j && c in clientes[i].carrosAlugados
            ==> c !in clientes[j].carrosAlugados)
    }

    constructor (carros: seq<Carro>, clientes: seq<Cliente>)
      ensures this.carros == carros && this.clientes == clientes
      ensures (forall c :: c in carros ==> c.disponivel && c.Valid())
              && (forall k :: k in clientes ==> k.carrosAlugados == [])
              && (forall i, j :: 0 <= i < j < |clientes| ==> clientes[i] != clientes[j])
              ==> Valid()
    {
      this.carros := carros;
      this.clientes := clientes;
    }

    /** Rents `carro` to `cliente`, with the customer's checks and their
        order; errors reach the caller unchanged. */
    method Alugar(cliente: Cliente, carro: Carro, agora: int) returns (r: Resultado)
      modifies cliente, carro
      ensures !old(cliente.PodeAlugar()) ==>
                r == Falha(LimiteLocacaoExcedido) && unchanged(cliente, carro)
      ensures old(cliente.PodeAlugar()) && !old(carro.disponivel) ==>
                r == Falha(CarroIndisponivel) && unchanged(cliente, carro)
      ensures old(cliente.PodeAlugar()) && old(carro.disponivel) ==>
                && r == Ok
                && cliente.carrosAlugados == old(cliente.carrosAlugados) + [carro]
                && !carro.disponivel && carro.dataLocacao == Some(agora)
      ensures old(Valid()) && cliente in clientes && carro in carros ==> Valid()
    {
      r := cliente.AlugarCarro(carro, agora);
    }

    /** Takes `carro` back from `cliente` and returns what it costs. The fee
        is computed before the car is returned, since returning clears the
        time stamp the fee is computed from; errors reach the caller and
        discard the fee. */
    method Devolver(cliente: Cliente, carro: Carro, diasPrevistos: int, agora: int)
      returns (r: Retorno<Cobranca>)
      modifies cliente, carro
      ensures carro !in old(cliente.carrosAlugados) ==>
                r == Falhou(CarroNaoAlugado) && unchanged(cliente, carro)
      ensures carro in old(cliente.carrosAlugados) && old(carro.disponivel) ==>
                r == Falhou(LocadoraErro) && unchanged(cliente, carro)
      ensures carro in old(cliente.carrosAlugados) && !old(carro.disponivel) ==>
                && r == Sucesso(old(carro.CalcularPagamento(diasPrevistos, agora)))
                && carro.disponivel && carro.dataLocacao == None
                && cliente.carrosAlugados == RemoverPrimeiro(old(cliente.carrosAlugados), carro)
      ensures r.Sucesso? && old(carro.dataLocacao).Some? ==>
                r.valor == Pagamento(carro.valorDiaria,
                                     DiasDecorridos(old(carro.dataLocacao).value, agora),
                                     diasPrevistos)
      // Computing the fee after the return would bill nothing.
      ensures r.Sucesso? ==> carro.CalcularPagamento(diasPrevistos, agora) == Cobranca(0.0, 0.0)
      ensures old(Valid()) && cliente in clientes ==> Valid()
    {
      var cobranca := carro.CalcularPagamento(diasPrevistos, agora);
      ghost var antes := cliente.carrosAlugados;
      var devolvido := cliente.DevolverCarro(carro);
      if devolvido.Falha? {
        return Falhou(devolvido.erro);
      }
      r := Sucesso(cobranca);
      if old(Valid()) && cliente in clientes {
        RemoverSemRepeticao(antes, carro);
      }
    }
  }

  /** Under the service invariant a rented fleet car is held by exactly one
      registered customer. */
  lemma DonoUnico(locadora: Locadora, carro: Carro) returns (i: nat)
    requires locadora.Valid() && carro in locadora.carros && !carro.disponivel
    ensures i < |locadora.clientes| && carro in locadora.clientes[i].carrosAlugados
    ensures forall j :: 0 <= j < |locadora.clientes| && j != i ==>
              carro !in locadora.clientes[j].carrosAlugados
  {
    var dono :| dono in locadora.clientes && carro in dono.carrosAlugados;
    i := PrimeiroIndice(locadora.clientes, dono);
  }
}
