/** The rental fee: whole days elapsed times the daily rate, plus a late
    penalty of `TaxaMultaDiaria` of the daily rate for every day past the
    expected number of days. Money is exact (`real`); time stamps are
    integer microseconds, the resolution of the clock the system reads. */
module Tarifas {

  /** Penalty per late day, as a fraction of the daily rate (10%). */
  const TaxaMultaDiaria: real := 0.10

  /** Length of one day in the unit of the time stamps. */
  const MicrosPorDia: int := 86_400_000_000

  /** What a return costs: the amount due and, inside it, the late penalty. */
  datatype Cobranca = Cobranca(total: real, multa: real)

  /** Whole days between two instants, rounded down (also when `agora` is
      before `inicio`), as a time difference reports its days. */
  function DiasDecorridos(inicio: int, agora: int): (d: int)
    ensures inicio + d * MicrosPorDia <= agora < inicio + (d + 1) * MicrosPorDia
  {
    (agora - inicio) / MicrosPorDia
  }

  /** The fee for `diasReais` days at `valorDiaria` when `diasPrevistos`
      days were agreed. */
  function Pagamento(valorDiaria: real, diasReais: int, diasPrevistos: int): (r: Cobranca)
    ensures diasReais <= diasPrevistos ==> r.multa == 0.0
    ensures valorDiaria > 0.0 ==> (r.multa > 0.0 <==> diasReais > diasPrevistos)
    ensures valorDiaria >= 0.0 && diasReais >= 0 ==> 0.0 <= r.multa <= r.total
  {
    var multa :=
      if diasReais > diasPrevistos then
        (diasReais - diasPrevistos) as real * (valorDiaria * TaxaMultaDiaria)
      else 0.0;
    var valorAluguel := diasReais as real * valorDiaria;
    Cobranca(valorAluguel + multa, multa)
  }

  lemma ProdutoPositivo(a: real, b: real)
    ensures a >= 0.0 && b >= 0.0 ==> a * b >= 0.0
    ensures a > 0.0 && b > 0.0 ==> a * b > 0.0
  {
  }

  /** Reference definition of the fee, built one day at a time: day `dias`
      (counting from 1) costs the daily rate, plus `TaxaMultaDiaria` of it
      when that day falls after the agreed `diasPrevistos`. */
  function CobrancaDiaADia(valorDiaria: real, dias: nat, diasPrevistos: nat): Cobranca
  {
    if dias == 0 then Cobranca(0.0, 0.0)
    else
      var ate := CobrancaDiaADia(valorDiaria, dias - 1, diasPrevistos);
      var multaDoDia := if dias > diasPrevistos then valorDiaria * TaxaMultaDiaria else 0.0;
      Cobranca(ate.total + valorDiaria + multaDoDia, ate.multa + multaDoDia)
  }

  /** The closed formula charges exactly what the day-by-day bill adds up to. */
  lemma {:induction false} PagamentoDiaADia(valorDiaria: real, dias: nat, diasPrevistos: nat)
    ensures Pagamento(valorDiaria, dias, diasPrevistos) == CobrancaDiaADia(valorDiaria, dias, diasPrevistos)
  {
    if dias > 0 {
      PagamentoDiaADia(valorDiaria, dias - 1, diasPrevistos);
      var m := valorDiaria * TaxaMultaDiaria;
      assert dias as real * valorDiaria == (dias - 1) as real * valorDiaria + valorDiaria;
      if dias > diasPrevistos {
        assert (dias - diasPrevistos) as real * m == (dias - 1 - diasPrevistos) as real * m + m;
      }
    }
  }

  /** With a non-negative rate, keeping the car longer never costs less,
      neither in total nor in penalty. */
  lemma {:induction false} PagamentoMonotono(valorDiaria: real, d1: nat, d2: nat, diasPrevistos: nat)
    requires valorDiaria >= 0.0 && d1 <= d2
    ensures Pagamento(valorDiaria, d1, diasPrevistos).total <= Pagamento(valorDiaria, d2, diasPrevistos).total
    ensures Pagamento(valorDiaria, d1, diasPrevistos).multa <= Pagamento(valorDiaria, d2, diasPrevistos).multa
  {
    if d1 < d2 {
      PagamentoMonotono(valorDiaria, d1, d2 - 1, diasPrevistos);
      PagamentoDiaADia(valorDiaria, d2 - 1, diasPrevistos);
      PagamentoDiaADia(valorDiaria, d2, diasPrevistos);
    }
  }

  /** The penalty never exceeds `TaxaMultaDiaria` of the rental part of the
      bill, because no more days can be late than were elapsed. */
  lemma MultaLimitada(valorDiaria: real, diasReais: nat, diasPrevistos: nat)
    requires valorDiaria >= 0.0
    ensures Pagamento(valorDiaria, diasReais, diasPrevistos).multa
         <= TaxaMultaDiaria * (Pagamento(valorDiaria, diasReais, diasPrevistos).total
                               - Pagamento(valorDiaria, diasReais, diasPrevistos).multa)
  {
    var r := Pagamento(valorDiaria, diasReais, diasPrevistos);
    assert r.total - r.multa == diasReais as real * valorDiaria;
    if diasReais > diasPrevistos {
      var atraso := (diasReais - diasPrevistos) as real;
      ProdutoPositivo(diasReais as real - atraso, valorDiaria * TaxaMultaDiaria);
      assert r.multa == atraso * (valorDiaria * TaxaMultaDiaria);
      assert TaxaMultaDiaria * (diasReais as real * valorDiaria)
          == atraso * (valorDiaria * TaxaMultaDiaria) + (diasReais as real - atraso) * (valorDiaria * TaxaMultaDiaria);
    } else {
      ProdutoPositivo(diasReais as real, valorDiaria);
    }
  }
}
