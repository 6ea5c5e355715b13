/**
 * Receivable installments (Recebivel) of a sale. Money is in cents; a missing
 * amount (an unsaved instance) reads as zero in the derived values.
 */
module Carteira {
  import opened Wrappers
  import opened Calendar
  import opened Comercial

  /** The status choices of an installment. */
  datatype Status = Aberto | Pago | Atrasado | Renegociado

  /** The value stored in the status column. */
  function StatusCode(s: Status): string
  {
    match s
    case Aberto => "aberto"
    case Pago => "pago"
    case Atrasado => "atrasado"
    case Renegociado => "renegociado"
  }

  /** Reads a stored status; any value outside the four choices is rejected. */
  function ParseStatus(code: string): (r: Option<Status>)
    ensures r.Some? ==> StatusCode(r.value) == code
    ensures forall s :: StatusCode(s) == code ==> r == Some(s)
  {
    if code == "aberto" then Some(Aberto)
    else if code == "pago" then Some(Pago)
    else if code == "atrasado" then Some(Atrasado)
    else if code == "renegociado" then Some(Renegociado)
    else None
  }

  datatype Recebivel = Recebivel(
    venda: Venda,
    dataVencimento: Option<Date>,
    valor: Option<int>,
    dataPagamento: Option<Date>,
    valorPago: Option<int>,
    status: Status)

  /** An installment created with the column defaults: nothing paid, status "aberto". */
  function NovoRecebivel(venda: Venda, dataVencimento: Date, valor: int): (r: Recebivel)
    ensures r.status == Aberto && r.valorPago == Some(0) && r.dataPagamento == None
    ensures r.venda == venda && r.dataVencimento == Some(dataVencimento) && r.valor == Some(valor)
  {
    Recebivel(venda, Some(dataVencimento), Some(valor), None, Some(0), Aberto)
  }

  /** `esta_em_atraso`: the status marks the installment as overdue. */
  predicate EstaEmAtraso(r: Recebivel)
    ensures EstaEmAtraso(r) <==> r.status in {Atrasado, Renegociado}
    ensures r.status == Pago || r.status == Aberto ==> !EstaEmAtraso(r)
  {
    r.status == Atrasado || r.status == Renegociado
  }

  /** `saldo_devedor`: what is still owed, so that paid plus owed is the amount. */
  function SaldoDevedor(r: Recebivel): (s: int)
    ensures s + OrZero(r.valorPago) == OrZero(r.valor)
  {
    OrZero(r.valor) - OrZero(r.valorPago)
  }

  /** A fresh installment owes its whole amount. */
  lemma NovoRecebivelSaldo(venda: Venda, dataVencimento: Date, valor: int)
    ensures SaldoDevedor(NovoRecebivel(venda, dataVencimento, valor)) == valor
    ensures !EstaEmAtraso(NovoRecebivel(venda, dataVencimento, valor))
  {
  }

  /** `dias_em_atraso` as of `hoje`: days past the due date of an overdue-status installment, never negative. */
  function DiasEmAtraso(r: Recebivel, hoje: Date): (d: int)
    ensures d >= 0
    ensures r.dataVencimento == None || !EstaEmAtraso(r) ==> d == 0
    ensures r.dataVencimento.Some? && EstaEmAtraso(r) && DaysBetween(hoje, r.dataVencimento.value) >= 0
            ==> d == DaysBetween(hoje, r.dataVencimento.value)
    ensures r.dataVencimento.Some? && DaysBetween(hoje, r.dataVencimento.value) <= 0 ==> d == 0
  {
    if r.dataVencimento == None || !EstaEmAtraso(r) then 0
    else
      var delta := DaysBetween(hoje, r.dataVencimento.value);
      if delta > 0 then delta else 0
  }
}
