/**
 * The commercial records: brokers (Corretor), developments (Empreendimento) and
 * sales (Venda). A sale carries the broker and development it refers to, as a
 * query that follows those relations reads them. Money is in cents.
 */
module Comercial {
  import opened Wrappers
  import opened Calendar

  datatype Corretor = Corretor(nome: string, email: string, telefone: string, ativo: bool)

  datatype Empreendimento = Empreendimento(id: nat, nome: string, cidade: string, dataLancamento: Option<Date>)

  /** The status choices of a sale. */
  datatype VendaStatus = Ativa | Cancelada | Concluida

  /** The value stored in the status column. */
  function VendaStatusCode(s: VendaStatus): string
  {
    match s
    case Ativa => "ativa"
    case Cancelada => "cancelada"
    case Concluida => "concluida"
  }

  /** Reads a stored status; any value outside the three choices is rejected. */
  function ParseVendaStatus(code: string): (r: Option<VendaStatus>)
    ensures r.Some? ==> VendaStatusCode(r.value) == code
    ensures forall s :: VendaStatusCode(s) == code ==> r == Some(s)
  {
    if code == "ativa" then Some(Ativa)
    else if code == "cancelada" then Some(Cancelada)
    else if code == "concluida" then Some(Concluida)
    else None
  }

  datatype Venda = Venda(
    corretor: Corretor,
    empreendimento: Empreendimento,
    clienteNome: string,
    dataVenda: Date,
    unidadesVendidas: nat,
    valorContrato: Option<int>,
    status: VendaStatus)

  /** A sale created with the column defaults: one unit sold, status "ativa". */
  function NovaVenda(corretor: Corretor, empreendimento: Empreendimento, clienteNome: string,
                     dataVenda: Date, valorContrato: int): (v: Venda)
    ensures v.unidadesVendidas == 1 && v.status == Ativa
    ensures v.valorContrato == Some(valorContrato)
    ensures v.corretor == corretor && v.empreendimento == empreendimento
    ensures v.clienteNome == clienteNome && v.dataVenda == dataVenda
  {
    Venda(corretor, empreendimento, clienteNome, dataVenda, 1, Some(valorContrato), Ativa)
  }

  /** The contract value as a SUM over sales reads it: a NULL value adds nothing. */
  function ContractValue(v: Venda): int
  {
    OrZero(v.valorContrato)
  }

  /** The units sold, as summed by the dashboard. */
  function SaleUnits(v: Venda): int
  {
    v.unidadesVendidas
  }

  /** `Venda.ticket_medio`: contract value per unit sold; 0 when no unit was sold. */
  function TicketMedio(v: Venda): (r: real)
    ensures v.unidadesVendidas == 0 ==> r == 0.0
    ensures v.unidadesVendidas > 0 ==> r * v.unidadesVendidas as real == OrZero(v.valorContrato) as real
    ensures v.valorContrato == None ==> r == 0.0
  {
    if v.unidadesVendidas == 0 then 0.0
    else OrZero(v.valorContrato) as real / v.unidadesVendidas as real
  }

  /** A sale made with the defaults has its whole contract value as ticket. */
  lemma NovaVendaTicket(corretor: Corretor, empreendimento: Empreendimento, clienteNome: string,
                        dataVenda: Date, valorContrato: int)
    ensures TicketMedio(NovaVenda(corretor, empreendimento, clienteNome, dataVenda, valorContrato)) == valorContrato as real
  {
  }
}
