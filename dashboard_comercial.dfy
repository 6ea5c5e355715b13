/**
 * The commercial KPIs of the dashboard: sales totals, the average ticket per
 * sale and per unit, and sales grouped by broker and development.
 */
module DashboardComercial {
  import opened Wrappers
  import opened Aggregates
  import opened Comercial
  import opened Ratios

  /** SUM(valor_contrato), 0 when there is no sale. */
  function TotalVendas(vs: seq<Venda>): int
  {
    Total(vs, ContractValue)
  }

  /** SUM(unidades_vendidas), 0 when there is no sale. */
  function TotalUnidades(vs: seq<Venda>): int
  {
    Total(vs, SaleUnits)
  }

  /** The number of sales whose contract value is not NULL: what AVG divides by. */
  function ValuedSales(vs: seq<Venda>): (n: int)
    ensures 0 <= n <= |vs|
  {
    if vs == [] then 0 else ValuedSales(vs[..|vs| - 1]) + (if vs[|vs| - 1].valorContrato.Some? then 1 else 0)
  }

  /** `ticket_medio` of the report: AVG(valor_contrato), 0 when no sale has a value. */
  function TicketMedioVenda(vs: seq<Venda>): (r: real)
    ensures ValuedSales(vs) == 0 ==> r == 0.0
    ensures ValuedSales(vs) != 0 ==> r * ValuedSales(vs) as real == TotalVendas(vs) as real
  {
    Ratio(TotalVendas(vs), ValuedSales(vs))
  }

  /** `ticket_medio_por_unidade`: total value per unit sold, 0 when no unit was sold. */
  function TicketMedioPorUnidade(vs: seq<Venda>): (r: real)
    ensures TotalUnidades(vs) == 0 ==> r == 0.0
    ensures TotalUnidades(vs) != 0 ==> r * TotalUnidades(vs) as real == TotalVendas(vs) as real
  {
    Ratio(TotalVendas(vs), TotalUnidades(vs))
  }

  /** For a single sale the report's per-unit ticket is that sale's own `ticket_medio`. */
  lemma TicketPorUnidadeOfOneSale(v: Venda)
    ensures TicketMedioPorUnidade([v]) == TicketMedio(v)
  {
    TotalOfOne(v, ContractValue);
    TotalOfOne(v, SaleUnits);
  }

  /** The scenario of the dashboard test: one sale of 500000.00 for 2 units. */
  lemma TicketScenario(v: Venda)
    requires v.valorContrato == Some(50000000) && v.unidadesVendidas == 2
    ensures TotalVendas([v]) == 50000000 && TotalUnidades([v]) == 2
    ensures TicketMedioPorUnidade([v]) == 25000000.0
    ensures TicketMedioVenda([v]) == 50000000.0
  {
    TotalOfOne(v, ContractValue);
    TotalOfOne(v, SaleUnits);
    assert [v][..0] == [];
  }

  // ---------------------------------------------------------------------------
  // vendas_por_corretor

  /** The (broker name, development name) pair a sale is grouped under. */
  datatype BrokerDevelopment = BrokerDevelopment(corretor: string, empreendimento: string)

  function SaleBrokerDevelopment(v: Venda): Option<BrokerDevelopment>
  {
    Some(BrokerDevelopment(v.corretor.nome, v.empreendimento.nome))
  }

  datatype SalesGroup = SalesGroup(corretor: string, empreendimento: string, totalValor: int, totalUnidades: int)

  /** The pair a result row stands for. */
  function GroupPair(g: SalesGroup): BrokerDevelopment
  {
    BrokerDevelopment(g.corretor, g.empreendimento)
  }

  function GroupValor(g: SalesGroup): int
  {
    g.totalValor
  }

  function GroupUnidades(g: SalesGroup): int
  {
    g.totalUnidades
  }

  /**
   * `vendas_por_corretor`: one row for each (broker, development) pair that
   * some sale carries, and for no other pair, each pair once; a row holds the
   * value and units of exactly that pair's sales, so that the rows add up to
   * the sales totals.
   */
  function VendasPorCorretor(vs: seq<Venda>): (rows: seq<SalesGroup>)
    ensures ListsEachKeyOnce(rows, GroupPair, vs, SaleBrokerDevelopment)
    ensures HoldsGroupTotals(rows, GroupPair, GroupValor, vs, SaleBrokerDevelopment, ContractValue)
    ensures HoldsGroupTotals(rows, GroupPair, GroupUnidades, vs, SaleBrokerDevelopment, SaleUnits)
    ensures Total(rows, GroupValor) == TotalVendas(vs)
    ensures Total(rows, GroupUnidades) == TotalUnidades(vs)
  {
    var ks := DistinctKeys(vs, SaleBrokerDevelopment);
    var rows := seq(|ks|, i requires 0 <= i < |ks| =>
      SalesGroup(ks[i].corretor, ks[i].empreendimento,
                 KeyedTotal(vs, SaleBrokerDevelopment, ContractValue, ks[i]),
                 KeyedTotal(vs, SaleBrokerDevelopment, SaleUnits, ks[i])));
    ListedByDistinctKeys(rows, GroupPair, vs, SaleBrokerDevelopment);
    GroupRowsConserved(rows, GroupPair, GroupValor, vs, SaleBrokerDevelopment, ContractValue);
    GroupRowsConserved(rows, GroupPair, GroupUnidades, vs, SaleBrokerDevelopment, SaleUnits);
    KeyedSumOfAll(vs, SaleBrokerDevelopment, ContractValue);
    KeyedSumOfAll(vs, SaleBrokerDevelopment, SaleUnits);
    rows
  }
}
