/**
 * The purchasing KPIs of the dashboard: total purchase cost, cost per
 * development, total per supplier and each supplier's share of the total.
 */
module DashboardCompras {
  import opened Wrappers
  import opened Aggregates
  import opened Compras
  import opened Ratios

  function PedidoValor(p: PedidoCompra): int
  {
    p.valorTotal
  }

  /** `custo_total_compras`: SUM(valor_total) over all purchase orders, 0 when there are none. */
  function CustoTotalCompras(ps: seq<PedidoCompra>): int
  {
    Total(ps, PedidoValor)
  }

  /** The development name an order is grouped under. */
  function PedidoEmpreendimento(p: PedidoCompra): Option<string>
  {
    Some(p.empreendimento.nome)
  }

  /** The supplier name an order is grouped under. */
  function PedidoFornecedor(p: PedidoCompra): Option<string>
  {
    Some(p.fornecedor.nome)
  }

  datatype NamedTotal = NamedTotal(nome: string, total: int)

  function RowName(r: NamedTotal): string
  {
    r.nome
  }

  function RowTotal(r: NamedTotal): int
  {
    r.total
  }

  /**
   * The orders grouped by the name `key` gives them: one row for each name
   * that some order carries, and for no other name, each name once; a row
   * holds the SUM(valor_total) of exactly that name's orders, so that the rows
   * add up to the value of every order that has a name.
   */
  function TotalsBy(ps: seq<PedidoCompra>, key: PedidoCompra -> Option<string>): (rows: seq<NamedTotal>)
    ensures ListsEachKeyOnce(rows, RowName, ps, key)
    ensures HoldsGroupTotals(rows, RowName, RowTotal, ps, key, PedidoValor)
    ensures Total(rows, RowTotal) == KeyedSum(ps, key, PedidoValor)
  {
    var ns := DistinctKeys(ps, key);
    var rows := seq(|ns|, i requires 0 <= i < |ns| => NamedTotal(ns[i], KeyedTotal(ps, key, PedidoValor, ns[i])));
    ListedByDistinctKeys(rows, RowName, ps, key);
    GroupRowsConserved(rows, RowName, RowTotal, ps, key, PedidoValor);
    rows
  }

  /** `supplier_total`: the sum of the listed totals. */
  function NamedTotalsSum(rows: seq<NamedTotal>): int
  {
    Total(rows, RowTotal)
  }

  /** `custo_por_empreendimento`: one row per development with orders, adding up to `custo_total_compras`. */
  function CustoPorEmpreendimento(ps: seq<PedidoCompra>): (rows: seq<NamedTotal>)
    ensures ListsEachKeyOnce(rows, RowName, ps, PedidoEmpreendimento)
    ensures HoldsGroupTotals(rows, RowName, RowTotal, ps, PedidoEmpreendimento, PedidoValor)
    ensures NamedTotalsSum(rows) == CustoTotalCompras(ps)
  {
    KeyedSumOfAll(ps, PedidoEmpreendimento, PedidoValor);
    TotalsBy(ps, PedidoEmpreendimento)
  }

  /** `total_por_fornecedor`: one row per supplier with orders, adding up to `custo_total_compras`. */
  function TotalPorFornecedor(ps: seq<PedidoCompra>): (rows: seq<NamedTotal>)
    ensures ListsEachKeyOnce(rows, RowName, ps, PedidoFornecedor)
    ensures HoldsGroupTotals(rows, RowName, RowTotal, ps, PedidoFornecedor, PedidoValor)
    ensures NamedTotalsSum(rows) == CustoTotalCompras(ps)
  {
    KeyedSumOfAll(ps, PedidoFornecedor, PedidoValor);
    TotalsBy(ps, PedidoFornecedor)
  }

  datatype Share = Share(fornecedor: string, valor: int, percentual: real)

  /** `supplier_share`: each supplier's total and its percentage of the suppliers' sum; every percentage is 0 when that sum is 0. */
  function SupplierShare(items: seq<NamedTotal>): (shares: seq<Share>)
    ensures |shares| == |items|
    ensures forall i :: 0 <= i < |items| ==> shares[i].fornecedor == items[i].nome && shares[i].valor == items[i].total
    ensures forall i :: 0 <= i < |items| && NamedTotalsSum(items) != 0 ==>
      shares[i].percentual * NamedTotalsSum(items) as real == 100.0 * items[i].total as real
    ensures NamedTotalsSum(items) == 0 ==> forall i :: 0 <= i < |items| ==> shares[i].percentual == 0.0
  {
    var whole := NamedTotalsSum(items);
    seq(|items|, i requires 0 <= i < |items| => Share(items[i].nome, items[i].total, Percent(items[i].total, whole)))
  }

  function SharesSum(shares: seq<Share>): real
  {
    if shares == [] then 0.0 else SharesSum(shares[..|shares| - 1]) + shares[|shares| - 1].percentual
  }

  lemma {:induction false} SharesOfPrefix(items: seq<NamedTotal>, shares: seq<Share>, whole: int)
    requires |shares| == |items|
    requires forall i :: 0 <= i < |items| ==> shares[i].percentual == Percent(items[i].total, whole)
    ensures SharesSum(shares) == Percent(NamedTotalsSum(items), whole)
  {
    if items != [] {
      var n := |items| - 1;
      SharesOfPrefix(items[..n], shares[..n], whole);
      PercentAdds(NamedTotalsSum(items[..n]), items[n].total, whole);
    }
  }

  /** The supplier shares add up to 100 percent, unless the suppliers' sum is 0. */
  lemma SharesAddUpTo100(items: seq<NamedTotal>)
    requires NamedTotalsSum(items) != 0
    ensures SharesSum(SupplierShare(items)) == 100.0
  {
    SharesOfPrefix(items, SupplierShare(items), NamedTotalsSum(items));
  }

  /** The shares of the supplier grouping are shares of the total purchase cost. */
  lemma SupplierShareOfPurchases(ps: seq<PedidoCompra>)
    ensures CustoTotalCompras(ps) != 0 ==> SharesSum(SupplierShare(TotalPorFornecedor(ps))) == 100.0
    ensures ps == [] ==> SupplierShare(TotalPorFornecedor(ps)) == []
  {
    if CustoTotalCompras(ps) != 0 {
      SharesAddUpTo100(TotalPorFornecedor(ps));
    }
  }
}
