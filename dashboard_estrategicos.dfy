/**
 * The strategic KPIs of the dashboard: planned against actual cost per
 * development, and the margin (sales minus purchases) of each development.
 */
module DashboardEstrategicos {
  import opened Wrappers
  import opened Calendar
  import opened Aggregates
  import opened Comercial
  import opened Compras
  import opened Planejamento
  import opened DashboardComercial
  import opened DashboardCompras

  /** The development name a planned task is grouped under. */
  function TarefaEmpreendimento(t: TarefaPlanejada): Option<string>
  {
    Some(t.empreendimento.nome)
  }

  /** Planned and actual cost as SUM reads them: a NULL adds nothing. */
  function Planejado(t: TarefaPlanejada): int
  {
    OrZero(t.custoPlanejado)
  }

  function Realizado(t: TarefaPlanejada): int
  {
    OrZero(t.custoReal)
  }

  datatype PlanningRow = PlanningRow(empreendimento: string, custoPlanejado: int, custoReal: int, variacao: int)

  function RowEmpreendimento(r: PlanningRow): string
  {
    r.empreendimento
  }

  function RowPlanejado(r: PlanningRow): int
  {
    r.custoPlanejado
  }

  function RowRealizado(r: PlanningRow): int
  {
    r.custoReal
  }

  function RowVariacao(r: PlanningRow): int
  {
    r.variacao
  }

  /**
   * `planejamento_vs_realizado`: one row for each development name that some
   * task carries, each name once, holding the planned and actual costs of
   * exactly that development's tasks; its variance is the sum of those tasks'
   * own `variacao_custo`, and every column adds up over the rows to the same
   * column summed over all tasks.
   */
  function PlanejamentoVsRealizado(ts: seq<TarefaPlanejada>): (rows: seq<PlanningRow>)
    ensures ListsEachKeyOnce(rows, RowEmpreendimento, ts, TarefaEmpreendimento)
    ensures HoldsGroupTotals(rows, RowEmpreendimento, RowPlanejado, ts, TarefaEmpreendimento, Planejado)
    ensures HoldsGroupTotals(rows, RowEmpreendimento, RowRealizado, ts, TarefaEmpreendimento, Realizado)
    ensures HoldsGroupTotals(rows, RowEmpreendimento, RowVariacao, ts, TarefaEmpreendimento, VariacaoCusto)
    ensures Total(rows, RowPlanejado) == Total(ts, Planejado)
    ensures Total(rows, RowRealizado) == Total(ts, Realizado)
    ensures Total(rows, RowVariacao) == Total(ts, VariacaoCusto)
  {
    var ns := DistinctKeys(ts, TarefaEmpreendimento);
    var rows := seq(|ns|, i requires 0 <= i < |ns| =>
      var planejado := KeyedTotal(ts, TarefaEmpreendimento, Planejado, ns[i]);
      var realizado := KeyedTotal(ts, TarefaEmpreendimento, Realizado, ns[i]);
      PlanningRow(ns[i], planejado, realizado, realizado - planejado));
    ListedByDistinctKeys(rows, RowEmpreendimento, ts, TarefaEmpreendimento);
    forall i | 0 <= i < |rows|
      ensures RowVariacao(rows[i]) == KeyedTotal(ts, TarefaEmpreendimento, VariacaoCusto, RowEmpreendimento(rows[i]))
    {
      KeyedTotalDifference(ts, TarefaEmpreendimento, Realizado, Planejado, VariacaoCusto, ns[i]);
    }
    GroupRowsConserved(rows, RowEmpreendimento, RowPlanejado, ts, TarefaEmpreendimento, Planejado);
    GroupRowsConserved(rows, RowEmpreendimento, RowRealizado, ts, TarefaEmpreendimento, Realizado);
    GroupRowsConserved(rows, RowEmpreendimento, RowVariacao, ts, TarefaEmpreendimento, VariacaoCusto);
    KeyedSumOfAll(ts, TarefaEmpreendimento, Planejado);
    KeyedSumOfAll(ts, TarefaEmpreendimento, Realizado);
    KeyedSumOfAll(ts, TarefaEmpreendimento, VariacaoCusto);
    rows
  }

  /** The dashboard test's task: 80000.00 planned and 85000.00 spent show a variance of 5000.00. */
  lemma PlanningScenario(e: Empreendimento, inicio: Date, fim: Date)
    ensures var t := TarefaPlanejada(e, None, "Fundação", inicio, fim, None, Some(8000000), Some(8500000));
      PlanejamentoVsRealizado([t]) == [PlanningRow(e.nome, 8000000, 8500000, 500000)]
  {
    var t := TarefaPlanejada(e, None, "Fundação", inicio, fim, None, Some(8000000), Some(8500000));
    var ts := [t];
    assert ts[..0] == [];
    assert DistinctKeys(ts, TarefaEmpreendimento) == [e.nome];
    assert KeyedTotal(ts, TarefaEmpreendimento, Planejado, e.nome) == 8000000;
    assert KeyedTotal(ts, TarefaEmpreendimento, Realizado, e.nome) == 8500000;
    var rows := PlanejamentoVsRealizado(ts);
    assert |rows| == 1 && rows[0] == PlanningRow(e.nome, 8000000, 8500000, 500000);
  }

  // ---------------------------------------------------------------------------
  // Margin per development

  /** The development a sale or an order belongs to, by its identity. */
  function VendaEmpreendimentoId(v: Venda): Option<nat>
  {
    Some(v.empreendimento.id)
  }

  function PedidoEmpreendimentoId(p: PedidoCompra): Option<nat>
  {
    Some(p.empreendimento.id)
  }

  datatype MarginRow = MarginRow(empreendimento: string, vendas: int, custos: int, margem: int)

  /** `margem_por_empreendimento`: for each development, its sales total, its purchase total and their difference. */
  method MargemPorEmpreendimento(emps: seq<Empreendimento>, vs: seq<Venda>, ps: seq<PedidoCompra>)
    returns (rows: seq<MarginRow>)
    ensures |rows| == |emps|
    ensures forall i :: 0 <= i < |emps| ==>
      rows[i].empreendimento == emps[i].nome
      && rows[i].vendas == KeyedTotal(vs, VendaEmpreendimentoId, ContractValue, emps[i].id)
      && rows[i].custos == KeyedTotal(ps, PedidoEmpreendimentoId, PedidoValor, emps[i].id)
      && rows[i].margem == rows[i].vendas - rows[i].custos
  {
    rows := [];
    for i := 0 to |emps|
      invariant |rows| == i
      invariant forall j :: 0 <= j < i ==>
        rows[j].empreendimento == emps[j].nome
        && rows[j].vendas == KeyedTotal(vs, VendaEmpreendimentoId, ContractValue, emps[j].id)
        && rows[j].custos == KeyedTotal(ps, PedidoEmpreendimentoId, PedidoValor, emps[j].id)
        && rows[j].margem == rows[j].vendas - rows[j].custos
    {
      var vendasTotal := KeyedTotal(vs, VendaEmpreendimentoId, ContractValue, emps[i].id);
      var custoTotal := KeyedTotal(ps, PedidoEmpreendimentoId, PedidoValor, emps[i].id);
      rows := rows + [MarginRow(emps[i].nome, vendasTotal, custoTotal, vendasTotal - custoTotal)];
    }
  }

  /** The identities of the listed developments. */
  function Ids(emps: seq<Empreendimento>): (ids: seq<nat>)
    ensures |ids| == |emps| && forall i :: 0 <= i < |emps| ==> ids[i] == emps[i].id
  {
    seq(|emps|, i requires 0 <= i < |emps| => emps[i].id)
  }

  function RowMargem(r: MarginRow): int
  {
    r.margem
  }

  /** The sum of the margins column. */
  function MarginsSum(rows: seq<MarginRow>): int
  {
    Total(rows, RowMargem)
  }

  lemma {:induction false} MarginsMatchIds(rows: seq<MarginRow>, vs: seq<Venda>, ps: seq<PedidoCompra>, ids: seq<nat>)
    requires |rows| == |ids|
    requires forall i :: 0 <= i < |rows| ==>
      rows[i].margem == KeyedTotal(vs, VendaEmpreendimentoId, ContractValue, ids[i])
                      - KeyedTotal(ps, PedidoEmpreendimentoId, PedidoValor, ids[i])
    ensures MarginsSum(rows) == SumOverKeys(vs, VendaEmpreendimentoId, ContractValue, ids)
                              - SumOverKeys(ps, PedidoEmpreendimentoId, PedidoValor, ids)
  {
    if rows != [] {
      MarginsMatchIds(rows[..|rows| - 1], vs, ps, ids[..|ids| - 1]);
    }
  }

  /**
   * When the list holds every development once and every sale and order
   * belongs to a listed one, the margins add up to total sales minus total
   * purchase cost.
   */
  lemma {:induction false} MarginsConserved(emps: seq<Empreendimento>, vs: seq<Venda>, ps: seq<PedidoCompra>, rows: seq<MarginRow>)
    requires forall i, j :: 0 <= i < j < |emps| ==> emps[i].id != emps[j].id
    requires forall i :: 0 <= i < |vs| ==> vs[i].empreendimento.id in Ids(emps)
    requires forall i :: 0 <= i < |ps| ==> ps[i].empreendimento.id in Ids(emps)
    requires |rows| == |emps|
    requires forall i :: 0 <= i < |emps| ==>
      rows[i].margem == KeyedTotal(vs, VendaEmpreendimentoId, ContractValue, emps[i].id)
                      - KeyedTotal(ps, PedidoEmpreendimentoId, PedidoValor, emps[i].id)
    ensures MarginsSum(rows) == TotalVendas(vs) - CustoTotalCompras(ps)
  {
    var ids := Ids(emps);
    MarginsMatchIds(rows, vs, ps, ids);
    assert Distinct(ids);
    assert Covers(vs, VendaEmpreendimentoId, ids);
    assert Covers(ps, PedidoEmpreendimentoId, ids);
    Partition(vs, VendaEmpreendimentoId, ContractValue, ids);
    Partition(ps, PedidoEmpreendimentoId, PedidoValor, ids);
    KeyedSumOfAll(vs, VendaEmpreendimentoId, ContractValue);
    KeyedSumOfAll(ps, PedidoEmpreendimentoId, PedidoValor);
  }

  /** A development without sales shows sales 0, and its margin is minus its purchase cost; without orders, costs 0. */
  lemma {:induction false} MarginWithoutSales(vs: seq<Venda>, ps: seq<PedidoCompra>, e: Empreendimento)
    ensures (forall i :: 0 <= i < |vs| ==> vs[i].empreendimento.id != e.id) ==>
      KeyedTotal(vs, VendaEmpreendimentoId, ContractValue, e.id) == 0
    ensures (forall i :: 0 <= i < |ps| ==> ps[i].empreendimento.id != e.id) ==>
      KeyedTotal(ps, PedidoEmpreendimentoId, PedidoValor, e.id) == 0
  {
    if forall i :: 0 <= i < |vs| ==> vs[i].empreendimento.id != e.id {
      KeyedTotalAbsent(vs, VendaEmpreendimentoId, ContractValue, e.id);
    }
    if forall i :: 0 <= i < |ps| ==> ps[i].empreendimento.id != e.id {
      KeyedTotalAbsent(ps, PedidoEmpreendimentoId, PedidoValor, e.id);
    }
  }
}
