/**
 * Purchasing records: suppliers (Fornecedor), purchase orders (PedidoCompra)
 * and their line items (ItemCompra). Money is in cents.
 */
module Compras {
  import opened Wrappers
  import opened Calendar
  import opened Comercial

  datatype Fornecedor = Fornecedor(nome: string, documento: string, contato: string, email: string)

  /** The category choices of a purchase order. */
  datatype Categoria = Materiais | Servicos | Equipamentos | Outros

  /** The value stored in the category column. */
  function CategoriaCode(c: Categoria): string
  {
    match c
    case Materiais => "materiais"
    case Servicos => "servicos"
    case Equipamentos => "equipamentos"
    case Outros => "outros"
  }

  /** Reads a stored category; any value outside the four choices is rejected. */
  function ParseCategoria(code: string): (r: Option<Categoria>)
    ensures r.Some? ==> CategoriaCode(r.value) == code
    ensures forall c :: CategoriaCode(c) == code ==> r == Some(c)
  {
    if code == "materiais" then Some(Materiais)
    else if code == "servicos" then Some(Servicos)
    else if code == "equipamentos" then Some(Equipamentos)
    else if code == "outros" then Some(Outros)
    else None
  }

  datatype PedidoCompra = PedidoCompra(
    empreendimento: Empreendimento,
    fornecedor: Fornecedor,
    dataPedido: Date,
    categoria: Categoria,
    valorTotal: int)

  datatype ItemCompra = ItemCompra(
    pedido: PedidoCompra,
    descricao: string,
    quantidade: nat,
    custoUnitario: Option<int>)

  /** A line item created with the column default quantity of 1. */
  function NovoItem(pedido: PedidoCompra, descricao: string, custoUnitario: int): (i: ItemCompra)
    ensures i.quantidade == 1 && i.custoUnitario == Some(custoUnitario)
    ensures i.pedido == pedido && i.descricao == descricao
  {
    ItemCompra(pedido, descricao, 1, Some(custoUnitario))
  }

  /** `custo_total`: unit cost times quantity; a missing unit cost counts as 0. */
  function CustoTotal(i: ItemCompra): (c: int)
    ensures i.quantidade == 0 || i.custoUnitario == None ==> c == 0
  {
    OrZero(i.custoUnitario) * i.quantidade
  }

  /** The cost of `n` units at `unit` each, counted one unit at a time. */
  function CostOfUnits(unit: int, n: nat): int
  {
    if n == 0 then 0 else CostOfUnits(unit, n - 1) + unit
  }

  /** A line's total is its unit cost added once per unit. */
  lemma {:induction false} CustoTotalIsRepeatedCost(i: ItemCompra)
    ensures CustoTotal(i) == CostOfUnits(OrZero(i.custoUnitario), i.quantidade)
    decreases i.quantidade
  {
    if i.quantidade > 0 {
      var fewer := i.(quantidade := i.quantidade - 1);
      CustoTotalIsRepeatedCost(fewer);
      assert CustoTotal(i) == CustoTotal(fewer) + OrZero(i.custoUnitario);
    }
  }

  /** One more unit costs exactly one more unit cost. */
  lemma CustoTotalOneMore(i: ItemCompra)
    ensures CustoTotal(i.(quantidade := i.quantidade + 1)) == CustoTotal(i) + OrZero(i.custoUnitario)
  {
  }

  /** A line item made with the defaults costs its unit cost. */
  lemma NovoItemCusto(pedido: PedidoCompra, descricao: string, custoUnitario: int)
    ensures CustoTotal(NovoItem(pedido, descricao, custoUnitario)) == custoUnitario
  {
  }
}
