/**
 * The receivables KPIs of the dashboard: totals, the delinquency rate, the
 * aging of unpaid balances into day ranges, and delinquency per broker.
 * An installment is delinquent ("inadimplente") when its status is not "pago".
 */
module DashboardCarteira {
  import opened Wrappers
  import opened Calendar
  import opened Aggregates
  import opened Comercial
  import opened Carteira
  import opened Ratios

  /** The amount as a SUM reads it: a NULL amount adds nothing. */
  function Valor(r: Recebivel): int
  {
    OrZero(r.valor)
  }

  function ValorPago(r: Recebivel): int
  {
    OrZero(r.valorPago)
  }

  /** SUM(valor) over all installments. */
  function TotalRecebiveis(rs: seq<Recebivel>): int
  {
    Total(rs, Valor)
  }

  /** SUM(valor_pago) over all installments: `valor_recebido`. */
  function TotalPago(rs: seq<Recebivel>): int
  {
    Total(rs, ValorPago)
  }

  /** The report's `saldo_devedor`: total minus total paid, which is the sum of every installment's own balance. */
  function SaldoDevedorCarteira(rs: seq<Recebivel>): (s: int)
    ensures s == Total(rs, SaldoDevedor)
  {
    TotalDifference(rs, Valor, ValorPago, SaldoDevedor);
    TotalRecebiveis(rs) - TotalPago(rs)
  }

  /** The broker an unpaid installment counts against; a paid installment is left out (None). */
  function InadimplenteKey(r: Recebivel): Option<string>
  {
    if r.status != Pago then Some(r.venda.corretor.nome) else None
  }

  /** The database expression `valor - valor_pago`: NULL, so skipped by SUM, when either amount is NULL. */
  function SqlSaldo(r: Recebivel): int
  {
    if r.valor.Some? && r.valorPago.Some? then r.valor.value - r.valorPago.value else 0
  }

  /** `valor_inadimplente`: SUM(valor - valor_pago) over the installments that are not paid. */
  function ValorInadimplente(rs: seq<Recebivel>): int
  {
    KeyedSum(rs, InadimplenteKey, SqlSaldo)
  }

  /** `taxa_inadimplencia`: the unpaid balance as a percentage of the total amount; 0 when the total is 0. */
  function TaxaInadimplencia(rs: seq<Recebivel>): (t: real)
    ensures TotalRecebiveis(rs) == 0 ==> t == 0.0
    ensures TotalRecebiveis(rs) != 0 ==> t * TotalRecebiveis(rs) as real == 100.0 * ValorInadimplente(rs) as real
  {
    Percent(ValorInadimplente(rs), TotalRecebiveis(rs))
  }

  /** Every amount of every installment is present, as the NOT NULL columns guarantee for stored rows. */
  ghost predicate AmountsPresent(rs: seq<Recebivel>)
  {
    forall i :: 0 <= i < |rs| ==> rs[i].valor.Some? && rs[i].valorPago.Some?
  }

  // ---------------------------------------------------------------------------
  // Aging buckets

  datatype Faixa = Ate30 | De31a60 | De61a120 | Acima120

  /** The buckets, in the order the report lists them. */
  const Faixas: seq<Faixa> := [Ate30, De31a60, De61a120, Acima120]

  /** The bucket's key in the report. */
  function FaixaNome(f: Faixa): string
  {
    match f
    case Ate30 => "0-30"
    case De31a60 => "31-60"
    case De61a120 => "61-120"
    case Acima120 => "120+"
  }

  /** The day range of a bucket. Upper bounds are inclusive; 0-30 also takes every installment not yet due. */
  predicate InFaixa(f: Faixa, dias: int)
  {
    match f
    case Ate30 => dias <= 30
    case De31a60 => 31 <= dias <= 60
    case De61a120 => 61 <= dias <= 120
    case Acima120 => dias > 120
  }

  /** The bucket for a number of days past due. */
  function Classify(dias: int): (f: Faixa)
    ensures InFaixa(f, dias)
  {
    if dias <= 30 then Ate30
    else if dias <= 60 then De31a60
    else if dias <= 120 then De61a120
    else Acima120
  }

  /** The ranges do not overlap: a day count lies in exactly one bucket. */
  lemma FaixaUnique(f: Faixa, dias: int)
    requires InFaixa(f, dias)
    ensures f == Classify(dias)
  {
  }

  /** `(hoje - data_vencimento).days`, or 0 without a due date; negative when not yet due. */
  function DiasDesdeVencimento(r: Recebivel, hoje: Date): int
  {
    if r.dataVencimento.Some? then DaysBetween(hoje, r.dataVencimento.value) else 0
  }

  /** The bucket an unpaid installment falls in; a paid one falls in none. */
  function AgingKey(hoje: Date): Recebivel -> Option<Faixa>
  {
    (r: Recebivel) => if r.status != Pago then Some(Classify(DiasDesdeVencimento(r, hoje))) else None
  }

  /** The sum of the balances (`saldo_devedor`) of the unpaid installments in bucket `f`. */
  function FaixaTotal(rs: seq<Recebivel>, hoje: Date, f: Faixa): int
  {
    KeyedTotal(rs, AgingKey(hoje), SaldoDevedor, f)
  }

  /** `faixas`: walks the unpaid installments and adds each one's balance to its bucket. */
  method FaixasDeAtraso(rs: seq<Recebivel>, hoje: Date) returns (faixas: map<Faixa, int>)
    ensures forall f :: f in faixas
    ensures forall f :: f in faixas ==> faixas[f] == FaixaTotal(rs, hoje, f)
  {
    faixas := map[Ate30 := 0, De31a60 := 0, De61a120 := 0, Acima120 := 0];
    assert rs[..0] == [];
    forall f: Faixa ensures f in faixas {
      match f
      case Ate30 =>
      case De31a60 =>
      case De61a120 =>
      case Acima120 =>
    }
    for i := 0 to |rs|
      invariant forall f :: f in faixas
      invariant forall f :: f in faixas ==> faixas[f] == FaixaTotal(rs[..i], hoje, f)
    {
      assert rs[..i + 1][..i] == rs[..i];
      var r := rs[i];
      if r.status != Pago {
        var dias := 0;
        if r.dataVencimento.Some? {
          dias := DaysBetween(hoje, r.dataVencimento.value);
        }
        var saldo := SaldoDevedor(r);
        var faixa;
        if dias <= 30 {
          faixa := Ate30;
        } else if dias <= 60 {
          faixa := De31a60;
        } else if dias <= 120 {
          faixa := De61a120;
        } else {
          faixa := Acima120;
        }
        faixas := faixas[faixa := faixas[faixa] + saldo];
      }
    }
    assert rs[..|rs|] == rs;
  }

  /** The four bucket totals add up to the balance of all unpaid installments, and so to `valor_inadimplente` when no amount is NULL. */
  lemma {:induction false} AgingConserved(rs: seq<Recebivel>, hoje: Date)
    ensures FaixaTotal(rs, hoje, Ate30) + FaixaTotal(rs, hoje, De31a60) + FaixaTotal(rs, hoje, De61a120) + FaixaTotal(rs, hoje, Acima120)
         == KeyedSum(rs, InadimplenteKey, SaldoDevedor)
    ensures AmountsPresent(rs) ==>
      FaixaTotal(rs, hoje, Ate30) + FaixaTotal(rs, hoje, De31a60) + FaixaTotal(rs, hoje, De61a120) + FaixaTotal(rs, hoje, Acima120)
      == ValorInadimplente(rs)
  {
    var key := AgingKey(hoje);
    assert Distinct(Faixas);
    assert Covers(rs, key, Faixas);
    Partition(rs, key, SaldoDevedor, Faixas);
    var f3, f2, f1 := Faixas[..3], Faixas[..3][..2], Faixas[..3][..2][..1];
    assert f1[..0] == [];
    assert SumOverKeys(rs, key, SaldoDevedor, f1) == FaixaTotal(rs, hoje, Ate30);
    assert SumOverKeys(rs, key, SaldoDevedor, f2) == SumOverKeys(rs, key, SaldoDevedor, f1) + FaixaTotal(rs, hoje, De31a60);
    assert SumOverKeys(rs, key, SaldoDevedor, f3) == SumOverKeys(rs, key, SaldoDevedor, f2) + FaixaTotal(rs, hoje, De61a120);
    assert SumOverKeys(rs, key, SaldoDevedor, Faixas) == SumOverKeys(rs, key, SaldoDevedor, f3) + FaixaTotal(rs, hoje, Acima120);
    KeyedSumCongruent(rs, key, SaldoDevedor, InadimplenteKey, SaldoDevedor);
    if AmountsPresent(rs) {
      KeyedSumCongruent(rs, InadimplenteKey, SaldoDevedor, InadimplenteKey, SqlSaldo);
    }
  }

  /** For an installment whose status says overdue, the bucket is the one of its `dias_em_atraso`. */
  lemma AgingAgreesWithDiasEmAtraso(r: Recebivel, hoje: Date)
    requires EstaEmAtraso(r)
    ensures Classify(DiasDesdeVencimento(r, hoje)) == Classify(DiasEmAtraso(r, hoje))
  {
  }

  /** An installment without a due date, or not yet due, is aged in 0-30. */
  lemma NotYetDueInFirstBucket(r: Recebivel, hoje: Date)
    requires r.dataVencimento == None || DaysBetween(hoje, r.dataVencimento.value) <= 0
    ensures Classify(DiasDesdeVencimento(r, hoje)) == Ate30
  {
  }

  /** The aging reads the due date, not the status: an "aberto" installment 100 days past due is aged in 61-120 although its `dias_em_atraso` is 0. */
  lemma OpenInstallmentAgedByDueDate(venda: Venda)
    ensures var hoje, vencimento := Date(2024, 6, 15), Date(2024, 3, 7);
      var r := NovoRecebivel(venda, vencimento, 100000);
      DaysBetween(hoje, vencimento) == 100
      && DiasEmAtraso(r, hoje) == 0
      && AgingKey(hoje)(r) == Some(De61a120)
  {
  }

  /** Distinct buckets have distinct keys in the report. */
  lemma FaixaNomeInjective(f: Faixa, g: Faixa)
    ensures FaixaNome(f) == FaixaNome(g) ==> f == g
  {
    if FaixaNome(f) == FaixaNome(g) {
      assert FaixaNome(f)[0] == FaixaNome(g)[0];
    }
  }

  /**
   * `inadimplencia_por_faixa`: the buckets under their report keys, in their
   * fixed order, without those that hold zero. A bucket is listed exactly
   * when it holds a non-zero amount, with that amount, and no key is listed
   * twice.
   */
  function PublicadoPorFaixa(faixas: map<Faixa, int>): (pub: seq<(string, int)>)
    requires forall f :: f in faixas
    ensures forall i :: 0 <= i < |pub| ==> pub[i].1 != 0 && exists f :: pub[i] == (FaixaNome(f), faixas[f])
    ensures forall f :: faixas[f] != 0 <==> (FaixaNome(f), faixas[f]) in pub
    ensures forall i, j :: 0 <= i < j < |pub| ==> pub[i].0 != pub[j].0
  {
    AllFaixasListed();
    KeepNonZero(faixas, Faixas)
  }

  lemma AllFaixasListed()
    ensures forall f: Faixa :: f in Faixas
  {
    forall f: Faixa ensures f in Faixas {
      match f
      case Ate30 => assert Faixas[0] == f;
      case De31a60 => assert Faixas[1] == f;
      case De61a120 => assert Faixas[2] == f;
      case Acima120 => assert Faixas[3] == f;
    }
  }

  function KeepNonZero(faixas: map<Faixa, int>, fs: seq<Faixa>): (pub: seq<(string, int)>)
    requires forall f :: f in faixas
    ensures forall i :: 0 <= i < |pub| ==> pub[i].1 != 0 && exists f :: f in fs && pub[i] == (FaixaNome(f), faixas[f])
    ensures forall f :: f in fs && faixas[f] != 0 ==> (FaixaNome(f), faixas[f]) in pub
    ensures Distinct(fs) ==> forall i, j :: 0 <= i < j < |pub| ==> pub[i].0 != pub[j].0
  {
    if fs == [] then []
    else
      var init := fs[..|fs| - 1];
      var rest := KeepNonZero(faixas, init);
      var f := fs[|fs| - 1];
      assert Distinct(fs) ==> Distinct(init) && f !in init;
      forall i | 0 <= i < |rest| ensures Distinct(fs) ==> rest[i].0 != FaixaNome(f) {
        var g :| g in init && rest[i] == (FaixaNome(g), faixas[g]);
        FaixaNomeInjective(f, g);
      }
      if faixas[f] != 0 then rest + [(FaixaNome(f), faixas[f])] else rest
  }

  /** The amount of a published entry. */
  function Amount(e: (string, int)): int
  {
    e.1
  }

  /** Considering one more bucket adds its amount to the published total, whether or not it is published. */
  lemma KeepNonZeroSnoc(faixas: map<Faixa, int>, fs: seq<Faixa>, f: Faixa)
    requires forall f :: f in faixas
    ensures Total(KeepNonZero(faixas, fs + [f]), Amount) == Total(KeepNonZero(faixas, fs), Amount) + faixas[f]
  {
    var fs2 := fs + [f];
    assert fs2[..|fs2| - 1] == fs;
    var entry := (FaixaNome(f), faixas[f]);
    TotalConcat(KeepNonZero(faixas, fs), [entry], Amount);
    TotalOfOne(entry, Amount);
  }

  /** Dropping the zero buckets does not change the total. */
  lemma PublishedKeepsTotal(faixas: map<Faixa, int>)
    requires forall f :: f in faixas
    ensures Total(PublicadoPorFaixa(faixas), Amount) == faixas[Ate30] + faixas[De31a60] + faixas[De61a120] + faixas[Acima120]
  {
    assert Faixas == [] + [Ate30] + [De31a60] + [De61a120] + [Acima120];
    KeepNonZeroSnoc(faixas, [], Ate30);
    KeepNonZeroSnoc(faixas, [] + [Ate30], De31a60);
    KeepNonZeroSnoc(faixas, [] + [Ate30] + [De31a60], De61a120);
    KeepNonZeroSnoc(faixas, [] + [Ate30] + [De31a60] + [De61a120], Acima120);
  }

  // ---------------------------------------------------------------------------
  // Delinquency per broker

  /** The broker of an installment's sale. */
  function BrokerOf(r: Recebivel): Option<string>
  {
    Some(r.venda.corretor.nome)
  }

  const NaoInformado: string := "Não informado"

  /** The name the report shows for a broker: "Não informado" for an empty name. */
  function BrokerLabel(nome: string): string
  {
    if nome == "" then NaoInformado else nome
  }

  datatype CarteiraGroup = CarteiraGroup(nome: string, total: int, recebido: int)

  function GroupNome(g: CarteiraGroup): string
  {
    g.nome
  }

  function GroupTotal(g: CarteiraGroup): int
  {
    g.total
  }

  function GroupRecebido(g: CarteiraGroup): int
  {
    g.recebido
  }

  /**
   * `carteira_por_corretor`: one row for each broker name that some
   * installment's sale carries, and for no other name, each name once; a row
   * holds the amount and the paid amount of exactly that broker's
   * installments, so that the rows add up to the portfolio totals.
   */
  function CarteiraPorCorretor(rs: seq<Recebivel>): (groups: seq<CarteiraGroup>)
    ensures ListsEachKeyOnce(groups, GroupNome, rs, BrokerOf)
    ensures HoldsGroupTotals(groups, GroupNome, GroupTotal, rs, BrokerOf, Valor)
    ensures HoldsGroupTotals(groups, GroupNome, GroupRecebido, rs, BrokerOf, ValorPago)
    ensures Total(groups, GroupTotal) == TotalRecebiveis(rs)
    ensures Total(groups, GroupRecebido) == TotalPago(rs)
  {
    var ns := DistinctKeys(rs, BrokerOf);
    var groups := seq(|ns|, i requires 0 <= i < |ns| =>
      CarteiraGroup(ns[i], KeyedTotal(rs, BrokerOf, Valor, ns[i]), KeyedTotal(rs, BrokerOf, ValorPago, ns[i])));
    ListedByDistinctKeys(groups, GroupNome, rs, BrokerOf);
    GroupRowsConserved(groups, GroupNome, GroupTotal, rs, BrokerOf, Valor);
    GroupRowsConserved(groups, GroupNome, GroupRecebido, rs, BrokerOf, ValorPago);
    KeyedSumOfAll(rs, BrokerOf, Valor);
    KeyedSumOfAll(rs, BrokerOf, ValorPago);
    groups
  }

  /** The lookup built from the names `ns`: each name's label mapped to its unpaid balance; a later name overwrites an earlier one with the same label. */
  function LookupOf(rs: seq<Recebivel>, ns: seq<string>): map<string, int>
  {
    if ns == [] then map[]
    else
      var n := ns[|ns| - 1];
      LookupOf(rs, ns[..|ns| - 1])[BrokerLabel(n) := KeyedTotal(rs, InadimplenteKey, SqlSaldo, n)]
  }

  /** `inadimplencia_lookup`: unpaid balance per broker label, over the brokers with unpaid installments. */
  function InadimplenciaLookup(rs: seq<Recebivel>): map<string, int>
  {
    LookupOf(rs, DistinctKeys(rs, InadimplenteKey))
  }

  /** `dict.get(label, Decimal("0"))`. */
  function LookupGet(m: map<string, int>, rotulo: string): int
  {
    if rotulo in m then m[rotulo] else 0
  }

  datatype BrokerRow = BrokerRow(corretor: string, totalCarteira: int, valorInadimplente: int, taxa: real)

  /** The report's row for the broker group named `nome`. */
  function BrokerRowOf(rs: seq<Recebivel>, nome: string): BrokerRow
  {
    var rotulo := BrokerLabel(nome);
    var total := KeyedTotal(rs, BrokerOf, Valor, nome);
    var inadimplente := LookupGet(InadimplenciaLookup(rs), rotulo);
    BrokerRow(rotulo, total, inadimplente, Percent(inadimplente, total))
  }

  /** `inadimplencia_por_corretor`: one row per row of `carteira_por_corretor`, in that order, for the broker it names. */
  method InadimplenciaPorCorretor(rs: seq<Recebivel>) returns (rows: seq<BrokerRow>)
    ensures |rows| == |CarteiraPorCorretor(rs)|
    ensures forall i :: 0 <= i < |rows| ==> rows[i] == BrokerRowOf(rs, CarteiraPorCorretor(rs)[i].nome)
  {
    var carteira := CarteiraPorCorretor(rs);
    var lookup := InadimplenciaLookup(rs);
    rows := [];
    for i := 0 to |carteira|
      invariant |rows| == i
      invariant forall j :: 0 <= j < i ==> rows[j] == BrokerRowOf(rs, carteira[j].nome)
    {
      var nome := BrokerLabel(carteira[i].nome);
      var totalCarteira := carteira[i].total;
      var valorInadimplente := if nome in lookup then lookup[nome] else 0;
      var taxa := Percent(valorInadimplente, totalCarteira);
      rows := rows + [BrokerRow(nome, totalCarteira, valorInadimplente, taxa)];
    }
  }

  /** No broker is literally named "Não informado", so that label stands only for the empty name. */
  ghost predicate NoBrokerNamedNaoInformado(rs: seq<Recebivel>)
  {
    forall i :: 0 <= i < |rs| ==> rs[i].venda.corretor.nome != NaoInformado
  }

  lemma {:induction false} LookupOfMeaning(rs: seq<Recebivel>, ns: seq<string>, n: string)
    requires forall i :: 0 <= i < |ns| ==> ns[i] != NaoInformado
    requires n != NaoInformado
    ensures BrokerLabel(n) in LookupOf(rs, ns) <==> n in ns
    ensures n in ns ==> LookupOf(rs, ns)[BrokerLabel(n)] == KeyedTotal(rs, InadimplenteKey, SqlSaldo, n)
  {
    if ns != [] {
      LookupOfMeaning(rs, ns[..|ns| - 1], n);
      assert ns == ns[..|ns| - 1] + [ns[|ns| - 1]];
    }
  }

  /** A broker's delinquent value is the unpaid balance of that broker's own installments: 0, with rate 0, when it has none unpaid. */
  lemma BrokerRowMeaning(rs: seq<Recebivel>, nome: string)
    requires NoBrokerNamedNaoInformado(rs) && nome != NaoInformado
    ensures BrokerRowOf(rs, nome).valorInadimplente == KeyedTotal(rs, InadimplenteKey, SqlSaldo, nome)
    ensures !Occurs(rs, InadimplenteKey, nome) ==>
      BrokerRowOf(rs, nome).valorInadimplente == 0 && BrokerRowOf(rs, nome).taxa == 0.0
  {
    var ns := DistinctKeys(rs, InadimplenteKey);
    ListedNamesAreNamed(rs, InadimplenteKey);
    LookupOfMeaning(rs, ns, nome);
    DistinctKeysOccur(rs, InadimplenteKey, nome);
    if !Occurs(rs, InadimplenteKey, nome) {
      KeyedTotalAbsent(rs, InadimplenteKey, SqlSaldo, nome);
    }
  }

  /** A grouping by broker name lists only names that brokers carry, so none is "Não informado". */
  lemma {:induction false} ListedNamesAreNamed(rs: seq<Recebivel>, key: Recebivel -> Option<string>)
    requires NoBrokerNamedNaoInformado(rs)
    requires forall r :: key(r).Some? ==> key(r).value == r.venda.corretor.nome
    ensures forall i :: 0 <= i < |DistinctKeys(rs, key)| ==> DistinctKeys(rs, key)[i] != NaoInformado
  {
    var ns := DistinctKeys(rs, key);
    forall i | 0 <= i < |ns| ensures ns[i] != NaoInformado {
      DistinctKeysOccur(rs, key, ns[i]);
      var j :| 0 <= j < |rs| && key(rs[j]) == Some(ns[i]);
    }
  }

  function RowCarteira(r: BrokerRow): int
  {
    r.totalCarteira
  }

  function RowInadimplente(r: BrokerRow): int
  {
    r.valorInadimplente
  }

  /** The portfolio rows name the brokers in the order the grouping lists them. */
  lemma CarteiraNames(rs: seq<Recebivel>)
    ensures |CarteiraPorCorretor(rs)| == |DistinctKeys(rs, BrokerOf)|
    ensures forall i :: 0 <= i < |CarteiraPorCorretor(rs)| ==> CarteiraPorCorretor(rs)[i].nome == DistinctKeys(rs, BrokerOf)[i]
  {
  }

  /** The broker rows add up: their amounts to the portfolio total, their delinquent values to `valor_inadimplente`. */
  lemma {:induction false} BrokerRowsConserved(rs: seq<Recebivel>, rows: seq<BrokerRow>)
    requires NoBrokerNamedNaoInformado(rs)
    requires |rows| == |CarteiraPorCorretor(rs)|
    requires forall i :: 0 <= i < |rows| ==> rows[i] == BrokerRowOf(rs, CarteiraPorCorretor(rs)[i].nome)
    ensures Total(rows, RowCarteira) == TotalRecebiveis(rs)
    ensures Total(rows, RowInadimplente) == ValorInadimplente(rs)
  {
    var ns := DistinctKeys(rs, BrokerOf);
    CarteiraNames(rs);
    ListedNamesAreNamed(rs, BrokerOf);
    forall i | 0 <= i < |rows| ensures RowInadimplente(rows[i]) == KeyedTotal(rs, InadimplenteKey, SqlSaldo, ns[i]) {
      BrokerRowMeaning(rs, ns[i]);
    }
    TotalOfKeyedRows(rows, RowCarteira, rs, BrokerOf, Valor, ns);
    TotalOfKeyedRows(rows, RowInadimplente, rs, InadimplenteKey, SqlSaldo, ns);
    GroupTotalsConserved(rs, BrokerOf, Valor);
    KeyedSumOfAll(rs, BrokerOf, Valor);
    DistinctKeysDistinct(rs, BrokerOf);
    DistinctKeysCover(rs, BrokerOf);
    assert Covers(rs, InadimplenteKey, ns);
    Partition(rs, InadimplenteKey, SqlSaldo, ns);
  }

  // ---------------------------------------------------------------------------
  // The dashboard test's portfolio

  /** Two installments of one sale: 100000.00 due 45 days ago with 20000.00 paid ("atrasado"), and 150000.00 paid in full. */
  lemma PortfolioScenario(venda: Venda)
    ensures var hoje := Date(2024, 6, 15);
      var atrasada := Recebivel(venda, Some(Date(2024, 5, 1)), Some(10000000), None, Some(2000000), Atrasado);
      var paga := Recebivel(venda, Some(hoje), Some(15000000), Some(hoje), Some(15000000), Pago);
      var rs := [atrasada, paga];
      DiasDesdeVencimento(atrasada, hoje) == 45
      && FaixaTotal(rs, hoje, De31a60) == 8000000
      && FaixaTotal(rs, hoje, Ate30) == 0
      && ValorInadimplente(rs) == 8000000
      && TotalRecebiveis(rs) == 25000000
      && TaxaInadimplencia(rs) == 32.0
      && SaldoDevedorCarteira(rs) == 8000000
  {
    var hoje := Date(2024, 6, 15);
    var atrasada := Recebivel(venda, Some(Date(2024, 5, 1)), Some(10000000), None, Some(2000000), Atrasado);
    var paga := Recebivel(venda, Some(hoje), Some(15000000), Some(hoje), Some(15000000), Pago);
    var rs := [atrasada, paga];
    var one := [atrasada];
    assert rs[..1] == one;
    assert one[..0] == [];
    assert DiasDesdeVencimento(atrasada, hoje) == 45;
    var key := AgingKey(hoje);
    assert key(atrasada) == Some(De31a60);
    assert key(paga) == None;
    assert KeyedTotal(rs, key, SaldoDevedor, De31a60) == KeyedTotal(one, key, SaldoDevedor, De31a60);
    assert KeyedTotal(rs, key, SaldoDevedor, Ate30) == KeyedTotal(one, key, SaldoDevedor, Ate30);
    assert KeyedSum(rs, InadimplenteKey, SqlSaldo) == KeyedSum(one, InadimplenteKey, SqlSaldo);
    assert Total(rs, Valor) == Total(one, Valor) + 15000000;
    assert Total(rs, ValorPago) == Total(one, ValorPago) + 15000000;
    TotalOfOne(atrasada, Valor);
    TotalOfOne(atrasada, ValorPago);
    assert FaixaTotal(rs, hoje, De31a60) == 8000000;
    assert FaixaTotal(rs, hoje, Ate30) == 0;
    assert ValorInadimplente(rs) == 8000000;
    assert TotalRecebiveis(rs) == 25000000;
    assert TaxaInadimplencia(rs) == 32.0;
    assert SaldoDevedorCarteira(rs) == 8000000;
  }
}
