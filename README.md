# Real-estate back-office dashboard, modelled in Dafny

This project models the report arithmetic of the management dashboard of a
real-estate back office (`dashboard_overview` in `dashboards/views.py`), together
with the derived values that the dashboard's records compute about themselves:

- sales: contracts signed by a broker for a development (`Venda`), with average ticket per unit;
- receivables: installments of a sale (`Recebivel`), with outstanding balance, overdue flag and days overdue;
- purchases: purchase orders and their line items (`PedidoCompra`, `ItemCompra`), with line cost;
- planning: planned tasks of a development (`TarefaPlanejada`), with cost variance.

Each database query of the view is modelled as an explicit fold over a
sequence of plain records. A grouped query (`values(...).annotate(Sum(...))`)
becomes one row per distinct key, in order of first occurrence, holding the sum
over exactly the records carrying that key (`Aggregates.DistinctKeys` and
`Aggregates.KeyedTotal`). Three imperative parts of the view are modelled as
methods with loops, each proved against the function that specifies it:

- the ordered-dictionary fold of `_group_periods`;
- the loop that fills the aging buckets;
- the loops that append the per-broker delinquency and per-development margin rows.

Representation choices:

- Money (`Decimal` with two places) is an `int` number of cents.
- Ratios and percentages are exact `real`s, and a zero denominator yields 0.
- Dates are proleptic Gregorian `(year, month, day)` triples, and a difference
  of dates is the difference of their day ordinals, as Python's `date`
  subtraction computes it. `TruncMonth` yields a `(year, month)` pair.
- The current date (`timezone.localdate()`) is a parameter `hoje`.
- A field that the code guards with `or Decimal("0")` is an `Option<int>`, so
  that the guard is modelled.
- An aggregate over no rows, or over NULLs only, is 0, as `Coalesce(..., 0)` makes it.

Modules:

- `Wrappers`: Option.
- `Aggregates`: generic GROUP BY / SUM folds and the partition lemmas.
- `Calendar`: dates and day ordinals.
- `Comercial`, `Carteira`, `Compras`, `Planejamento`: the records and their derived values.
- `Ratios`: the guarded divisions.
- `Periods`: month labels, bimester and semester keys, `_group_periods`, the monthly sales query.
- `DashboardComercial`, `DashboardCarteira`, `DashboardCompras`, `DashboardEstrategicos`: the four KPI blocks of the view.

Behaviour of the code that a reader might not expect, and that the model keeps:

- The aging loop ages every installment whose status is not "pago" by the raw
  `(hoje - data_vencimento).days`, not by the `dias_em_atraso` property. So an
  "aberto" installment that is 100 days past due goes to the 61-120 bucket,
  while its `dias_em_atraso` is 0 (`DashboardCarteira.OpenInstallmentAgedByDueDate`).
  Only installments that are not yet due, or have no due date, land in 0-30 for
  that reason.
- `valor_inadimplente` sums the database expression `valor - valor_pago`, which
  skips a row where either amount is NULL. The aging buckets instead sum the
  `saldo_devedor` property, which reads NULL as 0. The two agree when all amounts
  are present, as the NOT NULL columns guarantee for stored rows
  (`DashboardCarteira.AgingConserved`).
- The per-broker lookup is keyed by the displayed name. A broker literally
  named "Não informado" and a broker with an empty name therefore share one
  entry, and the later one wins. The per-broker lemmas assume that no broker
  carries that literal name.

## Model

| member | source | states |
|---|---|---|
| Aggregates.DistinctKeysOccur | dashboards/views.py:36-51 | a key is listed by a grouping exactly when some row carries it |
| Aggregates.DistinctKeysDistinct | dashboards/views.py:36-51 | a grouping lists each key once |
| Aggregates.Partition | dashboards/views.py:36-51 | over distinct keys covering every row, the group totals add up to the sum over all grouped rows |
| Aggregates.ListedByDistinctKeys | dashboards/views.py:69-76 | result rows built one per listed key name every key some record carries, no other key, and each key once |
| Aggregates.GroupRowsConserved | dashboards/views.py:69-76 | rows that list each occurring key once and hold their groups' totals add up to the sum over every grouped record, whatever their order |
| Aggregates.Regroup | dashboards/views.py:98-107 | summing the coarse groups of fine-group totals equals grouping the rows coarsely directly |
| Calendar.NextDayOrdinal | dashboards/views.py:137 | the next calendar day is one ordinal later, so date differences count days |
| Carteira.ParseStatus | carteira/models.py:9-13 | a stored status is one of the four choices, and reading back the code of a choice gives that choice |
| Carteira.NovoRecebivel | carteira/models.py:18-22 | a new installment is "aberto", with nothing paid and no payment date |
| Carteira.EstaEmAtraso | carteira/models.py:32-34 | overdue iff the status is "atrasado" or "renegociado" |
| Carteira.SaldoDevedor | carteira/models.py:36-42 | balance plus amount paid equals the amount, a missing amount or payment reading as 0 |
| Carteira.NovoRecebivelSaldo | carteira/models.py:21-42 | a fresh installment owes its whole amount |
| Carteira.DiasEmAtraso | carteira/models.py:44-52 | never negative; 0 without a due date or with a non-overdue status; otherwise the days since the due date, floored at 0 |
| Comercial.ParseVendaStatus | comercial/models.py:38-42 | a stored sale status is one of three choices, round-tripping with its code |
| Comercial.NovaVenda | comercial/models.py:49-51 | a new sale has 1 unit and status "ativa" |
| Comercial.TicketMedio | comercial/models.py:61-67 | 0 for 0 units; otherwise ticket times units equals the contract value, a missing value reading as 0 |
| Comercial.NovaVendaTicket | comercial/models.py:49-67 | a sale with the default single unit has its contract value as ticket |
| Compras.ParseCategoria | compras/models.py:24-29 | a stored category is one of the four choices, round-tripping with its code |
| Compras.NovoItem | compras/models.py:57 | a new line item has quantity 1 |
| Compras.CustoTotal | compras/models.py:67-69 | a line with quantity 0 or no unit cost costs 0 |
| Compras.CustoTotalIsRepeatedCost | compras/models.py:67-69 | a line's cost is its unit cost added once per unit |
| Compras.CustoTotalOneMore | compras/models.py:67-69 | one more unit adds exactly one unit cost |
| Compras.NovoItemCusto | compras/models.py:57-69 | a default line item costs its unit cost |
| Planejamento.NovaTarefa | planejamento/models.py:32-34 | a new task has actual cost 0 and no actual end date |
| Planejamento.VariacaoCusto | planejamento/models.py:44-48 | planned cost plus variance equals actual cost; zero iff equal, positive iff over plan; missing costs read as 0 |
| Planejamento.NovaTarefaVariacao | planejamento/models.py:34-48 | a task without actual cost is under plan by its whole planned cost |
| Ratios.Ratio | dashboards/views.py:65-67 | 0 for a zero denominator, otherwise the exact quotient |
| Ratios.Percent | dashboards/views.py:122-125 | 0 for a zero denominator, otherwise rate times denominator is 100 times numerator |
| Ratios.PercentAdds | dashboards/views.py:206-216 | percentages of one whole add up to the percentage of the sum |
| Periods.NatToStringRoundTrip | dashboards/views.py:33 | the decimal rendering of a number reads back as that number |
| Periods.FormatMonthLabel | dashboards/views.py:18-33 | the label is the month's three-letter Portuguese name, "/", then the year's digits |
| Periods.MonthOfName | dashboards/views.py:19-32 | a month name maps back to the one month it names |
| Periods.MonthLabelRoundTrip | dashboards/views.py:18-33 | a month label parses back to its month |
| Periods.MonthLabelInjective | dashboards/views.py:18-33 | different months have different labels |
| Periods.BimestreKey | dashboards/views.py:100 | the bimester index is in 1..6 and months 2k-1 and 2k share index k |
| Periods.SemestreKey | dashboards/views.py:105 | the semester is 1 iff the month is at most 6, else 2 |
| Periods.BimestreLabelNamesKey | dashboards/views.py:100-101 | two months have the same bimester label iff they have the same bimester key |
| Periods.SemestreLabelNamesKey | dashboards/views.py:105-106 | two months have the same semester label iff they have the same semester key |
| Periods.BimestreMonotone | dashboards/views.py:100 | a later month never has an earlier bimester |
| Periods.SemestreMonotone | dashboards/views.py:105 | a later month never has an earlier semester |
| Periods.GroupPeriods | dashboards/views.py:36-51 | the ordered-dictionary fold yields one group per distinct key, in first-occurrence order, labelled by the first row with that key and summing exactly that key's rows; rows without period are skipped |
| Periods.DistinctKeysSnoc | dashboards/views.py:44-48 | one more row adds its key to the ordered keys exactly when that key is new |
| Periods.GroupOfSnoc | dashboards/views.py:44-50 | one more row either opens a new group labelled after it or adds to exactly its own group, leaving the others unchanged |
| Periods.Absorb | dashboards/views.py:38-50 | one pass of the loop, written as the source's open-then-credit, leaves the map as the one-step update (a row without period changes nothing; otherwise its group, opened with the row's label if absent, gains the row's value and units) and appends the key exactly when it was new to the map |
| Periods.FoldTracks | dashboards/views.py:37-50 | after any prefix of the rows, the map the fold has built holds exactly the keys of that prefix, listed in first-occurrence order, each with the group of that prefix's rows under it |
| Periods.FoldListsGroups | dashboards/views.py:36-51 | when the fold ends, every listed key is in the map and the map's groups in key order are one group per distinct key, in first-occurrence order |
| Periods.TracksStep | dashboards/views.py:38-50 | folding one row keeps the ordered map equal to the groups of the rows folded so far |
| Periods.TracksAll | dashboards/views.py:51 | listing the final map's values in key order gives one group per distinct key, in first-occurrence order |
| Periods.GroupedTotalsConserved | dashboards/views.py:36-51 | summed over all groups, value and units equal their sums over the rows that have a period |
| Periods.GroupsInChronologicalOrder | dashboards/views.py:78-107 | over chronologically ordered rows and a monotone key, the groups come out in increasing key order |
| Periods.InsertMonth | dashboards/views.py:81 | inserting a month keeps the month list strictly sorted and adds exactly that month |
| Periods.SortedMonths | dashboards/views.py:79-81 | the months of the sales, each once, in increasing order |
| Periods.VendasPorPeriodo | dashboards/views.py:78-86 | one row per month with sales, strictly increasing, every sale's month present, each row holding its month's totals |
| Periods.VendasPorPeriodoChronological | dashboards/views.py:78-86 | the monthly rows are in chronological order |
| Periods.WithPeriod | dashboards/views.py:95 | keeps exactly the rows that have a month, and all rows when every row has one |
| Periods.VendasMensal | dashboards/views.py:88-96 | one entry per row that has a month, in order, labelled with that month, values unchanged; rows without a month are dropped |
| Periods.MonthlySeriesOfSales | dashboards/views.py:78-96 | since every sale has a date, the monthly series labels every monthly row, one entry each |
| Periods.ComparativosVendas | dashboards/views.py:88-107 | the monthly, bimester and semester series are the monthly rows labelled and grouped by the two keys |
| Periods.MonthRowsTotal | dashboards/views.py:82-107 | a group's total over monthly rows is the sum of its months' sales totals |
| Periods.PeriodGroupHoldsItsSales | dashboards/views.py:98-107 | a bimester or semester total is the total of exactly the sales in its months |
| DashboardComercial.ValuedSales | dashboards/views.py:60 | the number of sales that AVG averages is at most the number of sales |
| DashboardComercial.TicketMedioVenda | dashboards/views.py:60 | the average ticket times the number of valued sales is the sales total; 0 with no valued sale |
| DashboardComercial.TicketMedioPorUnidade | dashboards/views.py:63-67 | ticket per unit times units sold is the sales total; 0 when no unit was sold |
| DashboardComercial.TicketPorUnidadeOfOneSale | dashboards/views.py:65-67 | for a single sale the per-unit ticket is that sale's own ticket |
| DashboardComercial.TicketScenario | dashboards/tests.py:19-26 | one sale of 500000.00 for 2 units gives 250000.00 per unit |
| DashboardComercial.VendasPorCorretor | dashboards/views.py:69-76 | one row for each broker and development pair that some sale carries and for no other pair, each pair once; each row holds the value and units of exactly that pair's sales, and the rows add up to the sales totals |
| DashboardCarteira.SaldoDevedorCarteira | dashboards/views.py:110-116 | total minus total paid equals the sum of the installments' own balances |
| DashboardCarteira.TaxaInadimplencia | dashboards/views.py:118-125 | rate times total is 100 times the unpaid balance of non-paid installments; 0 for a zero total |
| DashboardCarteira.Classify | dashboards/views.py:139-146 | every day count falls in the bucket whose range, with inclusive upper bounds, holds it |
| DashboardCarteira.FaixaUnique | dashboards/views.py:139-146 | the bucket ranges do not overlap |
| DashboardCarteira.FaixasDeAtraso | dashboards/views.py:127-147 | each bucket holds the summed balance of exactly the non-paid installments aged into it |
| DashboardCarteira.AgingConserved | dashboards/views.py:118-147 | the four buckets add up to the balance of all non-paid installments, which is `valor_inadimplente` when no amount is NULL |
| DashboardCarteira.AgingAgreesWithDiasEmAtraso | dashboards/views.py:135-137 | for an overdue-status installment the bucket is the one of its days overdue |
| DashboardCarteira.NotYetDueInFirstBucket | dashboards/views.py:135-140 | an installment without due date or not yet due is aged in 0-30 |
| DashboardCarteira.OpenInstallmentAgedByDueDate | dashboards/views.py:134-147 | an "aberto" installment 100 days past due is aged in 61-120 while its days overdue are 0 |
| DashboardCarteira.FaixaNomeInjective | dashboards/views.py:128-132 | the four bucket keys "0-30", "31-60", "61-120" and "120+" are pairwise different |
| DashboardCarteira.PublicadoPorFaixa | dashboards/views.py:149 | a bucket is published under its key exactly when it holds a non-zero amount, with that amount; nothing else is published and no key twice |
| DashboardCarteira.PublishedKeepsTotal | dashboards/views.py:149 | dropping the zero buckets keeps the sum |
| DashboardCarteira.CarteiraPorCorretor | dashboards/views.py:155-162 | one row for each broker name that some installment's sale carries and for no other name, each name once; each row holds the amount and paid amount of exactly that broker's installments, and the rows add up to the portfolio totals |
| DashboardCarteira.InadimplenciaPorCorretor | dashboards/views.py:170-187 | one row per row of the portfolio grouping, in its order, labelled "Não informado" when unnamed, with that broker's portfolio total, looked-up unpaid balance and rate |
| DashboardCarteira.LookupOfMeaning | dashboards/views.py:164-168 | when neither the broker nor any listed name is literally "Não informado", the lookup has an entry for the broker's label iff the broker's name is listed, holding that broker's unpaid balance |
| DashboardCarteira.ListedNamesAreNamed | dashboards/views.py:155-168 | a grouping by broker name lists only names that brokers carry, so none is "Não informado" when no broker carries that literal name |
| DashboardCarteira.BrokerRowMeaning | dashboards/views.py:170-179 | a broker's delinquent value is the unpaid balance of its own installments; 0 with rate 0 when it has none unpaid |
| DashboardCarteira.BrokerRowsConserved | dashboards/views.py:155-187 | the broker rows add up to the portfolio total and to `valor_inadimplente` |
| DashboardCarteira.PortfolioScenario | dashboards/tests.py:28-41 | 100000.00 due 45 days ago with 20000.00 paid plus a paid 150000.00 give 80000.00 in 31-60, rate 32 and balance 80000.00 |
| DashboardCompras.TotalsBy | dashboards/views.py:195-205 | one row for each name that some order carries and for no other name, each name once; each row holds the sum of exactly that name's orders, and the rows add up to the value of the named orders |
| DashboardCompras.CustoPorEmpreendimento | dashboards/views.py:195-199 | one row per development with orders, each once, holding its orders' sum; the rows add up to `custo_total_compras` |
| DashboardCompras.TotalPorFornecedor | dashboards/views.py:201-205 | one row per supplier with orders, each once, holding its orders' sum; the rows add up to `custo_total_compras` |
| DashboardCompras.SupplierShare | dashboards/views.py:206-216 | one entry per supplier, in input order, whose percentage times the suppliers' sum is 100 times its total; all 0 for a zero sum |
| DashboardCompras.SharesAddUpTo100 | dashboards/views.py:206-216 | the percentages add up to exactly 100 when the suppliers' sum is not 0 |
| DashboardCompras.SupplierShareOfPurchases | dashboards/views.py:189-216 | shares of the supplier grouping add up to 100 when purchases are not 0; no orders give no entries |
| DashboardEstrategicos.PlanejamentoVsRealizado | dashboards/views.py:218-233 | one row for each development name that some task carries, each once, holding the planned and actual costs of exactly its tasks and, as variance, the sum of those tasks' own cost variances; each column adds up to that column over all tasks |
| DashboardEstrategicos.PlanningScenario | dashboards/tests.py:53-62 | 80000.00 planned and 85000.00 spent show a variance of 5000.00 |
| DashboardEstrategicos.MargemPorEmpreendimento | dashboards/views.py:235-251 | one row per development with its sales total, purchase total and their difference |
| DashboardEstrategicos.MarginsConserved | dashboards/views.py:235-251 | over every development listed once, the margins add up to total sales minus total purchases |
| DashboardEstrategicos.MarginWithoutSales | dashboards/views.py:237-242 | a development without sales or without orders counts that side as 0 |

## Left out

- The chart payload (`dashboards/views.py:253-298`): `float` conversions and `json.dumps` for display.
- The context dictionary and its rendering, `render` and `@login_required`: these only package the values modelled above.
- Ordering by name or by descending total (`order_by("empreendimento__nome")`, `order_by("-total")`, `order_by("-total_valor")`, `order_by("nome")`). These orders depend on database collation and tie-breaking. Grouped rows are built in order of first occurrence, but the contracts of the grouped queries promise no order; developments come in the order given. `order_by("period")` is modelled.
- Decimal arithmetic with 28 significant digits, and the `max_digits=12` column bound. Ratios are exact and amounts unbounded.
- The `recebido` sum of `carteira_por_corretor` is modelled but never read by the view, as in the code.
- The conversion of a `datetime` period to a `date` (`hasattr(period, "date")`). Periods are `(year, month)` pairs from the start.
- Date validity is not enforced on the record fields. Day differences are ordinal differences for any triple.
- Foreign-key deletion rules, the timestamp base model, users, authentication, forms, URL routing and the admin configuration.
- DashboardCarteira.BrokerRowMeaning: assumes that no broker is literally named "Não informado". With such a broker, the lookup entry of the empty-named broker and that broker's entry collide.
- DashboardCarteira.BrokerRowsConserved: assumes the same, for the same reason.
- DashboardCarteira.LookupOfMeaning: assumes that neither the broker asked about nor any listed name is literally "Não informado". Otherwise the empty name and that literal name share one lookup entry, and the later one wins.
- DashboardCarteira.ListedNamesAreNamed: concludes that no listed name is "Não informado" only when no broker carries that literal name.
- DashboardCarteira.AgingConserved: equates the buckets with `valor_inadimplente` only when no amount is NULL, since the two sums read a NULL differently.
