/**
 * The sales-by-period part of the dashboard: monthly totals of the sales, their
 * labels ("Jan/2024"), and the folding of the monthly totals into bimesters
 * ("1º Bim/2024") and semesters ("2º Sem/2024").
 */
module Periods {
  import opened Wrappers
  import opened Calendar
  import opened Aggregates
  import opened Comercial

  // ---------------------------------------------------------------------------
  // Decimal rendering of years and indexes (Python's `f"{n}"`)

  predicate IsDigit(c: char)
  {
    '0' <= c <= '9'
  }

  predicate AllDigits(s: string)
  {
    forall i :: 0 <= i < |s| ==> IsDigit(s[i])
  }

  function DigitChar(d: nat): (c: char)
    requires d < 10
    ensures IsDigit(c) && c as int - '0' as int == d
  {
    ('0' as int + d) as char
  }

  /** The decimal digits of `n`, without leading zeros. */
  function NatToString(n: nat): (s: string)
    ensures |s| >= 1 && AllDigits(s)
  {
    if n < 10 then [DigitChar(n)] else NatToString(n / 10) + [DigitChar(n % 10)]
  }

  /** The number a string of decimal digits denotes. */
  function ParseNat(s: string): nat
    requires AllDigits(s)
  {
    if s == [] then 0 else ParseNat(s[..|s| - 1]) * 10 + (s[|s| - 1] as int - '0' as int)
  }

  lemma {:induction false} NatToStringRoundTrip(n: nat)
    ensures ParseNat(NatToString(n)) == n
  {
    if n >= 10 {
      var s := NatToString(n);
      assert s[..|s| - 1] == NatToString(n / 10);
      NatToStringRoundTrip(n / 10);
    }
  }

  // ---------------------------------------------------------------------------
  // _format_month_label

  const MonthNames: seq<string> := ["Jan", "Fev", "Mar", "Abr", "Mai", "Jun", "Jul", "Ago", "Set", "Out", "Nov", "Dez"]

  /** The month's abbreviation, a slash, and the year: "Mar/2024". */
  function FormatMonthLabel(ym: YearMonth): (text: string)
    ensures |text| >= 5 && text[..3] == MonthNames[ym.month - 1] && text[3] == '/'
    ensures AllDigits(text[4..])
  {
    MonthNames[ym.month - 1] + "/" + NatToString(ym.year)
  }

  /** The month whose abbreviation is `name`, if any. */
  function MonthOfName(name: string): (r: Option<Month>)
    ensures r.Some? ==> MonthNames[r.value - 1] == name
    ensures forall m: Month :: MonthNames[m - 1] == name ==> r == Some(m)
  {
    if name == "Jan" then Some(1) else if name == "Fev" then Some(2)
    else if name == "Mar" then Some(3) else if name == "Abr" then Some(4)
    else if name == "Mai" then Some(5) else if name == "Jun" then Some(6)
    else if name == "Jul" then Some(7) else if name == "Ago" then Some(8)
    else if name == "Set" then Some(9) else if name == "Out" then Some(10)
    else if name == "Nov" then Some(11) else if name == "Dez" then Some(12)
    else None
  }

  /** Reads a month label back. */
  function ParseMonthLabel(s: string): Option<YearMonth>
  {
    if |s| < 5 || s[3] != '/' || !AllDigits(s[4..]) then None
    else
      var m := MonthOfName(s[..3]);
      var y := ParseNat(s[4..]);
      if m.None? || !(1 <= y <= 9999) then None else Some(YearMonth(y, m.value))
  }

  /** A month label names its month and year: reading it back gives them. */
  lemma MonthLabelRoundTrip(ym: YearMonth)
    ensures ParseMonthLabel(FormatMonthLabel(ym)) == Some(ym)
  {
    var text := FormatMonthLabel(ym);
    assert text[4..] == NatToString(ym.year);
    NatToStringRoundTrip(ym.year);
  }

  /** Two different months never share a label. */
  lemma MonthLabelInjective(a: YearMonth, b: YearMonth)
    requires FormatMonthLabel(a) == FormatMonthLabel(b)
    ensures a == b
  {
    MonthLabelRoundTrip(a);
    MonthLabelRoundTrip(b);
  }

  // ---------------------------------------------------------------------------
  // Bimester and semester keys and labels

  /** A grouping key: a year and the index of a bimester (1..6) or semester (1..2) in it. */
  datatype PeriodKey = PeriodKey(year: int, index: int)

  /** `(dt.year, (dt.month - 1) // 2 + 1)`: months 2k-1 and 2k form bimester k. */
  function BimestreKey(ym: YearMonth): (k: PeriodKey)
    ensures k.year == ym.year && 1 <= k.index <= 6
    ensures ym.month == 2 * k.index - 1 || ym.month == 2 * k.index
  {
    PeriodKey(ym.year, (ym.month - 1) / 2 + 1)
  }

  /** `(dt.year, 1 if dt.month <= 6 else 2)`: January to June form semester 1. */
  function SemestreKey(ym: YearMonth): (k: PeriodKey)
    ensures k.year == ym.year
    ensures k.index == 1 <==> ym.month <= 6
    ensures k.index == 2 <==> ym.month > 6
  {
    PeriodKey(ym.year, if ym.month <= 6 then 1 else 2)
  }

  /** "3º Bim/2024". */
  function BimestreLabel(ym: YearMonth): string
  {
    NatToString((ym.month - 1) / 2 + 1) + "º Bim/" + NatToString(ym.year)
  }

  /** "1º Sem/2024". */
  function SemestreLabel(ym: YearMonth): string
  {
    NatToString(if ym.month <= 6 then 1 else 2) + "º Sem/" + NatToString(ym.year)
  }

  /** Two months get the same bimester label exactly when they fall in the same bimester. */
  lemma BimestreLabelNamesKey(a: YearMonth, b: YearMonth)
    ensures BimestreLabel(a) == BimestreLabel(b) <==> BimestreKey(a) == BimestreKey(b)
  {
    if BimestreLabel(a) == BimestreLabel(b) {
      var la, lb := BimestreLabel(a), BimestreLabel(b);
      assert la[0] == NatToString((a.month - 1) / 2 + 1)[0];
      assert la[7..] == NatToString(a.year);
      assert lb[7..] == NatToString(b.year);
      NatToStringRoundTrip(a.year);
      NatToStringRoundTrip(b.year);
    }
  }

  /** Two months get the same semester label exactly when they fall in the same semester. */
  lemma SemestreLabelNamesKey(a: YearMonth, b: YearMonth)
    ensures SemestreLabel(a) == SemestreLabel(b) <==> SemestreKey(a) == SemestreKey(b)
  {
    if SemestreLabel(a) == SemestreLabel(b) {
      var la, lb := SemestreLabel(a), SemestreLabel(b);
      assert la[0] == NatToString(if a.month <= 6 then 1 else 2)[0];
      assert lb[0] == NatToString(if b.month <= 6 then 1 else 2)[0];
      assert la[7..] == NatToString(a.year);
      assert lb[7..] == NatToString(b.year);
      NatToStringRoundTrip(a.year);
      NatToStringRoundTrip(b.year);
    }
  }

  // ---------------------------------------------------------------------------
  // Order of months and keys

  predicate MonthLt(a: YearMonth, b: YearMonth)
  {
    a.year < b.year || (a.year == b.year && a.month < b.month)
  }

  predicate MonthLe(a: YearMonth, b: YearMonth)
  {
    MonthLt(a, b) || a == b
  }

  predicate KeyLt(a: PeriodKey, b: PeriodKey)
  {
    a.year < b.year || (a.year == b.year && a.index < b.index)
  }

  predicate KeyLe(a: PeriodKey, b: PeriodKey)
  {
    KeyLt(a, b) || a == b
  }

  /** A later month never falls in an earlier group. */
  ghost predicate Monotone(keyOf: YearMonth -> PeriodKey)
  {
    forall a, b :: MonthLe(a, b) ==> KeyLe(keyOf(a), keyOf(b))
  }

  lemma BimestreMonotone()
    ensures Monotone(BimestreKey)
  {
  }

  lemma SemestreMonotone()
    ensures Monotone(SemestreKey)
  {
  }

  // ---------------------------------------------------------------------------
  // _group_periods

  /** A row of the monthly sales query: the month (None when the sale date was NULL) and its totals. */
  datatype PeriodRow = PeriodRow(period: Option<YearMonth>, valor: int, unidades: int)

  /** An entry of a comparative series. */
  datatype PeriodGroup = PeriodGroup(rotulo: string, valor: int, unidades: int)

  /** The group a row falls in; rows without a period fall in none. */
  function RowKey(keyOf: YearMonth -> PeriodKey): PeriodRow -> Option<PeriodKey>
  {
    (r: PeriodRow) => if r.period.Some? then Some(keyOf(r.period.value)) else None
  }

  function RowValor(r: PeriodRow): int
  {
    r.valor
  }

  function RowUnidades(r: PeriodRow): int
  {
    r.unidades
  }

  /** The group of key `k`: labelled after its first row, totalling all of its rows. */
  function GroupOf(data: seq<PeriodRow>, keyOf: YearMonth -> PeriodKey, labelOf: YearMonth -> string, k: PeriodKey): PeriodGroup
    requires k in DistinctKeys(data, RowKey(keyOf))
  {
    var first := data[FirstIndex(data, RowKey(keyOf), k)];
    PeriodGroup(
      if first.period.Some? then labelOf(first.period.value) else "",
      KeyedTotal(data, RowKey(keyOf), RowValor, k),
      KeyedTotal(data, RowKey(keyOf), RowUnidades, k))
  }

  /** One group per key, in order of the key's first occurrence. */
  function ExpectedGroups(data: seq<PeriodRow>, keyOf: YearMonth -> PeriodKey, labelOf: YearMonth -> string): seq<PeriodGroup>
  {
    var ks := DistinctKeys(data, RowKey(keyOf));
    seq(|ks|, i requires 0 <= i < |ks| => GroupOf(data, keyOf, labelOf, ks[i]))
  }

  /** The state of the fold after the rows `seen`: the keys met so far, in order, and their groups. */
  ghost predicate Tracks(seen: seq<PeriodRow>, keyOf: YearMonth -> PeriodKey, labelOf: YearMonth -> string,
                         keys: seq<PeriodKey>, grouped: map<PeriodKey, PeriodGroup>)
  {
    && keys == DistinctKeys(seen, RowKey(keyOf))
    && (forall k :: k in grouped <==> k in keys)
    && (forall k :: k in grouped ==> grouped[k] == GroupOf(seen, keyOf, labelOf, k))
  }

  /** The map after folding the row `x` into `grouped`: a row without period changes nothing; otherwise its group is opened if new and then credited with the row. */
  function StepGroups(grouped: map<PeriodKey, PeriodGroup>, x: PeriodRow,
                      keyOf: YearMonth -> PeriodKey, labelOf: YearMonth -> string): map<PeriodKey, PeriodGroup>
  {
    if x.period.None? then grouped
    else
      var k := keyOf(x.period.value);
      var g := if k in grouped then grouped[k] else PeriodGroup(labelOf(x.period.value), 0, 0);
      grouped[k := g.(valor := g.valor + x.valor, unidades := g.unidades + x.unidades)]
  }

  /** The map the fold has built after the rows `seen`. */
  function FoldGroups(seen: seq<PeriodRow>, keyOf: YearMonth -> PeriodKey, labelOf: YearMonth -> string): map<PeriodKey, PeriodGroup>
  {
    if seen == [] then map[]
    else StepGroups(FoldGroups(seen[..|seen| - 1], keyOf, labelOf), seen[|seen| - 1], keyOf, labelOf)
  }

  /** One pass of the fold: the key list grows by the row's key when that key is new to the map. */
  ghost predicate FoldStep(keys: seq<PeriodKey>, grouped: map<PeriodKey, PeriodGroup>, x: PeriodRow,
                           keyOf: YearMonth -> PeriodKey, labelOf: YearMonth -> string,
                           keys2: seq<PeriodKey>, grouped2: map<PeriodKey, PeriodGroup>)
  {
    && keys2 == (if x.period.Some? && keyOf(x.period.value) !in grouped then keys + [keyOf(x.period.value)] else keys)
    && grouped2 == StepGroups(grouped, x, keyOf, labelOf)
  }

  /** Folding one more row keeps the fold's state equal to the groups of the rows seen. */
  lemma TracksStep(seen: seq<PeriodRow>, x: PeriodRow, keyOf: YearMonth -> PeriodKey, labelOf: YearMonth -> string,
                   keys: seq<PeriodKey>, grouped: map<PeriodKey, PeriodGroup>,
                   keys2: seq<PeriodKey>, grouped2: map<PeriodKey, PeriodGroup>, seen2: seq<PeriodRow>)
    requires Tracks(seen, keyOf, labelOf, keys, grouped)
    requires FoldStep(keys, grouped, x, keyOf, labelOf, keys2, grouped2)
    requires seen2 == seen + [x]
    ensures Tracks(seen2, keyOf, labelOf, keys2, grouped2)
  {
    DistinctKeysSnoc(seen, x, keyOf);
    forall k | k in grouped2 ensures grouped2[k] == GroupOf(seen + [x], keyOf, labelOf, k) {
      TracksStepGroup(seen, x, keyOf, labelOf, keys, grouped, keys2, grouped2, k);
    }
  }

  /** The group of one key after folding one more row. */
  lemma TracksStepGroup(seen: seq<PeriodRow>, x: PeriodRow, keyOf: YearMonth -> PeriodKey, labelOf: YearMonth -> string,
                        keys: seq<PeriodKey>, grouped: map<PeriodKey, PeriodGroup>,
                        keys2: seq<PeriodKey>, grouped2: map<PeriodKey, PeriodGroup>, k: PeriodKey)
    requires Tracks(seen, keyOf, labelOf, keys, grouped)
    requires FoldStep(keys, grouped, x, keyOf, labelOf, keys2, grouped2)
    requires k in grouped2
    ensures k in DistinctKeys(seen + [x], RowKey(keyOf))
    ensures grouped2[k] == GroupOf(seen + [x], keyOf, labelOf, k)
  {
    DistinctKeysSnoc(seen, x, keyOf);
    GroupOfSnoc(seen, x, keyOf, labelOf, k);
  }

  /** The map's groups listed in the order of `keys`: `list(grouped.values())` of an insertion-ordered map. */
  function InKeyOrder(keys: seq<PeriodKey>, grouped: map<PeriodKey, PeriodGroup>): (groups: seq<PeriodGroup>)
    requires forall k :: k in keys ==> k in grouped
    ensures |groups| == |keys| && forall i :: 0 <= i < |keys| ==> groups[i] == grouped[keys[i]]
  {
    seq(|keys|, i requires 0 <= i < |keys| => grouped[keys[i]])
  }

  /** At the end of the fold, listing the groups in key order gives the expected series. */
  lemma TracksAll(data: seq<PeriodRow>, keyOf: YearMonth -> PeriodKey, labelOf: YearMonth -> string,
                  keys: seq<PeriodKey>, grouped: map<PeriodKey, PeriodGroup>)
    requires Tracks(data, keyOf, labelOf, keys, grouped)
    ensures forall k :: k in keys ==> k in grouped
    ensures InKeyOrder(keys, grouped) == ExpectedGroups(data, keyOf, labelOf)
  {
    assert forall k :: k in keys ==> k in grouped;
    assert |InKeyOrder(keys, grouped)| == |ExpectedGroups(data, keyOf, labelOf)|;
  }

  /** After any prefix of the rows, the map built so far holds exactly the groups of that prefix, under keys listed in first-occurrence order. */
  lemma {:induction false} FoldTracks(seen: seq<PeriodRow>, keyOf: YearMonth -> PeriodKey, labelOf: YearMonth -> string)
    ensures Tracks(seen, keyOf, labelOf, DistinctKeys(seen, RowKey(keyOf)), FoldGroups(seen, keyOf, labelOf))
  {
    if seen != [] {
      var init, x := seen[..|seen| - 1], seen[|seen| - 1];
      FoldTracks(init, keyOf, labelOf);
      assert seen == init + [x];
      DistinctKeysSnoc(init, x, keyOf);
      TracksStep(init, x, keyOf, labelOf, DistinctKeys(init, RowKey(keyOf)), FoldGroups(init, keyOf, labelOf),
                 DistinctKeys(seen, RowKey(keyOf)), FoldGroups(seen, keyOf, labelOf), seen);
    }
  }

  /** The key list and the map of one prefix step to those of the prefix one row longer. */
  lemma FoldAdvance(seen: seq<PeriodRow>, x: PeriodRow, seen2: seq<PeriodRow>, keyOf: YearMonth -> PeriodKey, labelOf: YearMonth -> string)
    requires seen2 == seen + [x]
    ensures FoldStep(DistinctKeys(seen, RowKey(keyOf)), FoldGroups(seen, keyOf, labelOf), x, keyOf, labelOf,
                     DistinctKeys(seen2, RowKey(keyOf)), FoldGroups(seen2, keyOf, labelOf))
  {
    FoldTracks(seen, keyOf, labelOf);
    DistinctKeysSnoc(seen, x, keyOf);
    assert seen2[..|seen2| - 1] == seen;
  }

  /** At the end of the fold, the map's groups listed in key order are the expected series. */
  lemma FoldListsGroups(data: seq<PeriodRow>, keyOf: YearMonth -> PeriodKey, labelOf: YearMonth -> string)
    ensures forall k :: k in DistinctKeys(data, RowKey(keyOf)) ==> k in FoldGroups(data, keyOf, labelOf)
    ensures InKeyOrder(DistinctKeys(data, RowKey(keyOf)), FoldGroups(data, keyOf, labelOf)) == ExpectedGroups(data, keyOf, labelOf)
  {
    FoldTracks(data, keyOf, labelOf);
    TracksAll(data, keyOf, labelOf, DistinctKeys(data, RowKey(keyOf)), FoldGroups(data, keyOf, labelOf));
  }

  /** One pass of the fold's loop: a row with a period opens its group if the key is new, then adds its values to it. */
  method Absorb(keys: seq<PeriodKey>, grouped: map<PeriodKey, PeriodGroup>, item: PeriodRow,
                keyOf: YearMonth -> PeriodKey, labelOf: YearMonth -> string)
    returns (keys2: seq<PeriodKey>, grouped2: map<PeriodKey, PeriodGroup>)
    ensures FoldStep(keys, grouped, item, keyOf, labelOf, keys2, grouped2)
  {
    keys2, grouped2 := keys, grouped;
    if item.period.Some? {
      var period := item.period.value;
      var k := keyOf(period);
      if k !in grouped2 {
        grouped2 := grouped2[k := PeriodGroup(labelOf(period), 0, 0)];
        keys2 := keys2 + [k];
      }
      var g := grouped2[k];
      grouped2 := grouped2[k := g.(valor := g.valor + item.valor, unidades := g.unidades + item.unidades)];
    }
  }

  /** `_group_periods`: folds rows into an insertion-ordered map of groups. */
  method GroupPeriods(data: seq<PeriodRow>, keyOf: YearMonth -> PeriodKey, labelOf: YearMonth -> string)
    returns (groups: seq<PeriodGroup>)
    ensures groups == ExpectedGroups(data, keyOf, labelOf)
  {
    var keys: seq<PeriodKey> := [];
    var grouped: map<PeriodKey, PeriodGroup> := map[];
    for i := 0 to |data|
      invariant keys == DistinctKeys(data[..i], RowKey(keyOf))
      invariant grouped == FoldGroups(data[..i], keyOf, labelOf)
    {
      var item := data[i];
      FoldAdvance(data[..i], item, data[..i + 1], keyOf, labelOf);
      keys, grouped := Absorb(keys, grouped, item, keyOf, labelOf);
    }
    assert data[..|data|] == data;
    FoldListsGroups(data, keyOf, labelOf);
    groups := InKeyOrder(keys, grouped);
  }

  /** One more row adds its key to the listed keys exactly when the key is new. */
  lemma {:induction false} DistinctKeysSnoc(data: seq<PeriodRow>, x: PeriodRow, keyOf: YearMonth -> PeriodKey)
    ensures DistinctKeys(data + [x], RowKey(keyOf))
         == if x.period.Some? && keyOf(x.period.value) !in DistinctKeys(data, RowKey(keyOf))
            then DistinctKeys(data, RowKey(keyOf)) + [keyOf(x.period.value)]
            else DistinctKeys(data, RowKey(keyOf))
  {
    assert (data + [x])[..|data|] == data;
  }

  /** How the group of key `k` changes when one more row is folded in: a new key opens a group holding that row, labelled after it; an old key's group is credited with the row when the row carries the key, and is otherwise unchanged. */
  lemma GroupOfSnoc(data: seq<PeriodRow>, x: PeriodRow, keyOf: YearMonth -> PeriodKey, labelOf: YearMonth -> string, k: PeriodKey)
    requires k in DistinctKeys(data + [x], RowKey(keyOf))
    ensures k in DistinctKeys(data, RowKey(keyOf)) ==>
      var g := GroupOf(data, keyOf, labelOf, k);
      GroupOf(data + [x], keyOf, labelOf, k)
      == if RowKey(keyOf)(x) == Some(k) then g.(valor := g.valor + x.valor, unidades := g.unidades + x.unidades) else g
    ensures k !in DistinctKeys(data, RowKey(keyOf)) ==>
      x.period.Some? && keyOf(x.period.value) == k
      && GroupOf(data + [x], keyOf, labelOf, k) == PeriodGroup(labelOf(x.period.value), x.valor, x.unidades)
  {
    var key := RowKey(keyOf);
    var xs := data + [x];
    assert xs[..|xs| - 1] == data;
    DistinctKeysSnoc(data, x, keyOf);
    if k in DistinctKeys(data, key) {
      assert FirstIndex(xs, key, k) == FirstIndex(data, key, k);
    } else {
      DistinctKeysOccur(data, key, k);
      KeyedTotalAbsent(data, key, RowValor, k);
      KeyedTotalAbsent(data, key, RowUnidades, k);
    }
  }

  // ---------------------------------------------------------------------------
  // What the grouping preserves

  function PeriodGroupValor(g: PeriodGroup): int
  {
    g.valor
  }

  function PeriodGroupUnidades(g: PeriodGroup): int
  {
    g.unidades
  }

  /** The month of a row, as a grouping key: rows without a period belong to no group. */
  function PeriodOf(r: PeriodRow): Option<YearMonth>
  {
    r.period
  }

  /** The groups together hold exactly the value and units of the rows that have a period. */
  lemma GroupedTotalsConserved(data: seq<PeriodRow>, keyOf: YearMonth -> PeriodKey, labelOf: YearMonth -> string)
    ensures Total(ExpectedGroups(data, keyOf, labelOf), PeriodGroupValor) == KeyedSum(data, PeriodOf, RowValor)
    ensures Total(ExpectedGroups(data, keyOf, labelOf), PeriodGroupUnidades) == KeyedSum(data, PeriodOf, RowUnidades)
  {
    var key := RowKey(keyOf);
    var ks := DistinctKeys(data, key);
    TotalOfKeyedRows(ExpectedGroups(data, keyOf, labelOf), PeriodGroupValor, data, key, RowValor, ks);
    TotalOfKeyedRows(ExpectedGroups(data, keyOf, labelOf), PeriodGroupUnidades, data, key, RowUnidades, ks);
    GroupTotalsConserved(data, key, RowValor);
    GroupTotalsConserved(data, key, RowUnidades);
    KeyedSumCongruent(data, key, RowValor, PeriodOf, RowValor);
    KeyedSumCongruent(data, key, RowUnidades, PeriodOf, RowUnidades);
  }

  /** The rows' months never go backwards. */
  ghost predicate Chronological(data: seq<PeriodRow>)
  {
    forall i, j :: 0 <= i < j < |data| && data[i].period.Some? && data[j].period.Some? ==>
      MonthLe(data[i].period.value, data[j].period.value)
  }

  ghost predicate IncreasingKeys(ks: seq<PeriodKey>)
  {
    forall i, j :: 0 <= i < j < |ks| ==> KeyLt(ks[i], ks[j])
  }

  /** Over chronological rows, a monotone key lists its groups in chronological order. */
  lemma {:induction false} GroupsInChronologicalOrder(data: seq<PeriodRow>, keyOf: YearMonth -> PeriodKey)
    requires Chronological(data) && Monotone(keyOf)
    ensures IncreasingKeys(DistinctKeys(data, RowKey(keyOf)))
  {
    if data != [] {
      var key := RowKey(keyOf);
      var init, x := data[..|data| - 1], data[|data| - 1];
      assert forall i :: 0 <= i < |init| ==> init[i] == data[i];
      GroupsInChronologicalOrder(init, keyOf);
      var ks := DistinctKeys(init, key);
      if x.period.Some? && keyOf(x.period.value) !in ks {
        var k := keyOf(x.period.value);
        forall kk | kk in ks ensures KeyLt(kk, k) {
          DistinctKeysOccur(init, key, kk);
          var j :| 0 <= j < |init| && key(init[j]) == Some(kk);
          assert MonthLe(data[j].period.value, x.period.value);
        }
      }
    }
  }

  // ---------------------------------------------------------------------------
  // The monthly sales query: sales grouped by TruncMonth(data_venda), ordered by month

  /** The month of a sale. */
  function SaleMonth(v: Venda): Option<YearMonth>
  {
    Some(TruncMonth(v.dataVenda))
  }

  ghost predicate StrictlySorted(ms: seq<YearMonth>)
  {
    forall i, j :: 0 <= i < j < |ms| ==> MonthLt(ms[i], ms[j])
  }

  /** Adds a month to a sorted list of distinct months. */
  function InsertMonth(ms: seq<YearMonth>, m: YearMonth): (r: seq<YearMonth>)
    requires StrictlySorted(ms)
    ensures StrictlySorted(r)
    ensures forall x :: x in r <==> x in ms || x == m
  {
    if ms == [] then [m]
    else if m == ms[0] then ms
    else if MonthLt(m, ms[0]) then [m] + ms
    else
      var rest := InsertMonth(ms[1..], m);
      assert MonthLt(ms[0], m);
      assert forall x :: x in ms[1..] ==> MonthLt(ms[0], x);
      assert forall j :: 0 <= j < |rest| ==> MonthLt(ms[0], rest[j]);
      [ms[0]] + rest
  }

  /** The months in which some sale was made, each once, in calendar order. */
  function SortedMonths(vs: seq<Venda>): (ms: seq<YearMonth>)
    ensures StrictlySorted(ms)
    ensures forall m :: m in ms <==> m in DistinctKeys(vs, SaleMonth)
  {
    if vs == [] then [] else InsertMonth(SortedMonths(vs[..|vs| - 1]), TruncMonth(vs[|vs| - 1].dataVenda))
  }

  /** One row per month `ms[i]`, holding the totals of that month's sales. */
  function MonthRows(vs: seq<Venda>, ms: seq<YearMonth>): (rows: seq<PeriodRow>)
    ensures |rows| == |ms|
    ensures forall i :: 0 <= i < |ms| ==> rows[i].period == Some(ms[i])
    ensures forall i :: 0 <= i < |ms| ==>
      rows[i].valor == KeyedTotal(vs, SaleMonth, ContractValue, ms[i])
      && rows[i].unidades == KeyedTotal(vs, SaleMonth, SaleUnits, ms[i])
  {
    seq(|ms|, i requires 0 <= i < |ms| =>
      PeriodRow(Some(ms[i]), KeyedTotal(vs, SaleMonth, ContractValue, ms[i]), KeyedTotal(vs, SaleMonth, SaleUnits, ms[i])))
  }

  /** `vendas_por_periodo`: a row per month with sales, in calendar order, totalling that month's sales. */
  function VendasPorPeriodo(vs: seq<Venda>): (rows: seq<PeriodRow>)
    ensures forall i :: 0 <= i < |rows| ==> rows[i].period.Some?
    ensures forall i, j :: 0 <= i < j < |rows| ==> MonthLt(rows[i].period.value, rows[j].period.value)
    ensures forall i :: 0 <= i < |rows| ==> Occurs(vs, SaleMonth, rows[i].period.value)
    ensures forall k :: 0 <= k < |vs| ==> exists i :: 0 <= i < |rows| && rows[i].period == Some(TruncMonth(vs[k].dataVenda))
    ensures forall i :: 0 <= i < |rows| ==>
      rows[i].valor == KeyedTotal(vs, SaleMonth, ContractValue, rows[i].period.value)
      && rows[i].unidades == KeyedTotal(vs, SaleMonth, SaleUnits, rows[i].period.value)
  {
    var ms := SortedMonths(vs);
    var rows := MonthRows(vs, ms);
    forall i | 0 <= i < |rows| ensures Occurs(vs, SaleMonth, rows[i].period.value) {
      DistinctKeysOccur(vs, SaleMonth, ms[i]);
    }
    forall k | 0 <= k < |vs| ensures exists i :: 0 <= i < |rows| && rows[i].period == Some(TruncMonth(vs[k].dataVenda)) {
      var m := TruncMonth(vs[k].dataVenda);
      DistinctKeysOccur(vs, SaleMonth, m);
      var i :| 0 <= i < |ms| && ms[i] == m;
      assert rows[i].period == Some(m);
    }
    rows
  }

  /** The sales query's rows are in chronological order. */
  lemma {:induction false} VendasPorPeriodoChronological(vs: seq<Venda>)
    ensures Chronological(VendasPorPeriodo(vs))
  {
  }

  /** The rows that have a month, in their order. */
  function WithPeriod(rows: seq<PeriodRow>): (kept: seq<PeriodRow>)
    ensures forall r :: r in kept <==> r in rows && r.period.Some?
    ensures (forall i :: 0 <= i < |rows| ==> rows[i].period.Some?) ==> kept == rows
  {
    if rows == [] then []
    else
      var init, last := rows[..|rows| - 1], rows[|rows| - 1];
      assert rows == init + [last];
      if last.period.Some? then WithPeriod(init) + [last] else WithPeriod(init)
  }

  /** A row with a month as an entry of a chart series: labelled with its month, values unchanged. */
  function Labelled(r: PeriodRow): PeriodGroup
    requires r.period.Some?
  {
    PeriodGroup(FormatMonthLabel(r.period.value), r.valor, r.unidades)
  }

  /**
   * `vendas_mensal`: one entry for each row that has a month, in order,
   * labelled with that month and with its values unchanged; rows without a
   * month are dropped.
   */
  function VendasMensal(rows: seq<PeriodRow>): (series: seq<PeriodGroup>)
    ensures |series| == |WithPeriod(rows)|
    ensures forall i :: 0 <= i < |series| ==> series[i] == Labelled(WithPeriod(rows)[i])
  {
    if rows == [] then []
    else
      var init, last := rows[..|rows| - 1], rows[|rows| - 1];
      assert rows == init + [last];
      if last.period.Some? then VendasMensal(init) + [Labelled(last)]
      else VendasMensal(init)
  }

  /** Every sale has a date, so every monthly row has a month and the monthly series labels each of them in turn. */
  lemma MonthlySeriesOfSales(vs: seq<Venda>)
    ensures |VendasMensal(VendasPorPeriodo(vs))| == |VendasPorPeriodo(vs)|
    ensures forall i :: 0 <= i < |VendasPorPeriodo(vs)| ==>
      VendasMensal(VendasPorPeriodo(vs))[i] == Labelled(VendasPorPeriodo(vs)[i])
  {
  }

  /** The three comparative series of the dashboard: monthly, bimonthly and semestral. */
  method ComparativosVendas(vs: seq<Venda>) returns (mensal: seq<PeriodGroup>, bimestral: seq<PeriodGroup>, semestral: seq<PeriodGroup>)
    ensures mensal == VendasMensal(VendasPorPeriodo(vs))
    ensures bimestral == ExpectedGroups(VendasPorPeriodo(vs), BimestreKey, BimestreLabel)
    ensures semestral == ExpectedGroups(VendasPorPeriodo(vs), SemestreKey, SemestreLabel)
  {
    var porPeriodo := VendasPorPeriodo(vs);
    mensal := VendasMensal(porPeriodo);
    bimestral := GroupPeriods(porPeriodo, BimestreKey, BimestreLabel);
    semestral := GroupPeriods(porPeriodo, SemestreKey, SemestreLabel);
  }

  // ---------------------------------------------------------------------------
  // From sales to bimesters and semesters

  lemma {:induction false} MonthRowsTotal(vs: seq<Venda>, ms: seq<YearMonth>, keyOf: YearMonth -> PeriodKey, c: PeriodKey)
    ensures KeyedTotal(MonthRows(vs, ms), RowKey(keyOf), RowValor, c) == SumOverKeysIn(vs, SaleMonth, ContractValue, ms, keyOf, c)
    ensures KeyedTotal(MonthRows(vs, ms), RowKey(keyOf), RowUnidades, c) == SumOverKeysIn(vs, SaleMonth, SaleUnits, ms, keyOf, c)
  {
    if ms != [] {
      var init := ms[..|ms| - 1];
      assert MonthRows(vs, ms)[..|ms| - 1] == MonthRows(vs, init);
      MonthRowsTotal(vs, init, keyOf, c);
    }
  }

  /**
   * A bimester's or semester's group holds exactly the sales made in that
   * bimester or semester: their total value and their total units.
   */
  lemma PeriodGroupHoldsItsSales(vs: seq<Venda>, keyOf: YearMonth -> PeriodKey, c: PeriodKey)
    ensures KeyedTotal(VendasPorPeriodo(vs), RowKey(keyOf), RowValor, c) == KeyedTotal(vs, Coarsen(SaleMonth, keyOf), ContractValue, c)
    ensures KeyedTotal(VendasPorPeriodo(vs), RowKey(keyOf), RowUnidades, c) == KeyedTotal(vs, Coarsen(SaleMonth, keyOf), SaleUnits, c)
  {
    var ms := SortedMonths(vs);
    MonthRowsTotal(vs, ms, keyOf, c);
    DistinctKeysCover(vs, SaleMonth);
    assert Distinct(ms);
    assert Covers(vs, SaleMonth, ms);
    Regroup(vs, SaleMonth, ContractValue, ms, keyOf, c);
    Regroup(vs, SaleMonth, SaleUnits, ms, keyOf, c);
  }
}
