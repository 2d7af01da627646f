/** The report page, src/pages/Relatorios.tsx: the rows each report query returns are
    grouped with `reduce` into an object keyed by month, expense type or room status,
    turned into `{ key, total }` rows with `Object.entries`, and (for the monthly reports)
    sorted by key; the cards add up plain lists; the two charts pair each revenue month
    with that month's expenses. */
module Reports {
  import opened Wrappers
  import Strings
  import Numerals
  import Tables
  import Calendar

  // ---- Grouping: `acc[key] = (acc[key] || 0) + amount` ----

  /** One step of a grouping fold: the key a row falls under and what it adds. */
  datatype Item = Item(key: string, amount: int)

  /** One `Object.entries` pair of the accumulator: `{ mes, valor }`, `{ tipo, valor }`
      or `{ status, count }`. */
  datatype Entry = Entry(key: string, total: int)

  /** The keys of the accumulator, in `Object.entries` order. */
  function Keys(es: seq<Entry>): (r: seq<string>)
    ensures |r| == |es|
    ensures forall i :: 0 <= i < |es| ==> r[i] == es[i].key
  {
    if es == [] then [] else [es[0].key] + Keys(es[1..])
  }

  predicate UniqueKeys(es: seq<Entry>) {
    forall i, j :: 0 <= i < j < |es| ==> es[i].key != es[j].key
  }

  /** `acc[k] || 0`: the total accumulated under `k`, 0 when `k` was never seen. */
  function Lookup(es: seq<Entry>, k: string): int {
    if es == [] then 0 else if es[0].key == k then es[0].total else Lookup(es[1..], k)
  }

  /** The sum of all the totals. */
  function Total(es: seq<Entry>): int {
    if es == [] then 0 else es[0].total + Total(es[1..])
  }

  /** What the rows falling under `k` add up to. */
  function SumFor(items: seq<Item>, k: string): int {
    Tables.SumWhere(items, (it: Item) => it.key == k, (it: Item) => it.amount)
  }

  /** What all the rows add up to. */
  function SumAll(items: seq<Item>): int {
    Tables.SumWhere(items, (it: Item) => true, (it: Item) => it.amount)
  }

  /** One step of the fold. A key already present keeps its place and grows by
      `amount`; a new key is added last, since string keys that are not array indices
      are listed by `Object.entries` in insertion order. */
  function Bump(acc: seq<Entry>, key: string, amount: int): seq<Entry> {
    if acc == [] then [Entry(key, amount)]
    else if acc[0].key == key then [Entry(key, acc[0].total + amount)] + acc[1..]
    else [acc[0]] + Bump(acc[1..], key, amount)
  }

  /** A step adds `key` to the key list exactly when it is new, at the end. */
  lemma {:induction false} BumpKeys(acc: seq<Entry>, key: string, amount: int)
    ensures Keys(Bump(acc, key, amount)) == if key in Keys(acc) then Keys(acc) else Keys(acc) + [key]
  {
    if acc != [] {
      assert Keys(acc) == [acc[0].key] + Keys(acc[1..]);
      if acc[0].key != key {
        BumpKeys(acc[1..], key, amount);
      }
    }
  }

  /** A step adds `amount` under `key` and nothing under any other key. */
  lemma {:induction false} BumpLookup(acc: seq<Entry>, key: string, amount: int, k: string)
    ensures Lookup(Bump(acc, key, amount), k) == Lookup(acc, k) + (if k == key then amount else 0)
  {
    if acc != [] && acc[0].key != key {
      BumpLookup(acc[1..], key, amount, k);
    }
  }

  lemma {:induction false} BumpTotal(acc: seq<Entry>, key: string, amount: int)
    ensures Total(Bump(acc, key, amount)) == Total(acc) + amount
  {
    if acc != [] && acc[0].key != key {
      BumpTotal(acc[1..], key, amount);
    }
  }

  lemma {:induction false} BumpPositive(acc: seq<Entry>, key: string, amount: int)
    requires amount > 0 && forall i :: 0 <= i < |acc| ==> acc[i].total > 0
    ensures forall i :: 0 <= i < |Bump(acc, key, amount)| ==> Bump(acc, key, amount)[i].total > 0
  {
    if acc != [] && acc[0].key != key {
      BumpPositive(acc[1..], key, amount);
    }
  }

  /** Keys stay distinct: a step never adds a key that is already there. */
  lemma BumpUnique(acc: seq<Entry>, key: string, amount: int)
    requires UniqueKeys(acc)
    ensures UniqueKeys(Bump(acc, key, amount))
  {
    var r := Bump(acc, key, amount);
    BumpKeys(acc, key, amount);
    forall i, j | 0 <= i < j < |r| ensures r[i].key != r[j].key {
      assert Keys(r)[i] == r[i].key && Keys(r)[j] == r[j].key;
      if j >= |acc| {
        assert key !in Keys(acc);
        assert Keys(acc)[i] == acc[i].key;
      } else {
        assert Keys(acc)[i] == acc[i].key && Keys(acc)[j] == acc[j].key;
      }
    }
  }

  /** `items.reduce((acc, it) => { acc[it.key] = (acc[it.key] || 0) + it.amount; ... }, {})`
      followed by `Object.entries`. */
  function GroupSum(items: seq<Item>): seq<Entry> {
    if items == [] then []
    else
      var n := |items| - 1;
      Bump(GroupSum(items[..n]), items[n].key, items[n].amount)
  }

  /** The keys of the rows, in order. */
  function ItemKeys(items: seq<Item>): seq<string>
  {
    seq(|items|, i requires 0 <= i < |items| => items[i].key)
  }

  lemma {:induction false} GroupSumUnique(items: seq<Item>)
    ensures UniqueKeys(GroupSum(items))
  {
    if items != [] {
      var n := |items| - 1;
      GroupSumUnique(items[..n]);
      BumpUnique(GroupSum(items[..n]), items[n].key, items[n].amount);
    }
  }

  lemma {:induction false} GroupSumKeys(items: seq<Item>)
    ensures forall k :: k in Keys(GroupSum(items)) <==> k in ItemKeys(items)
  {
    if items != [] {
      var n := |items| - 1;
      GroupSumKeys(items[..n]);
      BumpKeys(GroupSum(items[..n]), items[n].key, items[n].amount);
      assert ItemKeys(items) == ItemKeys(items[..n]) + [items[n].key];
    }
  }

  lemma {:induction false} GroupSumLookup(items: seq<Item>, k: string)
    ensures Lookup(GroupSum(items), k) == SumFor(items, k)
  {
    if items != [] {
      var n := |items| - 1;
      GroupSumLookup(items[..n], k);
      BumpLookup(GroupSum(items[..n]), items[n].key, items[n].amount, k);
    }
  }

  lemma {:induction false} GroupSumTotal(items: seq<Item>)
    ensures Total(GroupSum(items)) == SumAll(items)
  {
    if items != [] {
      var n := |items| - 1;
      GroupSumTotal(items[..n]);
      BumpTotal(GroupSum(items[..n]), items[n].key, items[n].amount);
    }
  }

  lemma {:induction false} GroupSumPositive(items: seq<Item>)
    requires forall i :: 0 <= i < |items| ==> items[i].amount > 0
    ensures forall j :: 0 <= j < |GroupSum(items)| ==> GroupSum(items)[j].total > 0
  {
    if items != [] {
      var n := |items| - 1;
      assert forall i :: 0 <= i < n ==> items[..n][i].amount > 0;
      GroupSumPositive(items[..n]);
      BumpPositive(GroupSum(items[..n]), items[n].key, items[n].amount);
    }
  }

  /** The grouping has one entry per distinct key of the input, the entry for a key
      holds the sum of the amounts under that key, nothing is lost or counted twice, and
      all totals are positive when all amounts are. */
  lemma GroupSumSpec(items: seq<Item>)
    ensures var r := GroupSum(items);
      && UniqueKeys(r)
      && (forall k :: k in Keys(r) <==> k in ItemKeys(items))
      && (forall k :: Lookup(r, k) == SumFor(items, k))
      && Total(r) == SumAll(items)
      && ((forall i :: 0 <= i < |items| ==> items[i].amount > 0) ==>
            forall j :: 0 <= j < |r| ==> r[j].total > 0)
  {
    GroupSumUnique(items);
    GroupSumKeys(items);
    GroupSumTotal(items);
    forall k ensures Lookup(GroupSum(items), k) == SumFor(items, k) {
      GroupSumLookup(items, k);
    }
    if forall i :: 0 <= i < |items| ==> items[i].amount > 0 {
      GroupSumPositive(items);
    }
  }

  // ---- Sorting by key: `sort((a, b) => a.key.localeCompare(b.key))` ----

  predicate StrictlySorted(es: seq<Entry>) {
    forall i, j :: 0 <= i < j < |es| ==> Strings.Less(es[i].key, es[j].key)
  }

  function InsertByKey(e: Entry, s: seq<Entry>): (r: seq<Entry>)
    ensures |r| == |s| + 1
    ensures multiset(r) == multiset(s) + multiset{e}
  {
    if s == [] || Strings.LessOrEqual(e.key, s[0].key) then [e] + s
    else
      assert s == [s[0]] + s[1..];
      [s[0]] + InsertByKey(e, s[1..])
  }

  /** Every key of `s` sorts after `k`. */
  predicate KeysAbove(k: string, s: seq<Entry>) {
    forall i :: 0 <= i < |s| ==> Strings.Less(k, s[i].key)
  }

  lemma {:induction false} InsertByKeyAbove(k: string, e: Entry, s: seq<Entry>)
    requires KeysAbove(k, s) && Strings.Less(k, e.key)
    ensures KeysAbove(k, InsertByKey(e, s))
  {
    if s != [] && !Strings.LessOrEqual(e.key, s[0].key) {
      InsertByKeyAbove(k, e, s[1..]);
    }
  }

  /** Inserting adds the entry's key to the keys. */
  lemma {:induction false} InsertByKeyKeys(e: Entry, s: seq<Entry>, k: string)
    ensures k in Keys(InsertByKey(e, s)) <==> k == e.key || k in Keys(s)
  {
    if s != [] {
      assert Keys(s) == [s[0].key] + Keys(s[1..]);
      if Strings.LessOrEqual(e.key, s[0].key) {
        assert Keys(InsertByKey(e, s)) == [e.key] + Keys(s);
      } else {
        InsertByKeyKeys(e, s[1..], k);
        assert Keys(InsertByKey(e, s)) == [s[0].key] + Keys(InsertByKey(e, s[1..]));
      }
    }
  }

  /** Inserting an entry under a new key adds its total under that key and leaves the
      other keys' totals as they were. */
  lemma {:induction false} InsertByKeyLookup(e: Entry, s: seq<Entry>, k: string)
    requires e.key !in Keys(s)
    ensures Lookup(InsertByKey(e, s), k) == if k == e.key then e.total else Lookup(s, k)
  {
    if s != [] {
      assert Keys(s) == [s[0].key] + Keys(s[1..]);
      if !Strings.LessOrEqual(e.key, s[0].key) {
        InsertByKeyLookup(e, s[1..], k);
      }
    }
  }

  lemma {:induction false} InsertByKeyTotal(e: Entry, s: seq<Entry>)
    ensures Total(InsertByKey(e, s)) == e.total + Total(s)
  {
    if s != [] && !Strings.LessOrEqual(e.key, s[0].key) {
      InsertByKeyTotal(e, s[1..]);
    }
  }

  /** Inserting an entry under a new key keeps the list sorted. */
  lemma {:induction false} InsertByKeySorted(e: Entry, s: seq<Entry>)
    requires e.key !in Keys(s) && StrictlySorted(s)
    ensures StrictlySorted(InsertByKey(e, s))
  {
    if s == [] {
    } else if Strings.LessOrEqual(e.key, s[0].key) {
      assert e.key != s[0].key by { assert Keys(s)[0] == s[0].key; }
      assert KeysAbove(e.key, s) by {
        forall i | 0 <= i < |s| ensures Strings.Less(e.key, s[i].key) {
          if i > 0 {
            Strings.LessTransitive(e.key, s[0].key, s[i].key);
          }
        }
      }
      ConsSorted(e, s);
    } else {
      assert Keys(s) == [s[0].key] + Keys(s[1..]);
      InsertByKeySorted(e, s[1..]);
      Strings.LessTotal(e.key, s[0].key);
      SortedTailAbove(s);
      InsertByKeyAbove(s[0].key, e, s[1..]);
      ConsSorted(s[0], InsertByKey(e, s[1..]));
    }
  }

  /** An entry whose key sorts below every key of a strictly sorted list can go in front. */
  lemma ConsSorted(x: Entry, rest: seq<Entry>)
    requires KeysAbove(x.key, rest) && StrictlySorted(rest)
    ensures StrictlySorted([x] + rest)
  {
    var r := [x] + rest;
    forall i, j | 0 <= i < j < |r| ensures Strings.Less(r[i].key, r[j].key) {
      assert r[j] == rest[j - 1];
      if i > 0 {
        assert r[i] == rest[i - 1];
      }
    }
  }

  /** In a strictly sorted list every key after the first sorts above it, and the tail is
      strictly sorted. */
  lemma SortedTailAbove(s: seq<Entry>)
    requires StrictlySorted(s) && s != []
    ensures KeysAbove(s[0].key, s[1..]) && StrictlySorted(s[1..])
  {
    forall i | 0 <= i < |s[1..]| ensures Strings.Less(s[0].key, s[1..][i].key) {
      assert s[1..][i] == s[i + 1];
    }
  }

  function SortByKey(es: seq<Entry>): (r: seq<Entry>)
    ensures |r| == |es|
    ensures multiset(r) == multiset(es)
  {
    if es == [] then []
    else
      assert es == [es[0]] + es[1..];
      InsertByKey(es[0], SortByKey(es[1..]))
  }

  /** Sorting entries with distinct keys orders them strictly by key and keeps every
      key with its total. */
  lemma {:induction false} SortByKeySpec(es: seq<Entry>)
    requires UniqueKeys(es)
    ensures var r := SortByKey(es);
      && StrictlySorted(r)
      && (forall k :: k in Keys(r) <==> k in Keys(es))
      && (forall k :: Lookup(r, k) == Lookup(es, k))
      && Total(r) == Total(es)
  {
    if es != [] {
      var rest := SortByKey(es[1..]);
      assert UniqueKeys(es[1..]) by {
        forall i, j | 0 <= i < j < |es[1..]| ensures es[1..][i].key != es[1..][j].key {
          assert es[1..][i] == es[i + 1] && es[1..][j] == es[j + 1];
        }
      }
      SortByKeySpec(es[1..]);
      assert Keys(es) == [es[0].key] + Keys(es[1..]);
      assert es[0].key !in Keys(es[1..]) by {
        forall j | 0 <= j < |es[1..]| ensures Keys(es[1..])[j] != es[0].key {
          assert es[1..][j] == es[j + 1];
        }
      }
      assert es[0].key !in Keys(rest);
      InsertByKeySorted(es[0], rest);
      InsertByKeyTotal(es[0], rest);
      forall k ensures k in Keys(SortByKey(es)) <==> k in Keys(es) {
        InsertByKeyKeys(es[0], rest, k);
      }
      forall k ensures Lookup(SortByKey(es), k) == Lookup(es, k) {
        InsertByKeyLookup(es[0], rest, k);
      }
    }
  }

  /** Sorting and grouping together: the monthly reports. */
  lemma SortedGroupSumSpec(items: seq<Item>)
    ensures var r := SortByKey(GroupSum(items));
      && StrictlySorted(r)
      && (forall k :: k in Keys(r) <==> k in ItemKeys(items))
      && (forall k :: Lookup(r, k) == SumFor(items, k))
      && Total(r) == SumAll(items)
  {
    GroupSumSpec(items);
    SortByKeySpec(GroupSum(items));
  }

  /** Keys that sort strictly are distinct. */
  lemma StrictlySortedUnique(es: seq<Entry>)
    requires StrictlySorted(es)
    ensures UniqueKeys(es)
  {
    forall i, j | 0 <= i < j < |es| ensures es[i].key != es[j].key {
      Strings.LessIrreflexive(es[i].key);
    }
  }

  // ---- The four report queries ----

  /** A row of the revenue query: `data_pagamento, valor, mes_referencia` of a paid charge. */
  datatype RevenueRow = RevenueRow(dataPagamento: Option<string>, valor: int, mesReferencia: string)

  /** A row of the expense queries: `data, valor, tipo`. */
  datatype ExpenseRow = ExpenseRow(data: string, valor: int, tipo: string)

  /** `cobranca.data_pagamento?.substring(0, 7) || cobranca.mes_referencia`: a missing or
      empty payment date falls back to the reference month. */
  function RevenueMonth(row: RevenueRow): string {
    if row.dataPagamento.Some? && Strings.Prefix(row.dataPagamento.value, 7) != "" then
      Strings.Prefix(row.dataPagamento.value, 7)
    else row.mesReferencia
  }

  /** `despesa.data.substring(0, 7)`. */
  function ExpenseMonth(row: ExpenseRow): string {
    Strings.Prefix(row.data, 7)
  }

  function RevenueItems(rows: seq<RevenueRow>): seq<Item>
  {
    seq(|rows|, i requires 0 <= i < |rows| => Item(RevenueMonth(rows[i]), rows[i].valor))
  }

  function ExpenseMonthItems(rows: seq<ExpenseRow>): seq<Item>
  {
    seq(|rows|, i requires 0 <= i < |rows| => Item(ExpenseMonth(rows[i]), rows[i].valor))
  }

  function ExpenseTypeItems(rows: seq<ExpenseRow>): seq<Item>
  {
    seq(|rows|, i requires 0 <= i < |rows| => Item(rows[i].tipo, rows[i].valor))
  }

  function StatusItems(statuses: seq<string>): seq<Item>
  {
    seq(|statuses|, i requires 0 <= i < |statuses| => Item(statuses[i], 1))
  }

  /** `receitasMensais`: paid revenue per month, sorted by month. */
  function MonthlyRevenue(rows: seq<RevenueRow>): seq<Entry> {
    SortByKey(GroupSum(RevenueItems(rows)))
  }

  /** `despesasMensais`: expenses per month, sorted by month. */
  function MonthlyExpenses(rows: seq<ExpenseRow>): seq<Entry> {
    SortByKey(GroupSum(ExpenseMonthItems(rows)))
  }

  /** `despesasPorTipo`: expenses per type, in order of first appearance. */
  function ExpensesByType(rows: seq<ExpenseRow>): seq<Entry> {
    GroupSum(ExpenseTypeItems(rows))
  }

  /** `statusQuartos`: the number of rooms in each status, in order of first appearance. */
  function RoomStatusCounts(statuses: seq<string>): seq<Entry> {
    GroupSum(StatusItems(statuses))
  }

  /** The month each revenue row falls in, row by row. */
  function RevenueMonths(rows: seq<RevenueRow>): seq<string>
  {
    seq(|rows|, i requires 0 <= i < |rows| => RevenueMonth(rows[i]))
  }

  /** The month each expense row falls in, row by row. */
  function ExpenseMonths(rows: seq<ExpenseRow>): seq<string>
  {
    seq(|rows|, i requires 0 <= i < |rows| => ExpenseMonth(rows[i]))
  }

  /** The type of each expense row, row by row. */
  function ExpenseTipos(rows: seq<ExpenseRow>): seq<string>
  {
    seq(|rows|, i requires 0 <= i < |rows| => rows[i].tipo)
  }

  /** The monthly revenue report lists each month some row falls in exactly once, in
      ascending order, with the sum of that month's values; together the months hold
      all the revenue. */
  lemma MonthlyRevenueSpec(rows: seq<RevenueRow>)
    ensures var r := MonthlyRevenue(rows);
      && StrictlySorted(r) && UniqueKeys(r)
      && (forall m :: m in Keys(r) <==> m in RevenueMonths(rows))
      && (forall m :: Lookup(r, m) == SumFor(RevenueItems(rows), m))
      && Total(r) == SumAll(RevenueItems(rows))
  {
    SortedGroupSumSpec(RevenueItems(rows));
    StrictlySortedUnique(MonthlyRevenue(rows));
    assert ItemKeys(RevenueItems(rows)) == RevenueMonths(rows);
  }

  /** The monthly expense report: the same guarantees, keyed by the first seven
      characters of the expense date. */
  lemma MonthlyExpensesSpec(rows: seq<ExpenseRow>)
    ensures var r := MonthlyExpenses(rows);
      && StrictlySorted(r) && UniqueKeys(r)
      && (forall m :: m in Keys(r) <==> m in ExpenseMonths(rows))
      && (forall m :: Lookup(r, m) == SumFor(ExpenseMonthItems(rows), m))
      && Total(r) == SumAll(ExpenseMonthItems(rows))
  {
    SortedGroupSumSpec(ExpenseMonthItems(rows));
    StrictlySortedUnique(MonthlyExpenses(rows));
    assert ItemKeys(ExpenseMonthItems(rows)) == ExpenseMonths(rows);
  }

  /** The expense-type report has one entry per distinct type, each with that type's
      sum, and the entries add up to the total expense. */
  lemma ExpensesByTypeSpec(rows: seq<ExpenseRow>)
    ensures var r := ExpensesByType(rows);
      && UniqueKeys(r)
      && (forall t :: t in Keys(r) <==> t in ExpenseTipos(rows))
      && (forall t :: Lookup(r, t) == SumFor(ExpenseTypeItems(rows), t))
      && Total(r) == SumAll(ExpenseTypeItems(rows))
  {
    GroupSumSpec(ExpenseTypeItems(rows));
    assert ItemKeys(ExpenseTypeItems(rows)) == ExpenseTipos(rows);
  }

  lemma {:induction false} SumAllOnes(statuses: seq<string>)
    ensures SumAll(StatusItems(statuses)) == |statuses|
  {
    if statuses != [] {
      var n := |statuses| - 1;
      assert StatusItems(statuses)[..n] == StatusItems(statuses[..n]);
      SumAllOnes(statuses[..n]);
    }
  }

  /** The room-status report has one entry per status that occurs, every count is
      positive, and the counts add up to the number of rooms. */
  lemma RoomStatusCountsSpec(statuses: seq<string>)
    ensures var r := RoomStatusCounts(statuses);
      && UniqueKeys(r)
      && (forall s :: s in Keys(r) <==> s in statuses)
      && (forall j :: 0 <= j < |r| ==> r[j].total > 0)
      && Total(r) == |statuses|
  {
    GroupSumSpec(StatusItems(statuses));
    SumAllOnes(statuses);
    assert ItemKeys(StatusItems(statuses)) == statuses;
  }

  /** A payment date written `YYYY-MM-DD` groups under the `YYYY-MM` label the
      dashboard uses for the same month. */
  lemma RevenueMonthOfDate(row: RevenueRow, d: Calendar.Date)
    requires Calendar.ValidDate(d) && Calendar.FourDigitYear(Calendar.MonthOf(d))
    requires row.dataPagamento == Some(DateText(d))
    ensures RevenueMonth(row) == Calendar.Label(Calendar.MonthOf(d))
  {
    Calendar.LabelLength(Calendar.MonthOf(d));
    RevenueMonthOfPrefix(row, Calendar.Label(Calendar.MonthOf(d)), "-" + Numerals.PadStart2(Numerals.NatToString(d.day)));
  }

  /** A payment date that starts with seven given characters groups under them. */
  lemma RevenueMonthOfPrefix(row: RevenueRow, month: string, rest: string)
    requires |month| == 7 && row.dataPagamento == Some(month + rest)
    ensures RevenueMonth(row) == month
  {
    Strings.PrefixOfConcat(month, rest);
  }

  /** `YYYY-MM-DD`, the text form of a date column. */
  function DateText(d: Calendar.Date): string
    requires Calendar.ValidDate(d)
  {
    Calendar.Label(Calendar.MonthOf(d)) + ("-" + Numerals.PadStart2(Numerals.NatToString(d.day)))
  }

  // ---- Date range of the statistics cards ----

  datatype Range = Range(start: string, end: string)

  /** `startDate`/`endDate`: the selected month from day 01 to day 31, or the whole
      selected year when no month is selected. */
  function DateRange(year: string, month: string): Range {
    if month != "" then Range(year + "-" + month + "-01", year + "-" + month + "-31")
    else Range(year + "-01-01", year + "-12-31")
  }

  /** The range is never empty as text: its start sorts before its end. */
  lemma DateRangeOrdered(year: string, month: string)
    ensures Strings.Less(DateRange(year, month).start, DateRange(year, month).end)
  {
    if month != "" {
      var p := year + "-" + month + "-";
      assert year + "-" + month + "-01" == p + "01";
      assert year + "-" + month + "-31" == p + "31";
      Strings.LessConcat(p, p, "01", "31");
    } else {
      var p := year + "-";
      assert year + "-01-01" == p + "01-01";
      assert year + "-12-31" == p + "12-31";
      Strings.LessConcat(p, p, "01-01", "12-31");
    }
  }

  /** Days in a month of the Gregorian calendar. */
  function DaysInMonth(year: int, month: int): (n: int)
    requires 1 <= month <= 12
    ensures 28 <= n <= 31
  {
    if month == 2 then (if (year % 4 == 0 && year % 100 != 0) || year % 400 == 0 then 29 else 28)
    else if month == 4 || month == 6 || month == 9 || month == 11 then 30
    else 31
  }

  /** For February 2024 the range ends on `2024-02-31`, a day February does not have. */
  lemma DateRangeEndNotADate()
    ensures DateRange("2024", "02").end == "2024-02-31"
    ensures DaysInMonth(2024, 2) < 31
  {
  }

  /** The range the month filter evidently means: day 01 to the month's last day. */
  function MonthRange(year: nat, month: nat): Range
    requires 1 <= month <= 12
  {
    var p := Numerals.NatToString(year) + "-" + Numerals.PadStart2(Numerals.NatToString(month)) + "-";
    Range(p + "01", p + Numerals.PadStart2(Numerals.NatToString(DaysInMonth(year, month))))
  }

  /** Two-digit days after the same prefix sort as the days do. */
  lemma DayOrder(p: string, a: nat, b: nat)
    requires 1 <= a <= b <= 99
    ensures Strings.LessOrEqual(p + Numerals.PadStart2(Numerals.NatToString(a)), p + Numerals.PadStart2(Numerals.NatToString(b)))
  {
    assert Numerals.Pow10(2) == 100;
    Numerals.PadStart2Fixed(a);
    Numerals.PadStart2Fixed(b);
    Numerals.FixedDigitsOrder(a, b, 2);
    Numerals.FixedDigitsInjective(a, b, 2);
    Strings.LessConcat(p, p, Numerals.FixedDigits(a, 2), Numerals.FixedDigits(b, 2));
  }

  /** Every day of the month, written as a date, lies within the corrected range, and
      the range ends on the month's last day. */
  lemma MonthRangeCoversMonth(year: nat, month: nat, day: nat)
    requires 1 <= month <= 12 && 1 <= day <= DaysInMonth(year, month)
    ensures var r := MonthRange(year, month);
      var p := Numerals.NatToString(year) + "-" + Numerals.PadStart2(Numerals.NatToString(month)) + "-";
      && Strings.LessOrEqual(r.start, p + Numerals.PadStart2(Numerals.NatToString(day)))
      && Strings.LessOrEqual(p + Numerals.PadStart2(Numerals.NatToString(day)), r.end)
      && r.end == p + Numerals.PadStart2(Numerals.NatToString(DaysInMonth(year, month)))
  {
    var p := Numerals.NatToString(year) + "-" + Numerals.PadStart2(Numerals.NatToString(month)) + "-";
    assert Numerals.PadStart2(Numerals.NatToString(1)) == "01";
    DayOrder(p, 1, day);
    DayOrder(p, day, DaysInMonth(year, month));
  }

  // ---- The statistics cards ----

  datatype Statistics = Statistics(
    totalReceitas: int, totalDespesas: int, lucroLiquido: int, totalPendente: int, inquilinosAtivos: nat)

  function SumOf(xs: seq<int>): int {
    if xs == [] then 0 else SumOf(xs[..|xs| - 1]) + xs[|xs| - 1]
  }

  /** `list?.reduce((sum, x) => sum + x.valor, 0) || 0`: a missing list counts as 0. */
  function SumOrZero(xs: Option<seq<int>>): int {
    if xs.Some? then SumOf(xs.value) else 0
  }

  /** `estatisticas`: each query's result may be missing (`data` is null when the query
      fails). */
  function Stats(receitas: Option<seq<int>>, despesas: Option<seq<int>>, pendentes: Option<seq<int>>,
                 ativos: Option<seq<string>>): (r: Statistics)
    ensures r.lucroLiquido == r.totalReceitas - r.totalDespesas
    ensures receitas.None? || receitas == Some([]) ==> r.totalReceitas == 0
    ensures despesas.None? || despesas == Some([]) ==> r.totalDespesas == 0
    ensures pendentes.None? || pendentes == Some([]) ==> r.totalPendente == 0
    ensures r.inquilinosAtivos == if ativos.Some? then |ativos.value| else 0
    ensures receitas.Some? ==> r.totalReceitas == SumOf(receitas.value)
    ensures despesas.Some? ==> r.totalDespesas == SumOf(despesas.value)
    ensures pendentes.Some? ==> r.totalPendente == SumOf(pendentes.value)
  {
    var rec := SumOrZero(receitas);
    var desp := SumOrZero(despesas);
    Statistics(rec, desp, rec - desp, SumOrZero(pendentes), if ativos.Some? then |ativos.value| else 0)
  }

  /** Sums over lists split at any point add up, so the cards' totals do not depend on
      how the backend pages its rows. */
  lemma {:induction false} SumOfAppend(a: seq<int>, b: seq<int>)
    ensures SumOf(a + b) == SumOf(a) + SumOf(b)
  {
    if b != [] {
      var n := |b| - 1;
      assert (a + b)[..|a + b| - 1] == a + b[..n];
      SumOfAppend(a, b[..n]);
    } else {
      assert a + b == a;
    }
  }

  /** The cards over rows split in two parts are the sums of the cards over each part:
      revenue, expenses, the pending total and the profit all add up. */
  lemma StatsSplit(ra: seq<int>, rb: seq<int>, da: seq<int>, db: seq<int>, pa: seq<int>, pb: seq<int>,
                   ativos: Option<seq<string>>)
    ensures var whole := Stats(Some(ra + rb), Some(da + db), Some(pa + pb), ativos);
      var a, b := Stats(Some(ra), Some(da), Some(pa), ativos), Stats(Some(rb), Some(db), Some(pb), ativos);
      && whole.totalReceitas == a.totalReceitas + b.totalReceitas
      && whole.totalDespesas == a.totalDespesas + b.totalDespesas
      && whole.totalPendente == a.totalPendente + b.totalPendente
      && whole.lucroLiquido == a.lucroLiquido + b.lucroLiquido
  {
    SumOfAppend(ra, rb);
    SumOfAppend(da, db);
    SumOfAppend(pa, pb);
  }

  /** With no negative amounts every card total is at least 0. */
  lemma {:induction false} SumOfNonNegative(xs: seq<int>)
    requires forall i :: 0 <= i < |xs| ==> xs[i] >= 0
    ensures SumOf(xs) >= 0
  {
    if xs != [] {
      SumOfNonNegative(xs[..|xs| - 1]);
    }
  }

  // ---- The charts ----

  /** A bar of the revenue-versus-expense chart. */
  datatype Bar = Bar(mes: string, receitas: int, despesas: int)

  /** A point of the profit line. */
  datatype LinePoint = LinePoint(mes: string, lucro: int)

  function EntryKey(e: Entry): string {
    e.key
  }

  /** `despesasMensais?.find(d => d.mes === mes)?.valor || 0`. */
  function ExpenseFor(despesasMensais: Option<seq<Entry>>, mes: string): int {
    if despesasMensais.None? then 0
    else
      var found := Tables.FindKey(despesasMensais.value, EntryKey, mes);
      if found.Some? then found.value.total else 0
  }

  /** `receitasMensais?.map(receita => ({ mes, receitas, despesas }))`. */
  function RevenueVsExpense(receitasMensais: Option<seq<Entry>>, despesasMensais: Option<seq<Entry>>): (r: Option<seq<Bar>>)
    ensures r.None? <==> receitasMensais.None?
    ensures r.Some? ==> |r.value| == |receitasMensais.value|
  {
    if receitasMensais.None? then None
    else
      var rs := receitasMensais.value;
      Some(seq(|rs|, i requires 0 <= i < |rs| => Bar(rs[i].key, rs[i].total, ExpenseFor(despesasMensais, rs[i].key))))
  }

  /** `receitasMensais?.map(receita => ({ mes, lucro: receita.valor - ... }))`. */
  function ProfitLine(receitasMensais: Option<seq<Entry>>, despesasMensais: Option<seq<Entry>>): (r: Option<seq<LinePoint>>)
    ensures r.None? <==> receitasMensais.None?
    ensures r.Some? ==> |r.value| == |receitasMensais.value|
  {
    if receitasMensais.None? then None
    else
      var rs := receitasMensais.value;
      Some(seq(|rs|, i requires 0 <= i < |rs| => LinePoint(rs[i].key, rs[i].total - ExpenseFor(despesasMensais, rs[i].key))))
  }

  /** With distinct keys, the total stored under an entry's key is that entry's. */
  lemma {:induction false} LookupUnique(es: seq<Entry>, i: nat)
    requires UniqueKeys(es) && i < |es|
    ensures Lookup(es, es[i].key) == es[i].total
  {
    if i > 0 {
      assert UniqueKeys(es[1..]) by {
        forall a, b | 0 <= a < b < |es[1..]| ensures es[1..][a].key != es[1..][b].key {
          assert es[1..][a] == es[a + 1] && es[1..][b] == es[b + 1];
        }
      }
      LookupUnique(es[1..], i - 1);
    }
  }

  lemma {:induction false} LookupAbsent(es: seq<Entry>, k: string)
    requires k !in Keys(es)
    ensures Lookup(es, k) == 0
  {
    if es != [] {
      assert Keys(es) == [es[0].key] + Keys(es[1..]);
      LookupAbsent(es[1..], k);
    }
  }

  /** A month's expense in the charts is the expense report's total for that month,
      and 0 for a month the expense report does not list. */
  lemma ExpenseForLookup(despesasMensais: seq<Entry>, mes: string)
    requires UniqueKeys(despesasMensais)
    ensures ExpenseFor(Some(despesasMensais), mes) == Lookup(despesasMensais, mes)
    ensures mes !in Keys(despesasMensais) ==> ExpenseFor(Some(despesasMensais), mes) == 0
  {
    var found := Tables.FindKey(despesasMensais, EntryKey, mes);
    if found.Some? {
      var i :| 0 <= i < |despesasMensais| && despesasMensais[i] == found.value && EntryKey(despesasMensais[i]) == mes;
      LookupUnique(despesasMensais, i);
    } else {
      assert forall i :: 0 <= i < |despesasMensais| ==> Keys(despesasMensais)[i] != mes;
      LookupAbsent(despesasMensais, mes);
    }
  }

  /** Each bar and each point of the two charts belongs to one revenue month, in the
      revenue report's order, and a point's profit is its bar's revenue minus its bar's
      expense. */
  lemma ChartsPair(receitasMensais: seq<Entry>, despesasMensais: seq<Entry>)
    requires UniqueKeys(despesasMensais)
    ensures var bars := RevenueVsExpense(Some(receitasMensais), Some(despesasMensais)).value;
      var line := ProfitLine(Some(receitasMensais), Some(despesasMensais)).value;
      && |bars| == |receitasMensais| && |line| == |receitasMensais|
      && forall i :: 0 <= i < |bars| ==>
           && bars[i] == Bar(receitasMensais[i].key, receitasMensais[i].total, Lookup(despesasMensais, receitasMensais[i].key))
           && line[i] == LinePoint(bars[i].mes, bars[i].receitas - bars[i].despesas)
  {
    forall i | 0 <= i < |receitasMensais| {
      ExpenseForLookup(despesasMensais, receitasMensais[i].key);
    }
  }

  /** For the reports as the page computes them, the charts show exactly the months
      with revenue, each with that month's revenue, that month's expenses (0 when it has
      none) and their difference. */
  lemma ChartsAgree(receitas: seq<RevenueRow>, despesas: seq<ExpenseRow>)
    ensures var rm, dm := MonthlyRevenue(receitas), MonthlyExpenses(despesas);
      var bars := RevenueVsExpense(Some(rm), Some(dm)).value;
      && |bars| == |rm|
      && (forall m :: m in Keys(rm) <==> m in RevenueMonths(receitas))
      && forall i :: 0 <= i < |bars| ==>
           && bars[i].mes == rm[i].key
           && bars[i].receitas == SumFor(RevenueItems(receitas), rm[i].key)
           && bars[i].despesas == SumFor(ExpenseMonthItems(despesas), rm[i].key)
  {
    var rm, dm := MonthlyRevenue(receitas), MonthlyExpenses(despesas);
    MonthlyRevenueSpec(receitas);
    MonthlyExpensesSpec(despesas);
    ChartsPair(rm, dm);
    forall i | 0 <= i < |rm| ensures rm[i].total == SumFor(RevenueItems(receitas), rm[i].key) {
      LookupUnique(rm, i);
    }
  }

  // ---- Labels ----

  /** `getTipoLabel`: the Portuguese name of a known expense type, the key itself otherwise. */
  function TipoLabel(tipo: string): string {
    match tipo
    case "agua" => "Água"
    case "luz" => "Luz"
    case "gas" => "Gás"
    case "internet" => "Internet"
    case "manutencao" => "Manutenção"
    case "limpeza" => "Limpeza"
    case "outros" => "Outros"
    case _ => tipo
  }

  /** `getStatusLabel`: the Portuguese name of a known room status, the key itself otherwise. */
  function RoomStatusLabel(status: string): string {
    match status
    case "disponivel" => "Disponível"
    case "ocupado" => "Ocupado"
    case "manutencao" => "Manutenção"
    case _ => status
  }

  const KnownTipos: seq<string> := ["agua", "luz", "gas", "internet", "manutencao", "limpeza", "outros"]
  const KnownRoomStatuses: seq<string> := ["disponivel", "ocupado", "manutencao"]

  /** Known expense types get seven different labels, each different from its key, and
      any other key is shown as it is. */
  lemma TipoLabelSpec(a: string, b: string)
    ensures a in KnownTipos && b in KnownTipos && a != b ==> TipoLabel(a) != TipoLabel(b)
    ensures a in KnownTipos ==> TipoLabel(a) != a
    ensures a !in KnownTipos ==> TipoLabel(a) == a
  {
  }

  /** Known room statuses get three different labels, each different from its key, and
      any other key is shown as it is. */
  lemma RoomStatusLabelSpec(a: string, b: string)
    ensures a in KnownRoomStatuses && b in KnownRoomStatuses && a != b ==> RoomStatusLabel(a) != RoomStatusLabel(b)
    ensures a in KnownRoomStatuses ==> RoomStatusLabel(a) != a
    ensures a !in KnownRoomStatuses ==> RoomStatusLabel(a) == a
  {
  }
}
