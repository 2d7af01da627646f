/** What src/pages/Dashboard.tsx derives from the store: the charges due today, the
    occupancy and margin percentages, the two six-month charts and the list of the next
    three pending charges. */
module DashboardPage {
  import opened Wrappers
  import opened Calendar
  import opened RentalTypes
  import Tables
  import RentalStore

  // ---- Charges due today ----

  /** `cobrancasVencendoHoje`: pending charges whose due date is today's date. */
  function DueToday(cobrancas: seq<Cobranca>, hoje: Date): (r: seq<Cobranca>)
    ensures forall c :: c in r <==> c in cobrancas && c.status == Pendente && c.dataVencimento == hoje
    ensures Tables.IsSubsequence(r, cobrancas)
  {
    var keep := (c: Cobranca) => c.dataVencimento == hoje && c.status == Pendente;
    Tables.FilterIsSubsequence(cobrancas, keep);
    Tables.Filter(cobrancas, keep)
  }

  // ---- Percentages ----

  /** `ocupacaoPercentual`: rented rooms over all rooms, in percent; 0 with no rooms. */
  function Occupancy(quartosAlugados: nat, totalQuartos: nat): (r: real)
    ensures totalQuartos == 0 ==> r == 0.0
    ensures totalQuartos > 0 ==> r * totalQuartos as real == quartosAlugados as real * 100.0
    ensures quartosAlugados <= totalQuartos ==> 0.0 <= r <= 100.0
  {
    if totalQuartos > 0 then (quartosAlugados as real / totalQuartos as real) * 100.0 else 0.0
  }

  /** The occupancy the page shows for freshly loaded data is a percentage between 0 and
      100: the rented rooms are some of the rooms. */
  lemma OccupancyInRange(quartos: seq<Quarto>, cobrancas: seq<Cobranca>, despesas: seq<Despesa>, hoje: Date)
    ensures var d := RentalStore.DashboardOf(quartos, cobrancas, despesas, hoje);
      0.0 <= Occupancy(d.quartosAlugados, |quartos|) <= 100.0
  {
    RentalStore.DashboardTotals(quartos, cobrancas, despesas, hoje);
  }

  /** The margin: profit over the month's revenue, in percent; 0 unless revenue is positive. */
  function Margin(lucroLiquido: Money, totalRecebidoMes: Money): (r: real)
    ensures totalRecebidoMes <= 0 ==> r == 0.0
    ensures totalRecebidoMes > 0 ==> r * totalRecebidoMes as real == lucroLiquido as real * 100.0
  {
    if totalRecebidoMes > 0 then (lucroLiquido as real / totalRecebidoMes as real) * 100.0 else 0.0
  }

  /** With profit = revenue - expenses and no negative expenses, the margin never exceeds
      100%, and it is negative exactly when expenses exceed a positive revenue. */
  lemma MarginBounds(recebido: Money, despesas: Money)
    requires despesas >= 0
    ensures Margin(recebido - despesas, recebido) <= 100.0
    ensures Margin(recebido - despesas, recebido) < 0.0 <==> recebido > 0 && despesas > recebido
  {
    if recebido > 0 {
      var r := recebido as real;
      var m := Margin(recebido - despesas, recebido);
      assert (m - 100.0) * r == -(despesas as real) * 100.0;
      assert m * r == (recebido - despesas) as real * 100.0;
      SignOfProduct(m - 100.0, r);
      SignOfProduct(m, r);
    }
  }

  /** Dividing by a positive number keeps the sign. */
  lemma SignOfProduct(x: real, r: real)
    requires r > 0.0
    ensures x * r <= 0.0 ==> x <= 0.0
    ensures x * r < 0.0 <==> x < 0.0
  {
    if x > 0.0 {
      assert x * r > 0.0;
    } else if x < 0.0 {
      assert x * r < 0.0;
    }
  }

  // ---- The six-month charts ----

  /** A point of the revenue-versus-expense chart. */
  datatype TrendPoint = TrendPoint(mes: string, receita: Money, despesa: Money)

  /** A point of the monthly profit chart. */
  datatype ProfitPoint = ProfitPoint(mes: string, lucro: Money)

  /** `despesaMensal[index]?.valor || 0`. */
  function ExpenseAt(despesaMensal: seq<MonthValue>, index: nat): Money {
    if index < |despesaMensal| then despesaMensal[index].valor else 0
  }

  /** `receitaMensal.map((receita, index) => ({ mes, receita, despesa: ... }))`. */
  function TrendPoints(receitaMensal: seq<MonthValue>, despesaMensal: seq<MonthValue>): (r: seq<TrendPoint>)
    ensures |r| == |receitaMensal|
  {
    seq(|receitaMensal|, i requires 0 <= i < |receitaMensal| =>
      TrendPoint(receitaMensal[i].mes, receitaMensal[i].valor, ExpenseAt(despesaMensal, i)))
  }

  /** `receitaMensal.map((receita, index) => ({ mes, lucro: receita.valor - ... }))`. */
  function ProfitPoints(receitaMensal: seq<MonthValue>, despesaMensal: seq<MonthValue>): (r: seq<ProfitPoint>)
    ensures |r| == |receitaMensal|
  {
    seq(|receitaMensal|, i requires 0 <= i < |receitaMensal| =>
      ProfitPoint(receitaMensal[i].mes, receitaMensal[i].valor - ExpenseAt(despesaMensal, i)))
  }

  /** The two charts pair the series index by index: each profit point is its trend
      point's revenue minus its expense, a missing expense counting as 0. */
  lemma ChartsAgree(receitaMensal: seq<MonthValue>, despesaMensal: seq<MonthValue>)
    ensures var t, p := TrendPoints(receitaMensal, despesaMensal), ProfitPoints(receitaMensal, despesaMensal);
      forall i :: 0 <= i < |t| ==> p[i].mes == t[i].mes && p[i].lucro == t[i].receita - t[i].despesa
    ensures var t := TrendPoints(receitaMensal, despesaMensal);
      forall i :: |despesaMensal| <= i < |t| ==> t[i].despesa == 0
  {
  }

  /** On freshly loaded dashboard data the index-wise pairing is a pairing by month: the
      `k`-th point carries the revenue and the expenses of the same calendar month. */
  lemma ChartsPairMonths(quartos: seq<Quarto>, cobrancas: seq<Cobranca>, despesas: seq<Despesa>, hoje: Date)
    requires ValidMonth(MonthOf(hoje))
    ensures var d := RentalStore.DashboardOf(quartos, cobrancas, despesas, hoje);
      var t := TrendPoints(d.receitaMensal, d.despesaMensal);
      && |t| == 6
      && forall k :: 0 <= k < 6 ==>
           var ym := RentalStore.SeriesMonth(hoje, k);
           t[k] == TrendPoint(Label(ym), RentalStore.PaidForReference(cobrancas, Label(ym)), RentalStore.SpentIn(despesas, ym))
  {
    RentalStore.SeriesMonths(cobrancas, despesas, hoje);
  }

  // ---- Next three pending charges ----

  function Pending(cobrancas: seq<Cobranca>): seq<Cobranca> {
    Tables.Filter(cobrancas, (c: Cobranca) => c.status == Pendente)
  }

  ghost predicate SortedByDue(s: seq<Cobranca>) {
    forall i, j :: 0 <= i < j < |s| ==> DateLeq(s[i].dataVencimento, s[j].dataVencimento)
  }

  /** Puts `c` before the first charge due no earlier than it, so that among charges due
      the same day the earlier one in the input stays first (the sort is stable). */
  function InsertByDue(c: Cobranca, s: seq<Cobranca>): (r: seq<Cobranca>)
    ensures |r| == |s| + 1
    ensures multiset(r) == multiset(s) + multiset{c}
  {
    if s == [] || DateLeq(c.dataVencimento, s[0].dataVencimento) then
      [c] + s
    else
      assert s == [s[0]] + s[1..];
      [s[0]] + InsertByDue(c, s[1..])
  }

  /** No charge of `s` is due before `d`. */
  ghost predicate DueFrom(d: Date, s: seq<Cobranca>) {
    forall i :: 0 <= i < |s| ==> DateLeq(d, s[i].dataVencimento)
  }

  lemma {:induction false} InsertByDueFrom(d: Date, c: Cobranca, s: seq<Cobranca>)
    requires DueFrom(d, s) && DateLeq(d, c.dataVencimento)
    ensures DueFrom(d, InsertByDue(c, s))
  {
    if s != [] && !DateLeq(c.dataVencimento, s[0].dataVencimento) {
      InsertByDueFrom(d, c, s[1..]);
    }
  }

  lemma {:induction false} InsertByDueSorted(c: Cobranca, s: seq<Cobranca>)
    requires SortedByDue(s)
    ensures SortedByDue(InsertByDue(c, s))
  {
    if s == [] || DateLeq(c.dataVencimento, s[0].dataVencimento) {
      var r := [c] + s;
      forall i, j | 0 <= i < j < |r| ensures DateLeq(r[i].dataVencimento, r[j].dataVencimento) {
        if i == 0 {
          DateLeqTransitive(c.dataVencimento, s[0].dataVencimento, s[j - 1].dataVencimento);
        }
      }
    } else {
      var rest := InsertByDue(c, s[1..]);
      InsertByDueSorted(c, s[1..]);
      DateLeqTotal(c.dataVencimento, s[0].dataVencimento);
      InsertByDueFrom(s[0].dataVencimento, c, s[1..]);
      var r := [s[0]] + rest;
      assert r == InsertByDue(c, s);
      forall i, j | 0 <= i < j < |r| ensures DateLeq(r[i].dataVencimento, r[j].dataVencimento) {
        if i > 0 {
          assert r[i] == rest[i - 1] && r[j] == rest[j - 1];
        } else {
          assert r[j] == rest[j - 1];
        }
      }
    }
  }

  /** `sort((a, b) => dueTime(a) - dueTime(b))`: ascending by due date, stable. */
  function SortByDue(s: seq<Cobranca>): (r: seq<Cobranca>)
    ensures |r| == |s|
    ensures multiset(r) == multiset(s)
  {
    if s == [] then []
    else
      assert s == [s[0]] + s[1..];
      InsertByDue(s[0], SortByDue(s[1..]))
  }

  lemma {:induction false} SortByDueSorted(s: seq<Cobranca>)
    ensures SortedByDue(SortByDue(s))
  {
    if s != [] {
      SortByDueSorted(s[1..]);
      InsertByDueSorted(s[0], SortByDue(s[1..]));
    }
  }

  /** Of a list sorted by due date, the first `n` entries are due no later than any
      entry left out. */
  lemma TakeEarliest(s: seq<Cobranca>, n: nat)
    requires SortedByDue(s) && n <= |s|
    ensures forall c :: c in multiset(s) - multiset(s[..n]) ==>
              forall i :: 0 <= i < n ==> DateLeq(s[..n][i].dataVencimento, c.dataVencimento)
  {
    Tables.PrefixMultiset(s, n);
    forall c | c in multiset(s) - multiset(s[..n])
      ensures forall i :: 0 <= i < n ==> DateLeq(s[..n][i].dataVencimento, c.dataVencimento)
    {
      assert c in multiset(s[n..]);
      var j :| n <= j < |s| && s[j] == c;
    }
  }

  /** A prefix of a sorted list is sorted. */
  lemma SortedPrefix(s: seq<Cobranca>, n: nat)
    requires SortedByDue(s) && n <= |s|
    ensures SortedByDue(s[..n])
  {
  }

  /** The first `n` charges of the sorted list are sorted, are charges of the input, and
      are due no later than any charge left out. */
  lemma FirstOfSorted(p: seq<Cobranca>, n: nat)
    requires n <= |p|
    ensures var s := SortByDue(p);
      && SortedByDue(s[..n])
      && multiset(s[..n]) <= multiset(p)
      && (forall c :: c in s[..n] ==> c in p)
      && forall c :: c in multiset(p) - multiset(s[..n]) ==>
           forall i :: 0 <= i < n ==> DateLeq(s[..n][i].dataVencimento, c.dataVencimento)
  {
    var s := SortByDue(p);
    SortByDueSorted(p);
    SortedPrefix(s, n);
    TakeEarliest(s, n);
    Tables.PrefixMultiset(s, n);
    forall c | c in s[..n] ensures c in p {
      assert c in multiset(s[..n]);
    }
  }

  /** The "Próximos Vencimentos" list: pending charges by due date, the first three. */
  function NextDue(cobrancas: seq<Cobranca>): (r: seq<Cobranca>)
    ensures |r| <= 3
    ensures forall c :: c in r ==> c in cobrancas && c.status == Pendente
    ensures SortedByDue(r)
    ensures |r| == if |Pending(cobrancas)| < 3 then |Pending(cobrancas)| else 3
    ensures multiset(r) <= multiset(Pending(cobrancas))
    ensures forall c :: c in multiset(Pending(cobrancas)) - multiset(r) ==>
              forall i :: 0 <= i < |r| ==> DateLeq(r[i].dataVencimento, c.dataVencimento)
  {
    var p := Pending(cobrancas);
    var s := SortByDue(p);
    var n := if |s| <= 3 then |s| else 3;
    FirstOfSorted(p, n);
    forall c | c in s[..n] ensures c in cobrancas && c.status == Pendente {
      assert c in p;
    }
    s[..n]
  }
}
