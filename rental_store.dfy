/** The in-memory rental store of src/contexts/RentalContext.tsx: five record lists that
    the add, update and delete operations replace, the room side effects of adding and
    removing a tenant, and the dashboard figures `loadDashboardData` derives from the lists. */
module RentalStore {
  import opened Wrappers
  import opened Calendar
  import opened RentalTypes
  import Tables
  import Strings

  // ---- What loadDashboardData computes ----

  /** Paid charges due in month `ym`, summed (`totalRecebidoMes`). */
  function PaidDueIn(cobrancas: seq<Cobranca>, ym: YearMonth): Money {
    Tables.SumWhere(cobrancas, (c: Cobranca) => c.status == Pago && MonthOf(c.dataVencimento) == ym, (c: Cobranca) => c.valor)
  }

  /** Expenses dated in month `ym`, summed (`totalDespesasMes` and each `despesaMensal` point). */
  function SpentIn(despesas: seq<Despesa>, ym: YearMonth): Money {
    Tables.SumWhere(despesas, (d: Despesa) => MonthOf(d.data) == ym, (d: Despesa) => d.valor)
  }

  /** Paid charges whose reference month is `mes`, summed (each `receitaMensal` point). */
  function PaidForReference(cobrancas: seq<Cobranca>, mes: string): Money {
    Tables.SumWhere(cobrancas, (c: Cobranca) => c.mesReferencia == mes && c.status == Pago, (c: Cobranca) => c.valor)
  }

  function RoomsWith(quartos: seq<Quarto>, s: RoomStatus): nat {
    Tables.Count(quartos, (q: Quarto) => q.status == s)
  }

  function ChargesWith(cobrancas: seq<Cobranca>, s: ChargeStatus): nat {
    Tables.Count(cobrancas, (c: Cobranca) => c.status == s)
  }

  /** The month of the `k`-th point (0..5) of the six-month series: five months before the
      current one for `k == 0`, the current month for `k == 5`. */
  function SeriesMonth(hoje: Date, k: int): YearMonth {
    MonthsBefore(MonthOf(hoje), 5 - k)
  }

  function RevenueSeries(cobrancas: seq<Cobranca>, hoje: Date): seq<MonthValue> {
    seq(6, k => var mes := Label(SeriesMonth(hoje, k)); MonthValue(mes, PaidForReference(cobrancas, mes)))
  }

  function ExpenseSeries(despesas: seq<Despesa>, hoje: Date): seq<MonthValue> {
    seq(6, k => var ym := SeriesMonth(hoje, k); MonthValue(Label(ym), SpentIn(despesas, ym)))
  }

  /** The dashboard figures for the lists as they stand and the date `hoje`. */
  function DashboardOf(quartos: seq<Quarto>, cobrancas: seq<Cobranca>, despesas: seq<Despesa>, hoje: Date): DashboardData {
    var recebido := PaidDueIn(cobrancas, MonthOf(hoje));
    var gasto := SpentIn(despesas, MonthOf(hoje));
    DashboardData(recebido, gasto, recebido - gasto,
                  RoomsWith(quartos, Ocupado), RoomsWith(quartos, Disponivel), ChargesWith(cobrancas, Atrasado),
                  RevenueSeries(cobrancas, hoje), ExpenseSeries(despesas, hoje))
  }

  /** The body of `loadDashboardData`: the month's totals and counts, then the series of
      the last six months. */
  method BuildDashboard(quartos: seq<Quarto>, cobrancas: seq<Cobranca>, despesas: seq<Despesa>, hoje: Date)
    returns (d: DashboardData)
    ensures d == DashboardOf(quartos, cobrancas, despesas, hoje)
  {
    var mesAtual := MonthOf(hoje);
    var totalRecebidoMes := PaidDueIn(cobrancas, mesAtual);
    var totalDespesasMes := SpentIn(despesas, mesAtual);
    var lucroLiquido := totalRecebidoMes - totalDespesasMes;
    var quartosAlugados := RoomsWith(quartos, Ocupado);
    var quartosDisponiveis := RoomsWith(quartos, Disponivel);
    var inquilinosInadimplentes := ChargesWith(cobrancas, Atrasado);
    var receitaMensal, despesaMensal := MonthlySeries(cobrancas, despesas, hoje);
    d := DashboardData(totalRecebidoMes, totalDespesasMes, lucroLiquido, quartosAlugados,
                       quartosDisponiveis, inquilinosInadimplentes, receitaMensal, despesaMensal);
  }

  /** The loop of `loadDashboardData` (`for (let i = 5; i >= 0; i--)`): it walks the last
      six months, oldest first, pushing one revenue point and one expense point per month. */
  method MonthlySeries(cobrancas: seq<Cobranca>, despesas: seq<Despesa>, hoje: Date)
    returns (receitaMensal: seq<MonthValue>, despesaMensal: seq<MonthValue>)
    ensures receitaMensal == RevenueSeries(cobrancas, hoje)
    ensures despesaMensal == ExpenseSeries(despesas, hoje)
  {
    var mesAtual := MonthOf(hoje);
    ghost var rs, es := RevenueSeries(cobrancas, hoje), ExpenseSeries(despesas, hoje);
    receitaMensal, despesaMensal := [], [];
    var i := 5;
    while i >= 0
      invariant -1 <= i <= 5
      invariant receitaMensal == rs[..5 - i]
      invariant despesaMensal == es[..5 - i]
    {
      var data := MonthsBefore(mesAtual, i);
      var mesAno := Label(data);
      var receitaMes := PaidForReference(cobrancas, mesAno);
      var despesaMes := SpentIn(despesas, data);
      SeriesPoint(cobrancas, despesas, hoje, i);
      Tables.PrefixSnoc(rs, 5 - i);
      Tables.PrefixSnoc(es, 5 - i);
      receitaMensal := receitaMensal + [MonthValue(mesAno, receitaMes)];
      despesaMensal := despesaMensal + [MonthValue(mesAno, despesaMes)];
      i := i - 1;
    }
    assert rs[..6] == rs && es[..6] == es;
  }

  /** The point the loop pushes for `i` months back is the `5 - i`-th point of each series. */
  lemma SeriesPoint(cobrancas: seq<Cobranca>, despesas: seq<Despesa>, hoje: Date, i: int)
    requires 0 <= i <= 5
    ensures var ym := MonthsBefore(MonthOf(hoje), i);
      && RevenueSeries(cobrancas, hoje)[5 - i] == MonthValue(Label(ym), PaidForReference(cobrancas, Label(ym)))
      && ExpenseSeries(despesas, hoje)[5 - i] == MonthValue(Label(ym), SpentIn(despesas, ym))
  {
    assert SeriesMonth(hoje, 5 - i) == MonthsBefore(MonthOf(hoje), i);
  }

  /** The figures the dashboard shows hang together: profit is revenue minus expenses,
      rented plus available rooms never exceed the rooms there are, and the delinquency
      count is the number of overdue charges. */
  lemma DashboardTotals(quartos: seq<Quarto>, cobrancas: seq<Cobranca>, despesas: seq<Despesa>, hoje: Date)
    ensures var d := DashboardOf(quartos, cobrancas, despesas, hoje);
      && d.lucroLiquido == d.totalRecebidoMes - d.totalDespesasMes
      && d.quartosAlugados + d.quartosDisponiveis <= |quartos|
      && d.inquilinosInadimplentes == |Tables.Filter(cobrancas, (c: Cobranca) => c.status == Atrasado)|
  {
    Tables.CountDisjoint(quartos, (q: Quarto) => q.status == Ocupado, (q: Quarto) => q.status == Disponivel);
    Tables.CountIsFilterLength(cobrancas, (c: Cobranca) => c.status == Atrasado);
  }

  /** Both series have six points, labelled with the same months; the `k`-th is `5 - k`
      months before the current month, rolling into the previous year, and the last is
      the current month. */
  lemma SeriesMonths(cobrancas: seq<Cobranca>, despesas: seq<Despesa>, hoje: Date)
    requires ValidMonth(MonthOf(hoje))
    ensures var r, e := RevenueSeries(cobrancas, hoje), ExpenseSeries(despesas, hoje);
      && |r| == 6 && |e| == 6
      && (forall k :: 0 <= k < 6 ==> r[k].mes == e[k].mes == Label(SeriesMonth(hoje, k)))
      && (forall k :: 0 <= k < 6 ==> MonthIndex(SeriesMonth(hoje, k)) == MonthIndex(MonthOf(hoje)) - 5 + k)
      && r[5].mes == Label(MonthOf(hoje))
  {
    assert SeriesMonth(hoje, 5) == MonthOf(hoje) by {
      MonthIndexInjective(SeriesMonth(hoje, 5), MonthOf(hoje));
    }
  }

  lemma FourDigitBetween(a: YearMonth, b: YearMonth, c: YearMonth)
    requires ValidMonth(a) && ValidMonth(b) && ValidMonth(c)
    requires FourDigitYear(a) && FourDigitYear(c)
    requires MonthIndex(a) <= MonthIndex(b) <= MonthIndex(c)
    ensures FourDigitYear(b)
  {
  }

  /** With four-digit years (the first of the six months in year 1000 or later) the labels
      of the series increase strictly as text, so the points are in chronological order
      and no two share a label. */
  lemma SeriesChronological(cobrancas: seq<Cobranca>, hoje: Date)
    requires ValidMonth(MonthOf(hoje)) && FourDigitYear(MonthOf(hoje))
    requires FourDigitYear(SeriesMonth(hoje, 0))
    ensures var r := RevenueSeries(cobrancas, hoje);
      forall k :: 0 <= k < 5 ==> Strings.Less(r[k].mes, r[k + 1].mes)
  {
    var r := RevenueSeries(cobrancas, hoje);
    forall k | 0 <= k < 5
      ensures Strings.Less(r[k].mes, r[k + 1].mes)
    {
      var a, b := SeriesMonth(hoje, k), SeriesMonth(hoje, k + 1);
      assert SeriesMonth(hoje, 5) == MonthOf(hoje) by {
        MonthIndexInjective(SeriesMonth(hoje, 5), MonthOf(hoje));
      }
      FourDigitBetween(SeriesMonth(hoje, 0), a, MonthOf(hoje));
      FourDigitBetween(SeriesMonth(hoje, 0), b, MonthOf(hoje));
      LabelOrder(a, b);
    }
  }

  /** Only paid charges count towards revenue: a charge that is not paid, wherever it
      sits in the list, changes neither the month's revenue nor the revenue series. */
  lemma UnpaidChargeIgnored(a: seq<Cobranca>, c: Cobranca, b: seq<Cobranca>, hoje: Date)
    requires c.status != Pago
    ensures PaidDueIn(a + [c] + b, MonthOf(hoje)) == PaidDueIn(a + b, MonthOf(hoje))
    ensures RevenueSeries(a + [c] + b, hoje) == RevenueSeries(a + b, hoje)
  {
    Tables.SumWhereIgnores(a, c, b, (c: Cobranca) => c.status == Pago && MonthOf(c.dataVencimento) == MonthOf(hoje), (c: Cobranca) => c.valor);
    forall mes: string
      ensures PaidForReference(a + [c] + b, mes) == PaidForReference(a + b, mes)
    {
      Tables.SumWhereIgnores(a, c, b, (c: Cobranca) => c.mesReferencia == mes && c.status == Pago, (c: Cobranca) => c.valor);
    }
  }

  // ---- The store ----

  class Store {
    var imoveis: seq<Imovel>
    var quartos: seq<Quarto>
    var inquilinos: seq<Inquilino>
    var cobrancas: seq<Cobranca>
    var despesas: seq<Despesa>
    var dashboardData: Option<DashboardData>
    var loading: bool

    /** The provider's initial state: the given lists, no dashboard yet, not loading. */
    constructor (imoveis0: seq<Imovel>, quartos0: seq<Quarto>, inquilinos0: seq<Inquilino>,
                 cobrancas0: seq<Cobranca>, despesas0: seq<Despesa>)
      ensures imoveis == imoveis0 && quartos == quartos0 && inquilinos == inquilinos0
      ensures cobrancas == cobrancas0 && despesas == despesas0
      ensures dashboardData == None && !loading
    {
      imoveis, quartos, inquilinos := imoveis0, quartos0, inquilinos0;
      cobrancas, despesas := cobrancas0, despesas0;
      dashboardData, loading := None, false;
    }

    // -- Properties --

    method AddImovel(data: ImovelInput, id: Id, now: Stamp)
      modifies this`imoveis
      ensures imoveis == old(imoveis) + [NewImovel(data, id, now)]
    {
      imoveis := imoveis + [NewImovel(data, id, now)];
    }

    method UpdateImovel(id: Id, patch: ImovelPatch, now: Stamp)
      modifies this`imoveis
      ensures imoveis == Tables.UpdateKey(old(imoveis), ImovelId, id, MergeImovel, patch, now)
    {
      imoveis := Tables.UpdateKey(imoveis, ImovelId, id, MergeImovel, patch, now);
    }

    /** Removes the property and, in cascade, every room that belongs to it. */
    method DeleteImovel(id: Id)
      modifies this`imoveis, this`quartos
      ensures imoveis == Tables.RemoveKey(old(imoveis), ImovelId, id)
      ensures quartos == Tables.RemoveKey(old(quartos), QuartoImovelId, id)
      ensures forall q :: q in quartos <==> q in old(quartos) && q.imovelId != id
    {
      imoveis := Tables.RemoveKey(imoveis, ImovelId, id);
      quartos := Tables.RemoveKey(quartos, QuartoImovelId, id);
    }

    // -- Rooms --

    method AddQuarto(data: QuartoInput, id: Id, now: Stamp)
      modifies this`quartos
      ensures quartos == old(quartos) + [NewQuarto(data, id, now)]
    {
      quartos := quartos + [NewQuarto(data, id, now)];
    }

    method UpdateQuarto(id: Id, patch: QuartoPatch, now: Stamp)
      modifies this`quartos
      ensures quartos == Tables.UpdateKey(old(quartos), QuartoId, id, MergeQuarto, patch, now)
    {
      quartos := Tables.UpdateKey(quartos, QuartoId, id, MergeQuarto, patch, now);
    }

    method DeleteQuarto(id: Id)
      modifies this`quartos
      ensures quartos == Tables.RemoveKey(old(quartos), QuartoId, id)
    {
      quartos := Tables.RemoveKey(quartos, QuartoId, id);
    }

    // -- Tenants --

    /** Appends the tenant and marks its room occupied by it. */
    method AddInquilino(data: InquilinoInput, id: Id, now: Stamp)
      modifies this`inquilinos, this`quartos
      ensures inquilinos == old(inquilinos) + [NewInquilino(data, id, now)]
      ensures quartos == Tables.UpdateKey(old(quartos), QuartoId, data.quartoId, MergeQuarto, OccupyPatch(id), now)
      ensures |quartos| == |old(quartos)|
      ensures forall i :: 0 <= i < |quartos| ==>
        quartos[i] == if old(quartos)[i].id == data.quartoId
                      then old(quartos)[i].(status := Ocupado, inquilinoAtual := Some(id), updatedAt := now)
                      else old(quartos)[i]
    {
      var novoInquilino := NewInquilino(data, id, now);
      inquilinos := inquilinos + [novoInquilino];
      UpdateQuarto(data.quartoId, OccupyPatch(novoInquilino.id), now);
      forall i | 0 <= i < |quartos| && old(quartos)[i].id == data.quartoId
        ensures quartos[i] == old(quartos)[i].(status := Ocupado, inquilinoAtual := Some(id), updatedAt := now)
      {
        OccupyRoom(old(quartos)[i], id, now);
      }
    }

    method UpdateInquilino(id: Id, patch: InquilinoPatch, now: Stamp)
      modifies this`inquilinos
      ensures inquilinos == Tables.UpdateKey(old(inquilinos), InquilinoId, id, MergeInquilino, patch, now)
    {
      inquilinos := Tables.UpdateKey(inquilinos, InquilinoId, id, MergeInquilino, patch, now);
    }

    /** Removes the tenant; when it existed, its room becomes available again. */
    method DeleteInquilino(id: Id, now: Stamp)
      modifies this`inquilinos, this`quartos
      ensures inquilinos == Tables.RemoveKey(old(inquilinos), InquilinoId, id)
      ensures Tables.FindKey(old(inquilinos), InquilinoId, id).None? ==> quartos == old(quartos)
      ensures Tables.FindKey(old(inquilinos), InquilinoId, id).Some? ==>
        var room := Tables.FindKey(old(inquilinos), InquilinoId, id).value.quartoId;
        && quartos == Tables.UpdateKey(old(quartos), QuartoId, room, MergeQuarto, VacatePatch(), now)
        && forall i :: 0 <= i < |quartos| ==>
             quartos[i] == if old(quartos)[i].id == room
                           then old(quartos)[i].(status := Disponivel, inquilinoAtual := None, updatedAt := now)
                           else old(quartos)[i]
    {
      var inquilino := Tables.FindKey(inquilinos, InquilinoId, id);
      if inquilino.Some? {
        var room := inquilino.value.quartoId;
        UpdateQuarto(room, VacatePatch(), now);
        forall i | 0 <= i < |quartos| && old(quartos)[i].id == room
          ensures quartos[i] == old(quartos)[i].(status := Disponivel, inquilinoAtual := None, updatedAt := now)
        {
          VacateRoom(old(quartos)[i], now);
        }
      }
      inquilinos := Tables.RemoveKey(inquilinos, InquilinoId, id);
    }

    // -- Charges --

    method AddCobranca(data: CobrancaInput, id: Id, now: Stamp)
      modifies this`cobrancas
      ensures cobrancas == old(cobrancas) + [NewCobranca(data, id, now)]
    {
      cobrancas := cobrancas + [NewCobranca(data, id, now)];
    }

    method UpdateCobranca(id: Id, patch: CobrancaPatch, now: Stamp)
      modifies this`cobrancas
      ensures cobrancas == Tables.UpdateKey(old(cobrancas), CobrancaId, id, MergeCobranca, patch, now)
    {
      cobrancas := Tables.UpdateKey(cobrancas, CobrancaId, id, MergeCobranca, patch, now);
    }

    // -- Expenses --

    method AddDespesa(data: DespesaInput, id: Id, now: Stamp)
      modifies this`despesas
      ensures despesas == old(despesas) + [NewDespesa(data, id, now)]
    {
      despesas := despesas + [NewDespesa(data, id, now)];
    }

    method UpdateDespesa(id: Id, patch: DespesaPatch, now: Stamp)
      modifies this`despesas
      ensures despesas == Tables.UpdateKey(old(despesas), DespesaId, id, MergeDespesa, patch, now)
    {
      despesas := Tables.UpdateKey(despesas, DespesaId, id, MergeDespesa, patch, now);
    }

    method DeleteDespesa(id: Id)
      modifies this`despesas
      ensures despesas == Tables.RemoveKey(old(despesas), DespesaId, id)
    {
      despesas := Tables.RemoveKey(despesas, DespesaId, id);
    }

    // -- Dashboard --

    /** Recomputes the dashboard from the current lists and the date `hoje` and clears the
        loading flag. */
    method LoadDashboardData(hoje: Date)
      modifies this`dashboardData, this`loading
      ensures dashboardData == Some(DashboardOf(quartos, cobrancas, despesas, hoje))
      ensures !loading
    {
      loading := true;
      var d := BuildDashboard(quartos, cobrancas, despesas, hoje);
      dashboardData := Some(d);
      loading := false;
    }
  }
}
