/** The records of the rental domain (properties, rooms, tenants, charges, expenses) as
    declared in src/types/rental.ts, the inputs the store's add operations take
    (`Omit<T, 'id' | 'createdAt' | 'updatedAt'>`), and the partial updates
    (`Partial<T>`) its update operations merge in with `{ ...record, ...data, updatedAt }`. */
module RentalTypes {
  import opened Wrappers
  import opened Calendar

  type Id = string

  /** The instant `new Date()` reads when a record is created or updated. */
  type Stamp = int

  /** Money in integer cents. */
  type Money = int

  /** `{ ...record, ...data }` for one field: a key present in `data` wins. For an optional
      field the patch holds `Some(None)` when the key is present but `undefined`. */
  function Override<T>(current: T, patch: Option<T>): (r: T)
    ensures patch.None? ==> r == current
    ensures patch.Some? ==> r == patch.value
  {
    patch.GetOr(current)
  }

  datatype Endereco = Endereco(rua: string, numero: string, bairro: string, cidade: string, cep: string, estado: string)

  // ---- Rooms ----

  datatype RoomStatus = Disponivel | Ocupado | Manutencao

  datatype Quarto = Quarto(
    id: Id, imovelId: Id, nome: string, valorMensal: Money, status: RoomStatus,
    observacoes: Option<string>, mobiliado: bool, suite: bool, inquilinoAtual: Option<Id>,
    createdAt: Stamp, updatedAt: Stamp)

  datatype QuartoInput = QuartoInput(
    imovelId: Id, nome: string, valorMensal: Money, status: RoomStatus,
    observacoes: Option<string>, mobiliado: bool, suite: bool, inquilinoAtual: Option<Id>)

  datatype QuartoPatch = QuartoPatch(
    id: Option<Id>, imovelId: Option<Id>, nome: Option<string>, valorMensal: Option<Money>,
    status: Option<RoomStatus>, observacoes: Option<Option<string>>, mobiliado: Option<bool>,
    suite: Option<bool>, inquilinoAtual: Option<Option<Id>>, createdAt: Option<Stamp>)

  function QuartoId(q: Quarto): Id { q.id }
  function QuartoImovelId(q: Quarto): Id { q.imovelId }

  function NewQuarto(d: QuartoInput, id: Id, now: Stamp): (q: Quarto)
    ensures q.id == id && q.createdAt == now && q.updatedAt == now
    ensures q.imovelId == d.imovelId && q.nome == d.nome && q.valorMensal == d.valorMensal
    ensures q.status == d.status && q.observacoes == d.observacoes && q.mobiliado == d.mobiliado
    ensures q.suite == d.suite && q.inquilinoAtual == d.inquilinoAtual
  {
    Quarto(id, d.imovelId, d.nome, d.valorMensal, d.status, d.observacoes, d.mobiliado, d.suite,
           d.inquilinoAtual, now, now)
  }

  function MergeQuarto(q: Quarto, p: QuartoPatch, now: Stamp): Quarto {
    Quarto(Override(q.id, p.id), Override(q.imovelId, p.imovelId), Override(q.nome, p.nome),
           Override(q.valorMensal, p.valorMensal), Override(q.status, p.status),
           Override(q.observacoes, p.observacoes), Override(q.mobiliado, p.mobiliado),
           Override(q.suite, p.suite), Override(q.inquilinoAtual, p.inquilinoAtual),
           Override(q.createdAt, p.createdAt), now)
  }

  /** `{ status: 'ocupado', inquilinoAtual: tenant }`, what `addInquilino` merges into the room. */
  function OccupyPatch(tenant: Id): QuartoPatch {
    QuartoPatch(None, None, None, None, Some(Ocupado), None, None, None, Some(Some(tenant)), None)
  }

  /** `{ status: 'disponivel', inquilinoAtual: undefined }`, what `deleteInquilino` merges in. */
  function VacatePatch(): QuartoPatch {
    QuartoPatch(None, None, None, None, Some(Disponivel), None, None, None, Some(None), None)
  }

  /** Occupying a room sets its status and current tenant and its update time; every
      other field keeps its value. */
  lemma OccupyRoom(q: Quarto, tenant: Id, now: Stamp)
    ensures var r := MergeQuarto(q, OccupyPatch(tenant), now);
      r == q.(status := Ocupado, inquilinoAtual := Some(tenant), updatedAt := now)
  {
  }

  /** Vacating a room makes it available, clears its current tenant and sets its update
      time; every other field keeps its value. */
  lemma VacateRoom(q: Quarto, now: Stamp)
    ensures var r := MergeQuarto(q, VacatePatch(), now);
      r == q.(status := Disponivel, inquilinoAtual := None, updatedAt := now)
  {
  }

  // ---- Properties ----

  datatype Imovel = Imovel(
    id: Id, nome: string, endereco: Endereco, foto: Option<string>, quartos: seq<Quarto>,
    createdAt: Stamp, updatedAt: Stamp)

  datatype ImovelInput = ImovelInput(nome: string, endereco: Endereco, foto: Option<string>)

  datatype ImovelPatch = ImovelPatch(
    id: Option<Id>, nome: Option<string>, endereco: Option<Endereco>, foto: Option<Option<string>>,
    quartos: Option<seq<Quarto>>, createdAt: Option<Stamp>)

  function ImovelId(i: Imovel): Id { i.id }

  function NewImovel(d: ImovelInput, id: Id, now: Stamp): (i: Imovel)
    ensures i.id == id && i.quartos == [] && i.createdAt == now && i.updatedAt == now
    ensures i.nome == d.nome && i.endereco == d.endereco && i.foto == d.foto
  {
    Imovel(id, d.nome, d.endereco, d.foto, [], now, now)
  }

  function MergeImovel(i: Imovel, p: ImovelPatch, now: Stamp): Imovel {
    Imovel(Override(i.id, p.id), Override(i.nome, p.nome), Override(i.endereco, p.endereco),
           Override(i.foto, p.foto), Override(i.quartos, p.quartos), Override(i.createdAt, p.createdAt), now)
  }

  // ---- Tenants ----

  datatype TenantStatus = Ativo | Inativo

  datatype Inquilino = Inquilino(
    id: Id, nome: string, cpf: string, rg: string, telefone: string, email: string, quartoId: Id,
    dataEntrada: Date, dataSaida: Option<Date>, status: TenantStatus, observacoes: Option<string>,
    createdAt: Stamp, updatedAt: Stamp)

  datatype InquilinoInput = InquilinoInput(
    nome: string, cpf: string, rg: string, telefone: string, email: string, quartoId: Id,
    dataEntrada: Date, dataSaida: Option<Date>, status: TenantStatus, observacoes: Option<string>)

  datatype InquilinoPatch = InquilinoPatch(
    id: Option<Id>, nome: Option<string>, cpf: Option<string>, rg: Option<string>,
    telefone: Option<string>, email: Option<string>, quartoId: Option<Id>, dataEntrada: Option<Date>,
    dataSaida: Option<Option<Date>>, status: Option<TenantStatus>, observacoes: Option<Option<string>>,
    createdAt: Option<Stamp>)

  function InquilinoId(t: Inquilino): Id { t.id }

  function NewInquilino(d: InquilinoInput, id: Id, now: Stamp): (t: Inquilino)
    ensures t.id == id && t.createdAt == now && t.updatedAt == now
    ensures t.nome == d.nome && t.cpf == d.cpf && t.rg == d.rg && t.telefone == d.telefone
    ensures t.email == d.email && t.quartoId == d.quartoId && t.dataEntrada == d.dataEntrada
    ensures t.dataSaida == d.dataSaida && t.status == d.status && t.observacoes == d.observacoes
  {
    Inquilino(id, d.nome, d.cpf, d.rg, d.telefone, d.email, d.quartoId, d.dataEntrada, d.dataSaida,
              d.status, d.observacoes, now, now)
  }

  function MergeInquilino(t: Inquilino, p: InquilinoPatch, now: Stamp): Inquilino {
    Inquilino(Override(t.id, p.id), Override(t.nome, p.nome), Override(t.cpf, p.cpf), Override(t.rg, p.rg),
              Override(t.telefone, p.telefone), Override(t.email, p.email), Override(t.quartoId, p.quartoId),
              Override(t.dataEntrada, p.dataEntrada), Override(t.dataSaida, p.dataSaida),
              Override(t.status, p.status), Override(t.observacoes, p.observacoes),
              Override(t.createdAt, p.createdAt), now)
  }

  // ---- Charges ----

  datatype ChargeStatus = Pendente | Pago | Atrasado | Cancelado

  datatype PaymentMethod = Pix | Transferencia | Dinheiro | Cartao

  datatype Cobranca = Cobranca(
    id: Id, inquilinoId: Id, quartoId: Id, valor: Money, valorOriginal: Money, desconto: Option<Money>,
    mesReferencia: string, dataVencimento: Date, dataPagamento: Option<Date>, status: ChargeStatus,
    metodoPagamento: Option<PaymentMethod>, pixId: Option<string>, comprovantePagamento: Option<string>,
    observacoes: Option<string>, createdAt: Stamp, updatedAt: Stamp)

  datatype CobrancaInput = CobrancaInput(
    inquilinoId: Id, quartoId: Id, valor: Money, valorOriginal: Money, desconto: Option<Money>,
    mesReferencia: string, dataVencimento: Date, dataPagamento: Option<Date>, status: ChargeStatus,
    metodoPagamento: Option<PaymentMethod>, pixId: Option<string>, comprovantePagamento: Option<string>,
    observacoes: Option<string>)

  datatype CobrancaPatch = CobrancaPatch(
    id: Option<Id>, inquilinoId: Option<Id>, quartoId: Option<Id>, valor: Option<Money>,
    valorOriginal: Option<Money>, desconto: Option<Option<Money>>, mesReferencia: Option<string>,
    dataVencimento: Option<Date>, dataPagamento: Option<Option<Date>>, status: Option<ChargeStatus>,
    metodoPagamento: Option<Option<PaymentMethod>>, pixId: Option<Option<string>>,
    comprovantePagamento: Option<Option<string>>, observacoes: Option<Option<string>>,
    createdAt: Option<Stamp>)

  function CobrancaId(c: Cobranca): Id { c.id }

  function NewCobranca(d: CobrancaInput, id: Id, now: Stamp): (c: Cobranca)
    ensures c.id == id && c.createdAt == now && c.updatedAt == now
    ensures c.inquilinoId == d.inquilinoId && c.quartoId == d.quartoId && c.valor == d.valor
    ensures c.valorOriginal == d.valorOriginal && c.desconto == d.desconto
    ensures c.mesReferencia == d.mesReferencia && c.dataVencimento == d.dataVencimento
    ensures c.dataPagamento == d.dataPagamento && c.status == d.status
    ensures c.metodoPagamento == d.metodoPagamento && c.pixId == d.pixId
    ensures c.comprovantePagamento == d.comprovantePagamento && c.observacoes == d.observacoes
  {
    Cobranca(id, d.inquilinoId, d.quartoId, d.valor, d.valorOriginal, d.desconto, d.mesReferencia,
             d.dataVencimento, d.dataPagamento, d.status, d.metodoPagamento, d.pixId,
             d.comprovantePagamento, d.observacoes, now, now)
  }

  function MergeCobranca(c: Cobranca, p: CobrancaPatch, now: Stamp): Cobranca {
    Cobranca(Override(c.id, p.id), Override(c.inquilinoId, p.inquilinoId), Override(c.quartoId, p.quartoId),
             Override(c.valor, p.valor), Override(c.valorOriginal, p.valorOriginal),
             Override(c.desconto, p.desconto), Override(c.mesReferencia, p.mesReferencia),
             Override(c.dataVencimento, p.dataVencimento), Override(c.dataPagamento, p.dataPagamento),
             Override(c.status, p.status), Override(c.metodoPagamento, p.metodoPagamento),
             Override(c.pixId, p.pixId), Override(c.comprovantePagamento, p.comprovantePagamento),
             Override(c.observacoes, p.observacoes), Override(c.createdAt, p.createdAt), now)
  }

  // ---- Expenses ----

  datatype ExpenseType = Agua | Luz | Gas | Internet | Manutencao | Limpeza | Outros

  datatype Despesa = Despesa(
    id: Id, imovelId: Id, tipo: ExpenseType, descricao: string, valor: Money, data: Date,
    comprovante: Option<string>, observacoes: Option<string>, createdAt: Stamp, updatedAt: Stamp)

  datatype DespesaInput = DespesaInput(
    imovelId: Id, tipo: ExpenseType, descricao: string, valor: Money, data: Date,
    comprovante: Option<string>, observacoes: Option<string>)

  datatype DespesaPatch = DespesaPatch(
    id: Option<Id>, imovelId: Option<Id>, tipo: Option<ExpenseType>, descricao: Option<string>,
    valor: Option<Money>, data: Option<Date>, comprovante: Option<Option<string>>,
    observacoes: Option<Option<string>>, createdAt: Option<Stamp>)

  function DespesaId(d: Despesa): Id { d.id }

  function NewDespesa(d: DespesaInput, id: Id, now: Stamp): (e: Despesa)
    ensures e.id == id && e.createdAt == now && e.updatedAt == now
    ensures e.imovelId == d.imovelId && e.tipo == d.tipo && e.descricao == d.descricao
    ensures e.valor == d.valor && e.data == d.data && e.comprovante == d.comprovante
    ensures e.observacoes == d.observacoes
  {
    Despesa(id, d.imovelId, d.tipo, d.descricao, d.valor, d.data, d.comprovante, d.observacoes, now, now)
  }

  function MergeDespesa(e: Despesa, p: DespesaPatch, now: Stamp): Despesa {
    Despesa(Override(e.id, p.id), Override(e.imovelId, p.imovelId), Override(e.tipo, p.tipo),
            Override(e.descricao, p.descricao), Override(e.valor, p.valor), Override(e.data, p.data),
            Override(e.comprovante, p.comprovante), Override(e.observacoes, p.observacoes),
            Override(e.createdAt, p.createdAt), now)
  }

  // ---- Dashboard ----

  /** One point of a monthly series: `{ mes: 'YYYY-MM', valor }`. */
  datatype MonthValue = MonthValue(mes: string, valor: Money)

  datatype DashboardData = DashboardData(
    totalRecebidoMes: Money, totalDespesasMes: Money, lucroLiquido: Money,
    quartosAlugados: nat, quartosDisponiveis: nat, inquilinosInadimplentes: nat,
    receitaMensal: seq<MonthValue>, despesaMensal: seq<MonthValue>)
}
