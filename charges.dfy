/** The charge form of src/pages/Cobrancas.tsx: the text fields the user edits, the
    object the page sends to the backend on create and on update, the form filled from an
    existing charge, the empty form, the live value preview and the status label. */
module ChargeForm {
  import opened Wrappers
  import Numerals

  /** A charge as the page lists it (`interface Cobranca`): amounts as numbers (integers
      here), dates and status as the text the backend returns, optional fields absent or
      present. */
  datatype ChargeRecord = ChargeRecord(
    id: string, inquilinoId: string, quartoId: string,
    valor: int, valorOriginal: int, desconto: Option<int>,
    mesReferencia: string, dataVencimento: string, dataPagamento: Option<string>,
    status: string, metodoPagamento: Option<string>, observacoes: Option<string>)

  /** The form state (`formData`): every field is text, `status` one of the charge
      statuses. */
  datatype Form = Form(
    inquilinoId: string, quartoId: string, valorOriginal: string, desconto: string,
    mesReferencia: string, dataVencimento: string, dataPagamento: string,
    status: string, metodoPagamento: string, observacoes: string)

  /** The object handed to `insert` and to `update`. `None` is `null`; a `NaN` amount is
      sent as `null` too, since that is how JSON writes it. */
  datatype Payload = Payload(
    inquilinoId: string, quartoId: string,
    valorOriginal: Option<int>, desconto: Option<int>, valor: Option<int>,
    mesReferencia: string, dataVencimento: string, dataPagamento: Option<string>,
    status: string, metodoPagamento: Option<string>, observacoes: Option<string>)

  /** What submitting the form asks the backend to do. */
  datatype Request = Insert(payload: Payload) | Update(id: string, payload: Payload)

  // ---- Amounts ----

  /** `data.desconto ? parseFloat(data.desconto) : 0`: an empty field is no discount. */
  function ParseDiscount(desconto: string): Option<int> {
    if desconto == "" then Some(0) else Numerals.ParseInt(desconto)
  }

  /** `a - b` where `None` is `NaN`: the difference is `NaN` when either side is. */
  function Minus(a: Option<int>, b: Option<int>): Option<int> {
    if a.Some? && b.Some? then Some(a.value - b.value) else None
  }

  /** `desconto || null`: zero and `NaN` are falsy and become `null`. */
  function NullIfZero(d: Option<int>): Option<int> {
    if d.Some? && d.value != 0 then d else None
  }

  /** `s || null`: the empty string becomes `null`, any other text is kept. */
  function NullIfEmpty(s: string): (r: Option<string>)
    ensures r.None? <==> s == ""
    ensures r.Some? ==> r.value == s
  {
    if s == "" then None else Some(s)
  }

  /** The body of `createMutation` and of `updateMutation` (they build the same object). */
  function ChargePayload(form: Form): Payload {
    var valorOriginal := Numerals.ParseInt(form.valorOriginal);
    var desconto := ParseDiscount(form.desconto);
    Payload(
      form.inquilinoId, form.quartoId,
      valorOriginal, NullIfZero(desconto), Minus(valorOriginal, desconto),
      form.mesReferencia, form.dataVencimento, NullIfEmpty(form.dataPagamento),
      form.status, NullIfEmpty(form.metodoPagamento), NullIfEmpty(form.observacoes))
  }

  /** The stored value is the original value less the discount, where the discount
      stored as `null` counts as 0: an empty discount field leaves the original value,
      a zero discount is stored as `null`, and the value is `null` exactly when the
      original value or a non-empty discount is not a number. */
  lemma ValueIsOriginalLessDiscount(form: Form)
    ensures var p := ChargePayload(form);
      && p.valorOriginal == Numerals.ParseInt(form.valorOriginal)
      && (p.valor.Some? <==> p.valorOriginal.Some? && (form.desconto == "" || Numerals.ParseInt(form.desconto).Some?))
      && (p.valor.Some? ==> p.valor.value + p.desconto.GetOr(0) == p.valorOriginal.value)
      && (form.desconto == "" ==> p.desconto.None? && p.valor == p.valorOriginal)
      && (p.desconto.Some? ==> p.desconto.value != 0 && Some(p.desconto.value) == Numerals.ParseInt(form.desconto))
      && (form.desconto != "" && Numerals.ParseInt(form.desconto).Some? && Numerals.ParseInt(form.desconto).value != 0
          ==> p.desconto == Numerals.ParseInt(form.desconto))
      && (p.valorOriginal.Some? && form.desconto != "" && Numerals.ParseInt(form.desconto).Some?
          ==> p.valor == Some(p.valorOriginal.value - Numerals.ParseInt(form.desconto).value))
  {
  }

  /** Optional text in the payload is `null` exactly when its field is empty. */
  lemma OptionalFieldsNullIffEmpty(form: Form)
    ensures var p := ChargePayload(form);
      && (p.dataPagamento.None? <==> form.dataPagamento == "")
      && (p.metodoPagamento.None? <==> form.metodoPagamento == "")
      && (p.observacoes.None? <==> form.observacoes == "")
      && (p.dataPagamento.Some? ==> p.dataPagamento.value == form.dataPagamento)
      && (p.metodoPagamento.Some? ==> p.metodoPagamento.value == form.metodoPagamento)
      && (p.observacoes.Some? ==> p.observacoes.value == form.observacoes)
  {
  }

  /** `handleSubmit`: update the charge being edited, otherwise insert a new one; both
      send the payload the form describes. */
  function Submit(editing: Option<ChargeRecord>, form: Form): (r: Request)
    ensures r.Update? <==> editing.Some?
    ensures r.Update? ==> r.id == editing.value.id
    ensures r.payload == ChargePayload(form)
  {
    if editing.Some? then Update(editing.value.id, ChargePayload(form)) else Insert(ChargePayload(form))
  }

  // ---- Editing an existing charge ----

  /** `x || ''` on an optional text field. */
  function TextOrEmpty(s: Option<string>): (r: string)
    ensures r == "" <==> s.None? || s == Some("")
  {
    if s.Some? then s.value else ""
  }

  /** `handleEdit`: the form filled from a charge. Amounts are written with `toString()`;
      absent optional fields become empty. */
  function EditForm(rec: ChargeRecord): Form {
    Form(
      rec.inquilinoId, rec.quartoId,
      Numerals.IntToString(rec.valorOriginal),
      if rec.desconto.Some? then Numerals.IntToString(rec.desconto.value) else "",
      rec.mesReferencia, rec.dataVencimento, TextOrEmpty(rec.dataPagamento),
      rec.status, TextOrEmpty(rec.metodoPagamento), TextOrEmpty(rec.observacoes))
  }

  /** An optional text field after a trip through the form: absent and empty both come
      back as `null`, any other text as itself. */
  function ThroughForm(s: Option<string>): (r: Option<string>)
    ensures r.Some? ==> s == r
    ensures r.None? <==> s.None? || s == Some("")
  {
    if s.Some? && s.value != "" then s else None
  }

  /** Opening a charge for editing and saving it without changes sends back the charge
      itself: the same identifiers, text and status, the same original value, the
      discount (a zero discount as `null`), the original value less the discount as the
      value, and each optional field as it was, with absent or empty fields as `null`. */
  lemma EditRoundTrip(rec: ChargeRecord)
    ensures ChargePayload(EditForm(rec)) == Payload(
      rec.inquilinoId, rec.quartoId,
      Some(rec.valorOriginal), NullIfZero(rec.desconto), Some(rec.valorOriginal - rec.desconto.GetOr(0)),
      rec.mesReferencia, rec.dataVencimento, ThroughForm(rec.dataPagamento),
      rec.status, ThroughForm(rec.metodoPagamento), ThroughForm(rec.observacoes))
  {
    Numerals.ParseIntToString(rec.valorOriginal);
    if rec.desconto.Some? {
      Numerals.ParseIntToString(rec.desconto.value);
      assert Numerals.IntToString(rec.desconto.value) != "";
    }
  }

  /** A charge whose value is its original value less its discount keeps its value
      when saved unchanged. */
  lemma EditKeepsValue(rec: ChargeRecord)
    requires rec.valor == rec.valorOriginal - rec.desconto.GetOr(0)
    ensures ChargePayload(EditForm(rec)).valor == Some(rec.valor)
  {
    EditRoundTrip(rec);
  }

  // ---- The empty form ----

  /** `resetForm`. */
  function ResetForm(): Form {
    Form("", "", "", "", "", "", "", "pendente", "", "")
  }

  /** The empty form is a pending charge with every other field empty; submitted as it
      is, it carries no amount and `null` in every optional field. */
  lemma ResetFormSpec()
    ensures var f := ResetForm();
      && f.status == "pendente"
      && f.inquilinoId == f.quartoId == f.valorOriginal == f.desconto == f.mesReferencia == ""
      && f.dataVencimento == f.dataPagamento == f.metodoPagamento == f.observacoes == ""
    ensures var p := ChargePayload(ResetForm());
      && p.valorOriginal.None? && p.valor.None? && p.desconto.None?
      && p.dataPagamento.None? && p.metodoPagamento.None? && p.observacoes.None?
  {
  }

  // ---- The value preview ----

  /** The value shown under the amount fields:
      `(parseFloat(valor_original) || 0) - (parseFloat(desconto) || 0)`. */
  function Preview(form: Form): int {
    Numerals.ParseInt(form.valorOriginal).GetOr(0) - Numerals.ParseInt(form.desconto).GetOr(0)
  }

  /** Whenever the form yields a stored value, the preview shows that value. */
  lemma PreviewMatchesStored(form: Form)
    requires ChargePayload(form).valor.Some?
    ensures Preview(form) == ChargePayload(form).valor.value
  {
  }

  // ---- Labels ----

  /** `getStatusLabel`. */
  function StatusLabel(status: string): string {
    match status
    case "pago" => "Pago"
    case "pendente" => "Pendente"
    case "atrasado" => "Atrasado"
    case "cancelado" => "Cancelado"
    case _ => status
  }

  const KnownStatuses: seq<string> := ["pendente", "pago", "atrasado", "cancelado"]

  /** The four statuses get four different labels, none equal to its key; any other
      text is shown as it is. */
  lemma StatusLabelSpec(a: string, b: string)
    ensures a in KnownStatuses && b in KnownStatuses && a != b ==> StatusLabel(a) != StatusLabel(b)
    ensures a in KnownStatuses ==> StatusLabel(a) != a
    ensures a !in KnownStatuses ==> StatusLabel(a) == a
  {
  }
}
