/** The extracted-fields panel: an edit of one of the five editable fields hands the
    change callback a copy of the data with that one field replaced. */
module OCRFieldsPanel {
  import opened Types

  /** The five fields the panel offers an input for; `items` has none. */
  datatype Field = VendorName | Gst | InvoiceNo | Date | Amount

  /** A field's value: text for the four string fields, a number for the amount. */
  datatype FieldValue = Text(text: string) | Number(number: int)

  /** One input's change event: the field and the value typed into it (the amount
      input's text already parsed to a number). */
  datatype FieldEdit =
    | SetVendorName(vendorName: string)
    | SetGst(gst: string)
    | SetInvoiceNo(invoiceNo: string)
    | SetDate(date: string)
    | SetAmount(amount: int)

  function FieldOf(e: FieldEdit): Field {
    match e
    case SetVendorName(_) => VendorName
    case SetGst(_) => Gst
    case SetInvoiceNo(_) => InvoiceNo
    case SetDate(_) => Date
    case SetAmount(_) => Amount
  }

  function ValueOf(e: FieldEdit): FieldValue {
    match e
    case SetVendorName(v) => Text(v)
    case SetGst(v) => Text(v)
    case SetInvoiceNo(v) => Text(v)
    case SetDate(v) => Text(v)
    case SetAmount(a) => Number(a)
  }

  /** The value a record holds in a field. */
  function Get(d: OCRData, f: Field): FieldValue {
    match f
    case VendorName => Text(d.vendorName)
    case Gst => Text(d.gst)
    case InvoiceNo => Text(d.invoiceNo)
    case Date => Text(d.date)
    case Amount => Number(d.amount)
  }

  /** The spread copy `{ ...data, [field]: value }`: the edited field reads back the
      new value, every other field and the line items are those of `d`. */
  function Apply(d: OCRData, e: FieldEdit): (r: OCRData)
    ensures Get(r, FieldOf(e)) == ValueOf(e)
    ensures forall f :: f != FieldOf(e) ==> Get(r, f) == Get(d, f)
    ensures r.items == d.items
  {
    match e
    case SetVendorName(v) => d.(vendorName := v)
    case SetGst(v) => d.(gst := v)
    case SetInvoiceNo(v) => d.(invoiceNo := v)
    case SetDate(v) => d.(date := v)
    case SetAmount(a) => d.(amount := a)
  }

  /** A record is determined by its five fields and its items. */
  lemma FieldsDetermine(d1: OCRData, d2: OCRData)
    requires forall f :: Get(d1, f) == Get(d2, f)
    requires d1.items == d2.items
    ensures d1 == d2
  {
    assert Get(d1, VendorName) == Get(d2, VendorName);
    assert Get(d1, Gst) == Get(d2, Gst);
    assert Get(d1, InvoiceNo) == Get(d2, InvoiceNo);
    assert Get(d1, Date) == Get(d2, Date);
    assert Get(d1, Amount) == Get(d2, Amount);
  }

  /** What the handler emits: nothing without a callback, otherwise the edited copy.
      The input record itself is a value and is never changed. */
  function HandleFieldChange(d: OCRData, hasOnChange: bool, e: FieldEdit): (emitted: Option<OCRData>)
    ensures emitted.Some? <==> hasOnChange
    ensures emitted.Some? ==> Get(emitted.value, FieldOf(e)) == ValueOf(e)
    ensures emitted.Some? ==> forall f :: f != FieldOf(e) ==> Get(emitted.value, f) == Get(d, f)
    ensures emitted.Some? ==> emitted.value.items == d.items
  {
    if hasOnChange then Some(Apply(d, e)) else None
  }

  /** Inputs exist only in editable mode; a read-only panel never emits. */
  function PanelEdit(d: OCRData, editable: bool, hasOnChange: bool, e: FieldEdit): (emitted: Option<OCRData>)
    ensures emitted.Some? <==> editable && hasOnChange
    ensures emitted.Some? ==> emitted == HandleFieldChange(d, hasOnChange, e)
  {
    if editable then HandleFieldChange(d, hasOnChange, e) else None
  }

  /** Typing the same value twice is the same as typing it once. */
  lemma ApplyIdempotent(d: OCRData, e: FieldEdit)
    ensures Apply(Apply(d, e), e) == Apply(d, e)
  {
    FieldsDetermine(Apply(Apply(d, e), e), Apply(d, e));
  }

  /** A later edit of the same field overrides an earlier one. */
  lemma LastEditWins(d: OCRData, e1: FieldEdit, e2: FieldEdit)
    requires FieldOf(e1) == FieldOf(e2)
    ensures Apply(Apply(d, e1), e2) == Apply(d, e2)
  {
    FieldsDetermine(Apply(Apply(d, e1), e2), Apply(d, e2));
  }

  /** Edits of different fields commute. */
  lemma EditsCommute(d: OCRData, e1: FieldEdit, e2: FieldEdit)
    requires FieldOf(e1) != FieldOf(e2)
    ensures Apply(Apply(d, e1), e2) == Apply(Apply(d, e2), e1)
  {
    FieldsDetermine(Apply(Apply(d, e1), e2), Apply(Apply(d, e2), e1));
  }

  /** Re-typing a field's current value emits the record unchanged. */
  lemma RetypeIsIdentity(d: OCRData, e: FieldEdit)
    requires ValueOf(e) == Get(d, FieldOf(e))
    ensures Apply(d, e) == d
  {
    FieldsDetermine(Apply(d, e), d);
  }
}
