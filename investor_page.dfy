/** The investor dashboard: the investment list (seeded with two sample records),
    its running total, and the add-investment form. */
module InvestorPage {
  import opened Types

  /** The investor every record added from this page is filed under. */
  const InvestorId: string := "inv-001"

  /** The two records the page starts with. */
  const MockInvestments: seq<InvestmentRecord> := [
    InvestmentRecord("1", InvestorId, "2026-02-01", "Equity", 500000, "Tech Startup Investment", None),
    InvestmentRecord("2", InvestorId, "2026-01-15", "Mutual Fund", 250000, "Index Fund SIP", None)
  ]

  /** The form's four text inputs, as typed. */
  datatype InvestmentForm = InvestmentForm(date: string, kind: string, amount: string, description: string)

  const EmptyForm: InvestmentForm := InvestmentForm("", "", "", "")

  /** The form's four inputs. */
  datatype FormField = DateField | KindField | AmountField | DescriptionField

  /** The text an input currently shows. */
  function Get(f: InvestmentForm, field: FormField): string {
    match field
    case DateField => f.date
    case KindField => f.kind
    case AmountField => f.amount
    case DescriptionField => f.description
  }

  /** Two forms showing the same text in every input are the same form. */
  lemma FieldsDetermine(f: InvestmentForm, g: InvestmentForm)
    requires forall field :: Get(f, field) == Get(g, field)
    ensures f == g
  {
    assert Get(f, DateField) == Get(g, DateField);
    assert Get(f, KindField) == Get(g, KindField);
    assert Get(f, AmountField) == Get(g, AmountField);
    assert Get(f, DescriptionField) == Get(g, DescriptionField);
  }

  /** One input's change event: the input and the text it now holds. */
  datatype FormEdit = FormEdit(field: FormField, value: string)

  /** The spread copy with the one edited input replaced: that input reads the new
      text and every other input keeps its text. */
  function ApplyEdit(f: InvestmentForm, e: FormEdit): (r: InvestmentForm)
    ensures Get(r, e.field) == e.value
    ensures forall field :: field != e.field ==> Get(r, field) == Get(f, field)
  {
    match e.field
    case DateField => f.(date := e.value)
    case KindField => f.(kind := e.value)
    case AmountField => f.(amount := e.value)
    case DescriptionField => f.(description := e.value)
  }

  /** Typing twice into the same input leaves only the second text. */
  lemma LastEditWins(f: InvestmentForm, field: FormField, v1: string, v2: string)
    ensures ApplyEdit(ApplyEdit(f, FormEdit(field, v1)), FormEdit(field, v2)) == ApplyEdit(f, FormEdit(field, v2))
  {
    var a := ApplyEdit(ApplyEdit(f, FormEdit(field, v1)), FormEdit(field, v2));
    var b := ApplyEdit(f, FormEdit(field, v2));
    forall g: FormField ensures Get(a, g) == Get(b, g) {
    }
    FieldsDetermine(a, b);
  }

  /** Edits to two different inputs give the same form in either order. */
  lemma EditsCommute(f: InvestmentForm, e1: FormEdit, e2: FormEdit)
    requires e1.field != e2.field
    ensures ApplyEdit(ApplyEdit(f, e1), e2) == ApplyEdit(ApplyEdit(f, e2), e1)
  {
    var a := ApplyEdit(ApplyEdit(f, e1), e2);
    var b := ApplyEdit(ApplyEdit(f, e2), e1);
    forall g: FormField ensures Get(a, g) == Get(b, g) {
    }
    FieldsDetermine(a, b);
  }

  /** The sum of the amounts, first record first; it is non-negative when every
      amount is. */
  function Sum(records: seq<InvestmentRecord>): (total: int)
    ensures (forall i :: 0 <= i < |records| ==> records[i].amount >= 0) ==> total >= 0
  {
    if records == [] then 0
    else
      assert forall i :: 1 <= i < |records| ==> records[1..][i - 1] == records[i];
      records[0].amount + Sum(records[1..])
  }

  /** Summing a list extended at the back adds the new amount. */
  lemma {:induction false} SumSnoc(records: seq<InvestmentRecord>, r: InvestmentRecord)
    ensures Sum(records + [r]) == Sum(records) + r.amount
  {
    if records != [] {
      assert (records + [r])[1..] == records[1..] + [r];
      SumSnoc(records[1..], r);
    }
  }

  /** Sum distributes over concatenation. */
  lemma {:induction false} SumAppend(a: seq<InvestmentRecord>, b: seq<InvestmentRecord>)
    ensures Sum(a + b) == Sum(a) + Sum(b)
  {
    if a == [] {
      assert a + b == b;
    } else {
      assert (a + b)[1..] == a[1..] + b;
      SumAppend(a[1..], b);
    }
  }

  /** Each of a list of non-negative amounts is at most their sum. */
  lemma {:induction false} SumBoundsEach(records: seq<InvestmentRecord>)
    requires forall i :: 0 <= i < |records| ==> records[i].amount >= 0
    ensures forall i :: 0 <= i < |records| ==> records[i].amount <= Sum(records)
  {
    if records != [] {
      assert forall i :: 1 <= i < |records| ==> records[1..][i - 1] == records[i];
      SumBoundsEach(records[1..]);
    }
  }

  /** `investments.reduce((sum, inv) => sum + inv.amount, 0)`. */
  method TotalInvested(records: seq<InvestmentRecord>) returns (total: int)
    ensures total == Sum(records)
  {
    total := 0;
    var i := 0;
    while i < |records|
      invariant 0 <= i <= |records|
      invariant total == Sum(records[..i])
    {
      assert records[..i + 1] == records[..i] + [records[i]];
      SumSnoc(records[..i], records[i]);
      total := total + records[i].amount;
      i := i + 1;
    }
    assert records[..i] == records;
  }

  /** The record built from the form: filed under the page's investor, with the
      caller's id and the amount parsed from the amount text, no broker statement. */
  function NewInvestment(id: string, form: InvestmentForm, parsedAmount: int): (r: InvestmentRecord)
    ensures r.id == id && r.investorId == InvestorId && r.amount == parsedAmount
    ensures r.date == form.date && r.kind == form.kind && r.description == form.description
    ensures r.brokerStatement.None?
  {
    InvestmentRecord(id, InvestorId, form.date, form.kind, parsedAmount, form.description, None)
  }

  class InvestorDashboard {
    var investments: seq<InvestmentRecord>
    var showAddForm: bool
    var form: InvestmentForm

    /** The page starts with the sample records, the form hidden and empty. */
    constructor ()
      ensures investments == MockInvestments && !showAddForm && form == EmptyForm
    {
      investments := MockInvestments;
      showAddForm := false;
      form := EmptyForm;
    }

    /** The "Add Investment" button shows or hides the form. */
    method ToggleAddForm()
      modifies this
      ensures showAddForm == !old(showAddForm)
      ensures investments == old(investments) && form == old(form)
    {
      showAddForm := !showAddForm;
    }

    /** Typing into one of the form's inputs. */
    method EditForm(e: FormEdit)
      modifies this
      ensures form == ApplyEdit(old(form), e)
      ensures investments == old(investments) && showAddForm == old(showAddForm)
    {
      form := ApplyEdit(form, e);
    }

    /** Every input holds some text: the browser submits a form whose inputs are all
        marked required only then. */
    predicate FormComplete()
      reads this
    {
      forall field :: Get(form, field) != ""
    }

    /** The submit handler: the new record goes to the front of the list, the form is
        emptied and hidden. The handler itself checks nothing, not even the amount's
        sign. */
    method AddInvestment(id: string, parsedAmount: int)
      modifies this
      ensures investments == [NewInvestment(id, old(form), parsedAmount)] + old(investments)
      ensures form == EmptyForm && !showAddForm
    {
      var investment := NewInvestment(id, form, parsedAmount);
      investments := [investment] + investments;
      form := EmptyForm;
      showAddForm := false;
    }

    /** Pressing "Add Investment" inside the form: nothing happens unless the form is
        shown and every input is filled in; otherwise the submit handler runs. */
    method SubmitForm(id: string, parsedAmount: int)
      modifies this
      ensures !(old(showAddForm) && old(FormComplete())) ==>
        investments == old(investments) && form == old(form) && showAddForm == old(showAddForm)
      ensures old(showAddForm) && old(FormComplete()) ==>
        investments == [NewInvestment(id, old(form), parsedAmount)] + old(investments) &&
        form == EmptyForm && !showAddForm
    {
      if showAddForm && FormComplete() {
        AddInvestment(id, parsedAmount);
      }
    }

    /** The "Cancel" button hides the form and keeps what was typed into it. */
    method CancelForm()
      modifies this
      ensures !showAddForm
      ensures investments == old(investments) && form == old(form)
    {
      showAddForm := false;
    }
  }

  /** Adding a record changes the total by exactly its amount, so a negative amount,
      which nothing rejects, lowers the total. */
  lemma AddChangesTotal(records: seq<InvestmentRecord>, r: InvestmentRecord)
    ensures Sum([r] + records) == Sum(records) + r.amount
    ensures r.amount < 0 ==> Sum([r] + records) < Sum(records)
  {
    assert ([r] + records)[1..] == records;
  }

  /** The page opens with a total of 500000 + 250000. */
  lemma InitialTotal()
    ensures Sum(MockInvestments) == 750000
  {
    var m := MockInvestments;
    assert m[1..][1..] == [];
    assert Sum(m[1..]) == m[1].amount + Sum(m[1..][1..]);
    assert Sum(m) == m[0].amount + Sum(m[1..]);
  }

  /** Submit, then read the total: it is the old total plus the parsed amount. */
  method AddAndTotal(page: InvestorDashboard, id: string, parsedAmount: int) returns (total: int)
    modifies page
    ensures total == Sum(old(page.investments)) + parsedAmount
    ensures page.form == EmptyForm && !page.showAddForm
  {
    page.AddInvestment(id, parsedAmount);
    total := TotalInvested(page.investments);
    AddChangesTotal(old(page.investments), page.investments[0]);
    assert page.investments[1..] == old(page.investments);
  }

  /** Typing a date into the shown, otherwise filled-in form and submitting files a
      record with that date at the front of the list; its kind and description are
      the ones typed before, and the form is emptied and hidden. */
  method EditDateThenSubmit(page: InvestorDashboard, v: string, id: string, parsedAmount: int)
    requires page.showAddForm && v != ""
    requires page.form.kind != "" && page.form.amount != "" && page.form.description != ""
    modifies page
    ensures |page.investments| == |old(page.investments)| + 1
    ensures page.investments[0].date == v
    ensures page.investments[0].kind == old(page.form.kind)
    ensures page.investments[0].description == old(page.form.description)
    ensures page.investments[0].amount == parsedAmount
    ensures page.investments[1..] == old(page.investments)
    ensures page.form == EmptyForm && !page.showAddForm
  {
    page.EditForm(FormEdit(DateField, v));
    assert page.FormComplete() by {
      forall field: FormField ensures Get(page.form, field) != "" {
      }
    }
    page.SubmitForm(id, parsedAmount);
  }
}
