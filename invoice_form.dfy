/**
 * The invoice creation page: its line-item list operations, the GST preview it shows,
 * and the checks and filtering done before the invoice is posted.
 */
module InvoiceForm {
  import opened Wrappers
  import Seqs
  import Text
  import InvoicesRoute

  /** A line as the page holds it; `total` is kept by the page, not recomputed on every change. */
  datatype FormItem = FormItem(id: string, description: string, quantity: real, unitPrice: real, total: real)

  /** One call of `updateItem`: the field changed and its new value. */
  datatype Edit = SetId(id: string) | SetDescription(description: string) | SetQuantity(quantity: real)
               | SetUnitPrice(unitPrice: real) | SetTotal(total: real)

  /** The page's form state; `customer` is the selected customer, if any. */
  datatype Form = Form(
    customer: Option<nat>, issueDate: int, dueDate: Option<int>, taxRate: real,
    gstInclusive: bool, exemptFromGst: bool, notes: string, items: seq<FormItem>)

  /** The line `addItem` appends: no description, quantity 1, price 0. */
  function NewItem(id: string): FormItem
  {
    FormItem(id, "", 1.0, 0.0, 0.0)
  }

  /** `addItem`: the list with one new empty line at the end. */
  function AddItem(items: seq<FormItem>, id: string): (r: seq<FormItem>)
    ensures |r| == |items| + 1 && r[..|items|] == items
    ensures r[|items|].description == "" && r[|items|].quantity == 1.0 && r[|items|].unitPrice == 0.0 && r[|items|].total == 0.0
  {
    items + [NewItem(id)]
  }

  /** `removeItem`: the lines whose id differs, in their order. */
  function RemoveItem(items: seq<FormItem>, id: string): (r: seq<FormItem>)
    ensures forall x :: x in r <==> x in items && x.id != id
  {
    Seqs.Filter(items, (x: FormItem) => x.id != id)
  }

  /** Removing an id no line has leaves the list as it was. */
  lemma {:induction false} RemoveAbsent(items: seq<FormItem>, id: string)
    requires forall i :: 0 <= i < |items| ==> items[i].id != id
    ensures RemoveItem(items, id) == items
  {
    if items != [] {
      RemoveAbsent(items[1..], id);
      assert items == [items[0]] + items[1..];
    }
  }

  /** Removal keeps the relative order: removing from a concatenation removes from each part. */
  lemma RemoveAppend(a: seq<FormItem>, b: seq<FormItem>, id: string)
    ensures RemoveItem(a + b, id) == RemoveItem(a, id) + RemoveItem(b, id)
  {
    Seqs.FilterAppend(a, b, (x: FormItem) => x.id != id);
  }

  /** `{ ...item, [field]: value }`, with the total recomputed only after a quantity or price change. */
  function ApplyEdit(item: FormItem, e: Edit): (r: FormItem)
    ensures e.SetQuantity? || e.SetUnitPrice? ==> r.total == r.quantity * r.unitPrice
    ensures e.SetDescription? || e.SetId? ==> r.total == item.total
    ensures !e.SetId? ==> r.id == item.id
  {
    match e
    case SetId(v) => item.(id := v)
    case SetDescription(v) => item.(description := v)
    case SetQuantity(v) => item.(quantity := v, total := v * item.unitPrice)
    case SetUnitPrice(v) => item.(unitPrice := v, total := item.quantity * v)
    case SetTotal(v) => item.(total := v)
  }

  /** `updateItem`: the edit applied to every line with the given id, every other line unchanged. */
  function UpdateItem(items: seq<FormItem>, id: string, e: Edit): (r: seq<FormItem>)
    ensures |r| == |items|
    ensures forall i :: 0 <= i < |items| && items[i].id != id ==> r[i] == items[i]
    ensures forall i :: 0 <= i < |items| && items[i].id == id ==> r[i] == ApplyEdit(items[i], e)
  {
    seq(|items|, i requires 0 <= i < |items| => if items[i].id == id then ApplyEdit(items[i], e) else items[i])
  }

  /** A line whose total is its quantity times its price. */
  predicate Priced(item: FormItem)
  {
    item.total == item.quantity * item.unitPrice
  }

  /** Editing quantity or price keeps every line priced; only a direct edit of `total` can break it. */
  lemma UpdateKeepsPriced(items: seq<FormItem>, id: string, e: Edit)
    requires forall i :: 0 <= i < |items| ==> Priced(items[i])
    requires !e.SetTotal?
    ensures forall i :: 0 <= i < |items| ==> Priced(UpdateItem(items, id, e)[i])
  {
  }

  // ---------------------------------------------------------------------------------------------
  // The preview

  /** `calculateSubtotal`: the lines' totals added up. */
  function Subtotal(items: seq<FormItem>): real
  {
    if items == [] then 0.0 else Subtotal(items[..|items| - 1]) + items[|items| - 1].total
  }

  /** `calculateTax` on a sum `s`. */
  function Tax(s: real, f: Form): real
    requires InvoicesRoute.Defined(f.exemptFromGst, f.gstInclusive, f.taxRate)
  {
    if f.exemptFromGst then 0.0
    else if f.gstInclusive then s / (1.0 + f.taxRate) * f.taxRate
    else s * f.taxRate
  }

  /** `calculateTotal` on a sum `s`: the sum itself when prices include GST, otherwise sum plus tax. */
  function Total(s: real, f: Form): real
    requires InvoicesRoute.Defined(f.exemptFromGst, f.gstInclusive, f.taxRate)
  {
    if f.gstInclusive then s else s + Tax(s, f)
  }

  /** `calculateExclusiveSubtotal` on a sum `s`. */
  function ExclusiveSubtotal(s: real, f: Form): real
    requires InvoicesRoute.Defined(f.exemptFromGst, f.gstInclusive, f.taxRate)
  {
    if f.exemptFromGst then s else if f.gstInclusive then s - Tax(s, f) else s
  }

  /** The three figures the page shows, computed from the sum `s`. */
  function FiguresOf(s: real, f: Form): InvoicesRoute.Figures
    requires InvoicesRoute.Defined(f.exemptFromGst, f.gstInclusive, f.taxRate)
  {
    InvoicesRoute.Figures(ExclusiveSubtotal(s, f), Tax(s, f), Total(s, f))
  }

  /** For all four combinations of the two flags, the shown subtotal plus the shown tax is the shown total. */
  lemma PreviewAddsUp(s: real, f: Form)
    requires InvoicesRoute.Defined(f.exemptFromGst, f.gstInclusive, f.taxRate)
    ensures ExclusiveSubtotal(s, f) + Tax(s, f) == Total(s, f)
  {
  }

  /** The page's formulas give the route's figures for the same sum, flags and effective rate. */
  lemma FiguresAgree(s: real, f: Form)
    requires InvoicesRoute.Defined(f.exemptFromGst, f.gstInclusive, f.taxRate)
    ensures FiguresOf(s, f) ==
              InvoicesRoute.InvoiceFigures(s, f.exemptFromGst, f.gstInclusive,
                                           InvoicesRoute.EffectiveRate(f.exemptFromGst, Some(f.taxRate)))
  {
  }

  /** The preview as the page computes it: over every line, blank ones included. */
  function Preview(f: Form): InvoicesRoute.Figures
    requires InvoicesRoute.Defined(f.exemptFromGst, f.gstInclusive, f.taxRate)
  {
    FiguresOf(Subtotal(f.items), f)
  }

  /** The preview over the lines that are actually posted. */
  function PostedPreview(f: Form): InvoicesRoute.Figures
    requires InvoicesRoute.Defined(f.exemptFromGst, f.gstInclusive, f.taxRate)
  {
    FiguresOf(Subtotal(Submitted(f.items)), f)
  }

  /** Ticking "GST exempt" sets the rate to 0; clearing it sets the rate back to 15%. */
  function ToggleExempt(f: Form, checked: bool): (r: Form)
    ensures r.exemptFromGst == checked && r.taxRate == (if checked then 0.0 else 0.15)
    ensures r.items == f.items && r.gstInclusive == f.gstInclusive && r.customer == f.customer
  {
    f.(exemptFromGst := checked, taxRate := if checked then 0.0 else 0.15)
  }

  // ---------------------------------------------------------------------------------------------
  // Saving

  const NoCustomer := "Please select a customer"
  const NoItems := "Please add at least one invoice item"

  /** `items.filter(item => item.description.trim() !== '')`. */
  function Submitted(items: seq<FormItem>): seq<FormItem>
  {
    Seqs.Filter(items, (x: FormItem) => !Text.IsBlank(x.description))
  }

  /** Only a list of blank lines posts nothing. */
  lemma {:induction false} NothingSubmitted(items: seq<FormItem>)
    ensures |Submitted(items)| == 0 <==> forall i :: 0 <= i < |items| ==> Text.IsBlank(items[i].description)
  {
    if items != [] {
      NothingSubmitted(items[1..]);
      assert Submitted(items) == Submitted([items[0]]) + Submitted(items[1..]) by {
        assert items == [items[0]] + items[1..];
        Seqs.FilterAppend([items[0]], items[1..], (x: FormItem) => !Text.IsBlank(x.description));
      }
      forall i | 1 <= i < |items| ensures items[i] == items[1..][i - 1] { }
    }
  }

  function ToInput(item: FormItem): InvoicesRoute.ItemInput
  {
    InvoicesRoute.ItemInput(item.description, item.quantity, item.unitPrice)
  }

  function ToInputs(items: seq<FormItem>): (r: seq<InvoicesRoute.ItemInput>)
    ensures |r| == |items|
  {
    if items == [] then [] else ToInputs(items[..|items| - 1]) + [ToInput(items[|items| - 1])]
  }

  /** The body `handleSave` posts; the page's own subtotal, tax and total are ignored by the route. */
  function Request(f: Form): InvoicesRoute.PostRequest
    requires f.customer.Some?
  {
    InvoicesRoute.PostRequest(f.customer, Some(f.issueDate), f.dueDate, ToInputs(Submitted(f.items)),
                              f.notes, "", Some(f.taxRate), Some(f.gstInclusive), Some(f.exemptFromGst))
  }

  /** `handleSave` as written: the item check tests for an empty description, without trimming. */
  function Save(f: Form): Result<InvoicesRoute.PostRequest, string>
  {
    if f.customer.None? then Err(NoCustomer)
    else if |f.items| == 0 || forall i :: 0 <= i < |f.items| ==> f.items[i].description == "" then Err(NoItems)
    else Ok(Request(f))
  }

  /** `handleSave` with the item check on trimmed descriptions, matching the filter applied to the body. */
  function CheckedSave(f: Form): (r: Result<InvoicesRoute.PostRequest, string>)
    ensures r.Ok? ==> f.customer.Some? && r.value == Request(f) && |r.value.items| > 0
    ensures r.Err? <==> f.customer.None? || |Submitted(f.items)| == 0
  {
    if f.customer.None? then Err(NoCustomer)
    else if forall i :: 0 <= i < |f.items| ==> Text.IsBlank(f.items[i].description) then
      NothingSubmitted(f.items);
      Err(NoItems)
    else
      assert |Submitted(f.items)| > 0 by {
        var i :| 0 <= i < |f.items| && !Text.IsBlank(f.items[i].description);
        assert f.items[i] in Submitted(f.items);
      }
      Ok(Request(f))
  }

  /** A line whose description is only spaces passes the page's check but is dropped from the body. */
  lemma SaveSendsNoItems()
    ensures var f := Form(Some(1), 0, None, 0.15, true, false, "", [FormItem("1", " ", 1.0, 100.0, 100.0)]);
            && Save(f).Ok? && |Save(f).value.items| == 0
            && CheckedSave(f) == Err(NoItems)
  {
    var f := Form(Some(1), 0, None, 0.15, true, false, "", [FormItem("1", " ", 1.0, 100.0, 100.0)]);
    assert f.items[0].description != "";
    assert Text.IsBlank(f.items[0].description);
    assert Submitted(f.items) == [] by {
      assert Submitted(f.items) == [] + Submitted(f.items[1..]);
    }
  }

  /** The preview counts a blank line that is not posted: 100 described plus 50 blank shows 150, the route stores 100. */
  lemma PreviewCountsBlankLines()
    ensures var f := Form(Some(1), 0, None, 0.15, true, false, "",
                          [FormItem("1", "Consulting", 1.0, 100.0, 100.0), FormItem("2", "", 1.0, 50.0, 50.0)]);
            && Preview(f).total == 150.0 && PostedPreview(f).total == 100.0
  {
    var f := Form(Some(1), 0, None, 0.15, true, false, "",
                  [FormItem("1", "Consulting", 1.0, 100.0, 100.0), FormItem("2", "", 1.0, 50.0, 50.0)]);
    var items := f.items;
    assert !Text.IsBlank(items[0].description) by {
      assert items[0].description[0] == 'C';
    }
    assert Text.IsBlank(items[1].description);
    assert items[..1][..0] == [];
    assert Submitted(items) == [items[0]] by {
      assert Submitted(items) == [items[0]] + Submitted(items[1..]);
      assert Submitted(items[1..]) == [] + Submitted(items[2..]);
    }
    assert Subtotal([items[0]]) == 100.0 by {
      assert [items[0]][..0] == [];
    }
  }

  /** The sum of the lines' totals is the route's item subtotal when every line is priced. */
  lemma {:induction false} SubtotalOfPriced(items: seq<FormItem>)
    requires forall i :: 0 <= i < |items| ==> Priced(items[i])
    ensures Subtotal(items) == InvoicesRoute.ItemsSubtotal(ToInputs(items))
  {
    if items != [] {
      var r := ToInputs(items);
      assert r[..|r| - 1] == ToInputs(items[..|items| - 1]);
      SubtotalOfPriced(items[..|items| - 1]);
    }
  }

  /**
   * When every line is priced, the preview of the posted lines shows exactly the subtotal, tax and
   * total the route stores for the request the page sends.
   */
  lemma PostedPreviewMatchesRoute(f: Form)
    requires f.customer.Some?
    requires InvoicesRoute.Defined(f.exemptFromGst, f.gstInclusive, f.taxRate)
    requires forall i :: 0 <= i < |f.items| ==> Priced(f.items[i])
    ensures var req := Request(f);
            PostedPreview(f) ==
              InvoicesRoute.InvoiceFigures(InvoicesRoute.ItemsSubtotal(req.items), InvoicesRoute.Exempt(req),
                                           InvoicesRoute.Inclusive(req), InvoicesRoute.Rate(req))
  {
    var posted := Submitted(f.items);
    forall i | 0 <= i < |posted| ensures Priced(posted[i]) {
      assert posted[i] in f.items;
    }
    SubtotalOfPriced(posted);
    FiguresAgree(Subtotal(posted), f);
  }
}
