/**
 * `POST /api/invoices`: validate the request, check the customer belongs to the caller, number the
 * invoice after the caller's last one, compute the GST figures per item and per invoice, and store it.
 */
module InvoicesRoute {
  import opened Wrappers
  import opened Ledger
  import Text

  // ---------------------------------------------------------------------------------------------
  // Invoice numbering

  /** `INV-` followed by `n` in decimal, left-padded with zeros to at least three digits. */
  function Formatted(n: nat): string
  {
    "INV-" + Text.PadStart(Text.Decimal(n), 3, '0')
  }

  /** `parseInt(number.split('-')[1] || '0')`; `None` stands for `NaN`. */
  function NumberValue(number: string): Option<int>
  {
    var pieces := Text.Split(number, '-');
    var piece := if |pieces| > 1 && pieces[1] != "" then pieces[1] else "0";
    Text.ParseInt(piece)
  }

  /**
   * The number given to a new invoice, from the number of the caller's last invoice if any:
   * `INV-${String(lastNumber + 1).padStart(3, '0')}`, where `String(NaN)` is `"NaN"`.
   */
  function NextInvoiceNumber(last: Option<string>): string
  {
    if last.None? then "INV-001"
    else match NumberValue(last.value)
      case None => "INV-" + Text.PadStart("NaN", 3, '0')
      case Some(n) => "INV-" + Text.PadStart(Text.IntString(n + 1), 3, '0')
  }

  /** The padded digits of `n`: digits only, and they denote `n`. */
  lemma PaddedDigits(n: nat)
    ensures var p := Text.PadStart(Text.Decimal(n), 3, '0');
            && p != [] && Text.AllDigits(p) && '-' !in p && Text.DigitsValue(p) == n
  {
    var d := Text.Decimal(n);
    var p := Text.PadStart(d, 3, '0');
    var z := p[..|p| - |d|];
    assert p == z + d;
    Text.LeadingZeros(z, d);
    Text.DecimalRoundTrip(n);
    forall i | 0 <= i < |p| ensures p[i] != '-' {
      assert Text.IsDigit(p[i]);
    }
  }

  /** A number `INV-` + `p` whose suffix `p` has no hyphen reads as `parseInt(p)`. */
  lemma NumberValueOf(p: string)
    requires '-' !in p && p != []
    ensures NumberValue("INV-" + p) == Text.ParseInt(p)
  {
    assert "INV-" + p == "INV" + ['-'] + p;
    Text.SplitHead("INV", '-', p);
    Text.SplitNone(p, '-');
  }

  /** Every formatted number reads back as the number it was formatted from. */
  lemma NumberValueFormatted(n: nat)
    ensures NumberValue(Formatted(n)) == Some(n)
  {
    var p := Text.PadStart(Text.Decimal(n), 3, '0');
    PaddedDigits(n);
    NumberValueOf(p);
    Text.ParseIntDigits(p);
  }

  /** The first invoice of a tenant is `INV-001`. */
  lemma FirstNumber()
    ensures NextInvoiceNumber(None) == Formatted(1)
  {
    assert Text.Decimal(1) == "1";
  }

  /** After the invoice formatted from `n` comes the one formatted from `n + 1`. */
  lemma NextNumberSucc(n: nat)
    ensures NextInvoiceNumber(Some(Formatted(n))) == Formatted(n + 1)
  {
    NumberValueFormatted(n);
  }

  /** Distinct counters give distinct numbers, so a tenant's numbers do not repeat while the counter grows. */
  lemma FormattedInjective(a: nat, b: nat)
    requires Formatted(a) == Formatted(b)
    ensures a == b
  {
    NumberValueFormatted(a);
    NumberValueFormatted(b);
  }

  /** A number whose suffix does not parse is followed by `INV-NaN`. */
  lemma NextAfterNaN(number: string)
    requires NumberValue(number).None?
    ensures NextInvoiceNumber(Some(number)) == "INV-NaN"
  {
    assert Text.PadStart("NaN", 3, '0') == "NaN";
  }

  /** The demo data's numbers such as `INV-F001` have a letter after the hyphen, so the next one is `INV-NaN`. */
  lemma NumberAfterLetter()
    ensures NextInvoiceNumber(Some("INV-F001")) == "INV-NaN"
  {
    var number := "INV-F001";
    assert number == "INV-" + "F001";
    NumberValueOf("F001");
    Text.ParseIntNoDigit("F001");
    NextAfterNaN(number);
  }

  /** `INV-999` is followed by `INV-1000`: the padding only ever adds digits. */
  lemma NumberAfter999()
    ensures NextInvoiceNumber(Some("INV-999")) == "INV-1000"
  {
    var d999 := Text.Decimal(999);
    var d1000 := Text.Decimal(1000);
    assert d999 == "999" by {
      assert Text.Decimal(9) == "9";
      assert Text.Decimal(99) == "99";
    }
    assert d1000 == "1000" by {
      assert Text.Decimal(1) == "1";
      assert Text.Decimal(10) == "10";
      assert Text.Decimal(100) == "100";
    }
    assert Formatted(999) == "INV-999";
    assert Formatted(1000) == "INV-1000";
    NextNumberSucc(999);
  }

  /** The position of the caller's most recently created invoice, if any. */
  function LastOf(invoices: seq<Invoice>, u: Id): (r: Option<nat>)
    ensures r.None? ==> forall i :: 0 <= i < |invoices| ==> invoices[i].owner != u
    ensures r.Some? ==> r.value < |invoices| && invoices[r.value].owner == u
    ensures r.Some? ==> forall j :: r.value < j < |invoices| ==> invoices[j].owner != u
  {
    if invoices == [] then None
    else if invoices[|invoices| - 1].owner == u then Some(|invoices| - 1)
    else LastOf(invoices[..|invoices| - 1], u)
  }

  /** `lastInvoice?.invoiceNumber`. */
  function LastNumber(invoices: seq<Invoice>, u: Id): Option<string>
  {
    match LastOf(invoices, u)
    case None => None
    case Some(i) => Some(invoices[i].number)
  }

  // ---------------------------------------------------------------------------------------------
  // GST figures

  /** One requested line. */
  datatype ItemInput = ItemInput(description: string, quantity: real, unitPrice: real)

  /** `exemptFromGst ? 0 : (taxRate !== undefined ? taxRate : 0.15)`. */
  function EffectiveRate(exempt: bool, taxRate: Option<real>): real
  {
    if exempt then 0.0 else taxRate.GetOr(0.15)
  }

  /** The inclusive formula divides by `1 + rate`; the other modes do not divide. */
  predicate Defined(exempt: bool, inclusive: bool, rate: real)
  {
    exempt || !inclusive || 1.0 + rate != 0.0
  }

  /** The GST on an amount: none when exempt, `amount / (1 + rate) * rate` inclusive, `amount * rate` exclusive. */
  function TaxOn(amount: real, exempt: bool, inclusive: bool, rate: real): real
    requires Defined(exempt, inclusive, rate)
  {
    if exempt then 0.0 else if inclusive then amount / (1.0 + rate) * rate else amount * rate
  }

  function LineTotal(item: ItemInput): real
  {
    item.quantity * item.unitPrice
  }

  /**
   * The stored line for one requested line: its description, quantity and price, the total
   * quantity × price, the effective rate, and the GST on that total (none when exempt).
   */
  function ProcessItem(item: ItemInput, exempt: bool, inclusive: bool, rate: real): (r: InvoiceItem)
    requires Defined(exempt, inclusive, rate)
    ensures r.description == item.description && r.quantity == item.quantity && r.unitPrice == item.unitPrice
    ensures r.total == item.quantity * item.unitPrice && r.taxRate == rate
    ensures r.taxAmount == TaxOn(r.total, exempt, inclusive, rate) && (exempt ==> r.taxAmount == 0.0)
  {
    InvoiceItem(item.description, item.quantity, item.unitPrice, LineTotal(item), rate,
                TaxOn(LineTotal(item), exempt, inclusive, rate))
  }

  /** `items.map(...)`: one stored line per requested line, in order, each `ProcessItem` of it. */
  function ProcessItems(items: seq<ItemInput>, exempt: bool, inclusive: bool, rate: real): (r: seq<InvoiceItem>)
    requires Defined(exempt, inclusive, rate)
    ensures |r| == |items|
    ensures forall i :: 0 <= i < |items| ==> r[i] == ProcessItem(items[i], exempt, inclusive, rate)
  {
    if items == [] then []
    else ProcessItems(items[..|items| - 1], exempt, inclusive, rate) + [ProcessItem(items[|items| - 1], exempt, inclusive, rate)]
  }

  /** `itemSubtotal`: the line totals added up in order. */
  function ItemsSubtotal(items: seq<ItemInput>): real
  {
    if items == [] then 0.0 else ItemsSubtotal(items[..|items| - 1]) + LineTotal(items[|items| - 1])
  }

  /** The stored lines' tax amounts added up. */
  function TaxSum(lines: seq<InvoiceItem>): real
  {
    if lines == [] then 0.0 else TaxSum(lines[..|lines| - 1]) + lines[|lines| - 1].taxAmount
  }

  datatype Figures = Figures(subtotal: real, taxAmount: real, total: real)

  /** The invoice-level `subtotal`, `taxAmount` and `total` computed from the items' sum `s`. */
  function InvoiceFigures(s: real, exempt: bool, inclusive: bool, rate: real): Figures
    requires Defined(exempt, inclusive, rate)
  {
    if exempt then Figures(s, 0.0, s)
    else if inclusive then Figures(s - s / (1.0 + rate) * rate, s / (1.0 + rate) * rate, s)
    else Figures(s, s * rate, s + s * rate)
  }

  /**
   * In every mode subtotal + tax = total and the tax is the GST on the items' sum; the items'
   * sum is the total when the prices include GST or there is none, and the subtotal otherwise.
   */
  lemma FiguresSpec(s: real, exempt: bool, inclusive: bool, rate: real)
    requires Defined(exempt, inclusive, rate)
    ensures var f := InvoiceFigures(s, exempt, inclusive, rate);
            && f.subtotal + f.taxAmount == f.total
            && f.taxAmount == TaxOn(s, exempt, inclusive, rate)
            && (exempt ==> f.taxAmount == 0.0 && f.subtotal == s && f.total == s)
            && (!exempt && inclusive ==> f.total == s)
            && (!exempt && !inclusive ==> f.subtotal == s && f.total == s * (1.0 + rate))
  {
  }

  /** The GST on a sum is the sum of the GSTs. */
  lemma TaxOnAdditive(a: real, b: real, exempt: bool, inclusive: bool, rate: real)
    requires Defined(exempt, inclusive, rate)
    ensures TaxOn(a + b, exempt, inclusive, rate) == TaxOn(a, exempt, inclusive, rate) + TaxOn(b, exempt, inclusive, rate)
  {
    if !exempt && inclusive {
      var q := 1.0 + rate;
      assert (a + b) / q == a / q + b / q;
    }
  }

  lemma TaxOnZero(exempt: bool, inclusive: bool, rate: real)
    requires Defined(exempt, inclusive, rate)
    ensures TaxOn(0.0, exempt, inclusive, rate) == 0.0
  {
    if !exempt && inclusive {
      assert 0.0 / (1.0 + rate) == 0.0;
    }
  }

  /** The items' taxes add up to the GST on the items' sum. */
  lemma {:induction false} TaxSumItems(items: seq<ItemInput>, exempt: bool, inclusive: bool, rate: real)
    requires Defined(exempt, inclusive, rate)
    ensures TaxSum(ProcessItems(items, exempt, inclusive, rate)) == TaxOn(ItemsSubtotal(items), exempt, inclusive, rate)
  {
    if items == [] {
      TaxOnZero(exempt, inclusive, rate);
    } else {
      var init := items[..|items| - 1];
      var last := items[|items| - 1];
      var lines := ProcessItems(items, exempt, inclusive, rate);
      assert lines[..|lines| - 1] == ProcessItems(init, exempt, inclusive, rate);
      assert lines[|lines| - 1].taxAmount == TaxOn(LineTotal(last), exempt, inclusive, rate);
      TaxSumItems(init, exempt, inclusive, rate);
      TaxOnAdditive(ItemsSubtotal(init), LineTotal(last), exempt, inclusive, rate);
    }
  }

  /** In exact arithmetic the items' taxes add up to the invoice's tax. */
  lemma ItemTaxesAddUp(items: seq<ItemInput>, exempt: bool, inclusive: bool, rate: real)
    requires Defined(exempt, inclusive, rate)
    ensures TaxSum(ProcessItems(items, exempt, inclusive, rate)) ==
              InvoiceFigures(ItemsSubtotal(items), exempt, inclusive, rate).taxAmount
  {
    TaxSumItems(items, exempt, inclusive, rate);
    FiguresSpec(ItemsSubtotal(items), exempt, inclusive, rate);
  }

  /** `Math.round(100 * x)`: an amount in whole cents. */
  function Cents(x: real): int
  {
    (100.0 * x + 0.5).Floor
  }

  /** The demo data's GST-inclusive invoice: 40 × 100 and 1 × 1000 at 15% give 521.74 + 130.43 = 652.17 GST on 5000. */
  lemma InclusiveExample()
    ensures var items := [ItemInput("Strategic Business Consulting", 40.0, 100.0), ItemInput("Market Analysis Report", 1.0, 1000.0)];
            var lines := ProcessItems(items, false, true, 0.15);
            var f := InvoiceFigures(ItemsSubtotal(items), false, true, 0.15);
            && Cents(lines[0].taxAmount) == 52174 && Cents(lines[1].taxAmount) == 13043
            && Cents(f.taxAmount) == 65217 && Cents(f.subtotal) == 434783 && f.total == 5000.0
  {
    var items := [ItemInput("Strategic Business Consulting", 40.0, 100.0), ItemInput("Market Analysis Report", 1.0, 1000.0)];
    assert items[..1][..0] == [];
    assert ItemsSubtotal(items) == 5000.0;
  }

  /** The demo data's GST-exclusive invoice: 3000 at 15% gives 450 GST and 3450 in total. */
  lemma ExclusiveExample()
    ensures InvoiceFigures(3000.0, false, false, 0.15) == Figures(3000.0, 450.0, 3450.0)
  {
  }

  /** The loop of the route: each line's figures, its total added to `itemSubtotal`, then the invoice figures per mode. */
  method ComputeTotals(items: seq<ItemInput>, exempt: bool, inclusive: bool, rate: real)
    returns (lines: seq<InvoiceItem>, f: Figures)
    requires Defined(exempt, inclusive, rate)
    ensures lines == ProcessItems(items, exempt, inclusive, rate)
    ensures f == InvoiceFigures(ItemsSubtotal(items), exempt, inclusive, rate)
  {
    var itemSubtotal := 0.0;
    lines := [];
    var i := 0;
    while i < |items|
      invariant 0 <= i <= |items|
      invariant lines == ProcessItems(items[..i], exempt, inclusive, rate)
      invariant itemSubtotal == ItemsSubtotal(items[..i])
    {
      var itemTotal := items[i].quantity * items[i].unitPrice;
      itemSubtotal := itemSubtotal + itemTotal;
      var itemTaxAmount := 0.0;
      if !exempt {
        if inclusive {
          itemTaxAmount := itemTotal / (1.0 + rate) * rate;
        } else {
          itemTaxAmount := itemTotal * rate;
        }
      }
      assert InvoiceItem(items[i].description, items[i].quantity, items[i].unitPrice, itemTotal, rate, itemTaxAmount)
        == ProcessItem(items[i], exempt, inclusive, rate);
      lines := lines + [InvoiceItem(items[i].description, items[i].quantity, items[i].unitPrice, itemTotal, rate, itemTaxAmount)];
      assert items[..i + 1][..i] == items[..i];
      i := i + 1;
    }
    assert items[..i] == items;
    var taxAmount := 0.0;
    var subtotal := itemSubtotal;
    var total := itemSubtotal;
    if !exempt {
      if inclusive {
        taxAmount := itemSubtotal / (1.0 + rate) * rate;
        subtotal := itemSubtotal - taxAmount;
        total := itemSubtotal;
      } else {
        taxAmount := itemSubtotal * rate;
        subtotal := itemSubtotal;
        total := itemSubtotal + taxAmount;
      }
    }
    f := Figures(subtotal, taxAmount, total);
  }

  // ---------------------------------------------------------------------------------------------
  // The route

  /** The request body; dates are milliseconds, an absent field is `None` or empty. */
  datatype PostRequest = PostRequest(
    customerId: Option<Id>, issueDate: Option<int>, dueDate: Option<int>, items: seq<ItemInput>,
    notes: string, termsConditions: string, taxRate: Option<real>,
    gstInclusive: Option<bool>, exemptFromGst: Option<bool>)

  const MissingFields := "Customer, issue date, and at least one item are required"
  const NoCustomer := "Customer not found"
  const DayMillis := 24 * 60 * 60 * 1000

  function Exempt(req: PostRequest): bool { req.exemptFromGst.GetOr(false) }
  function Inclusive(req: PostRequest): bool { req.gstInclusive.GetOr(true) }
  function Rate(req: PostRequest): real { EffectiveRate(Exempt(req), req.taxRate) }

  function Rejection(customers: map<Id, Customer>, session: Option<Id>, req: PostRequest): Option<ApiError>
  {
    if session.None? then Some(Unauthorized)
    else if req.customerId.None? || req.issueDate.None? || req.items == [] then Some(BadRequest(MissingFields))
    else if !(req.customerId.value in customers && customers[req.customerId.value].owner == session.value) then
      Some(NotFound(NoCustomer))
    else None
  }

  /**
   * An invoice is created exactly when the caller is signed in, customer, issue date and at least
   * one item are given, and the customer is one of the caller's own; a customer of another tenant
   * is reported as not found.
   */
  lemma RejectionSpec(customers: map<Id, Customer>, session: Option<Id>, req: PostRequest)
    ensures Rejection(customers, session, req).None? <==>
              && session.Some? && req.customerId.Some? && req.issueDate.Some? && |req.items| > 0
              && req.customerId.value in customers && customers[req.customerId.value].owner == session.value
    ensures session.Some? && req.customerId.Some? && req.issueDate.Some? && |req.items| > 0
              && req.customerId.value in customers && customers[req.customerId.value].owner != session.value ==>
              Rejection(customers, session, req) == Some(NotFound(NoCustomer))
  {
  }

  /** The stored invoice: numbered after the caller's last one, due after the customer's payment terms unless given. */
  function NewInvoice(id: Id, caller: Id, number: string, customer: Customer, req: PostRequest,
                      lines: seq<InvoiceItem>, f: Figures): (inv: Invoice)
    requires req.customerId.Some? && req.issueDate.Some?
  {
    Invoice(id, caller, number, req.customerId.value, req.issueDate.value,
            req.dueDate.GetOr(req.issueDate.value + customer.paymentTerms * DayMillis),
            "DRAFT", f.subtotal, Rate(req), f.taxAmount, f.total, 0.0,
            Inclusive(req), Exempt(req), req.notes, req.termsConditions, lines)
  }

  method Post(db: Db, session: Option<Id>, req: PostRequest) returns (r: Result<Invoice, ApiError>)
    requires db.Valid() && SessionOk(db, session)
    requires Defined(Exempt(req), Inclusive(req), Rate(req))
    modifies db
    ensures db.Valid()
    ensures r.Err? <==> Rejection(old(db.customers), session, req).Some?
    ensures r.Err? ==> r.error == Rejection(old(db.customers), session, req).value && unchanged(db)
    ensures r.Ok? ==>
              && session.Some? && req.customerId.Some? && req.issueDate.Some?
              && req.customerId.value in old(db.customers)
              && r.value == NewInvoice(old(db.nextId), session.value, NextInvoiceNumber(LastNumber(old(db.invoices), session.value)),
                                       old(db.customers)[req.customerId.value], req,
                                       ProcessItems(req.items, Exempt(req), Inclusive(req), Rate(req)),
                                       InvoiceFigures(ItemsSubtotal(req.items), Exempt(req), Inclusive(req), Rate(req)))
              && r.value.subtotal + r.value.taxAmount == r.value.total
              && db.State() == old(db.State()).(invoices := old(db.invoices) + [r.value], nextId := old(db.nextId) + 1)
  {
    var rejection := Rejection(db.customers, session, req);
    if rejection.Some? {
      return Err(rejection.value);
    }
    var u := session.value;
    var customer := db.customers[req.customerId.value];
    var number := NextInvoiceNumber(LastNumber(db.invoices, u));
    var lines, f := ComputeTotals(req.items, Exempt(req), Inclusive(req), Rate(req));
    FiguresSpec(ItemsSubtotal(req.items), Exempt(req), Inclusive(req), Rate(req));
    var inv := NewInvoice(db.nextId, u, number, customer, req, lines, f);
    AddInvoiceConsistent(db.State(), inv);
    db.invoices, db.nextId := db.invoices + [inv], db.nextId + 1;
    r := Ok(inv);
  }
}
