/**
 * `/api/customers`: `POST` creates a customer with a per-tenant unique email and defaults for
 * country and payment terms; `GET` lists the caller's customers with invoice totals, paginated.
 */
module CustomersRoute {
  import opened Wrappers
  import opened Ledger
  import Seqs

  /** The request body; an absent text field is `""`, absent or zero payment terms are `0`. */
  datatype PostRequest = PostRequest(
    name: string, email: string, phone: string, address: string, city: string, state: string,
    postalCode: string, country: string, companyName: string, taxNumber: string, paymentTerms: int)

  const MissingName := "Customer name is required"
  const EmailExists := "Customer with this email already exists"
  const DefaultCountry := "New Zealand"
  const DefaultPaymentTerms := 30

  /** `findFirst({ userId, email })` finds a row. */
  predicate EmailTaken(customers: map<Id, Customer>, caller: Id, email: string)
  {
    exists k :: k in customers && customers[k].owner == caller && customers[k].email == email
  }

  function Rejection(customers: map<Id, Customer>, session: Option<Id>, req: PostRequest): Option<ApiError>
  {
    if session.None? then Some(Unauthorized)
    else if req.name == "" then Some(BadRequest(MissingName))
    else if req.email != "" && EmailTaken(customers, session.value, req.email) then Some(BadRequest(EmailExists))
    else None
  }

  /**
   * A customer is created exactly when the caller is signed in, a name is given, and the email
   * is absent or not used by another customer of the same caller; other tenants' customers never block it.
   */
  lemma RejectionSpec(customers: map<Id, Customer>, session: Option<Id>, req: PostRequest)
    ensures Rejection(customers, session, req).None? <==>
              && session.Some? && req.name != ""
              && (req.email == "" ||
                  forall k :: k in customers && customers[k].owner == session.value ==> customers[k].email != req.email)
    ensures session.Some? && req.name == "" ==> Rejection(customers, session, req) == Some(BadRequest(MissingName))
  {
  }

  /** The row written by `create`: the given fields, with `country || 'New Zealand'` and `paymentTerms || 30`. */
  function NewCustomer(id: Id, caller: Id, req: PostRequest): (c: Customer)
    ensures c.id == id && c.owner == caller && c.name == req.name && c.email == req.email
    ensures c.country != "" && (req.country != "" ==> c.country == req.country)
    ensures c.paymentTerms != 0 && (req.paymentTerms != 0 ==> c.paymentTerms == req.paymentTerms)
  {
    Customer(id, caller, req.name, req.email, req.phone, req.address, req.city, req.state, req.postalCode,
             if req.country == "" then DefaultCountry else req.country,
             req.companyName, req.taxNumber,
             if req.paymentTerms == 0 then DefaultPaymentTerms else req.paymentTerms)
  }

  /** The defaults apply exactly to the absent fields: zero terms become 30, no country becomes New Zealand. */
  lemma NewCustomerDefaults(id: Id, caller: Id, req: PostRequest)
    ensures req.country == "" ==> NewCustomer(id, caller, req).country == DefaultCountry
    ensures req.paymentTerms == 0 ==> NewCustomer(id, caller, req).paymentTerms == DefaultPaymentTerms
  {
  }

  method Post(db: Db, session: Option<Id>, req: PostRequest) returns (r: Result<Customer, ApiError>)
    requires db.Valid() && SessionOk(db, session)
    modifies db
    ensures db.Valid()
    ensures r.Err? <==> Rejection(old(db.customers), session, req).Some?
    ensures r.Err? ==> r.error == Rejection(old(db.customers), session, req).value && unchanged(db)
    ensures r.Ok? ==>
              && session.Some?
              && r.value == NewCustomer(old(db.nextId), session.value, req)
              && db.State() == old(db.State()).(customers := old(db.customers)[r.value.id := r.value], nextId := old(db.nextId) + 1)
  {
    var rejection := Rejection(db.customers, session, req);
    if rejection.Some? {
      return Err(rejection.value);
    }
    var c := NewCustomer(db.nextId, session.value, req);
    ghost var s := db.State();
    AddCustomerConsistent(s, c);
    db.customers, db.nextId := db.customers[c.id := c], db.nextId + 1;
    r := Ok(c);
  }

  /** `invoices.reduce((sum, inv) => sum + Number(inv.total), 0)`. */
  function SumTotals(invoices: seq<Invoice>): real
  {
    if invoices == [] then 0.0 else SumTotals(invoices[..|invoices| - 1]) + invoices[|invoices| - 1].total
  }

  /** `['SENT', 'VIEWED', 'OVERDUE'].includes(status)`. */
  predicate Outstanding(inv: Invoice)
  {
    inv.status == "SENT" || inv.status == "VIEWED" || inv.status == "OVERDUE"
  }

  /** The invoices of customer `c`, in creation order. */
  function InvoicesOf(invoices: seq<Invoice>, c: Id): seq<Invoice>
  {
    Seqs.Filter(invoices, (inv: Invoice) => inv.customer == c)
  }

  /** `totalInvoiced`: the sum of the totals of all of the customer's invoices. */
  function TotalInvoiced(invoices: seq<Invoice>): real
  {
    SumTotals(invoices)
  }

  /** `totalOutstanding`: full totals of sent, viewed and overdue invoices; `paidAmount` is not deducted. */
  function TotalOutstanding(invoices: seq<Invoice>): real
  {
    SumTotals(Seqs.Filter(invoices, Outstanding))
  }

  lemma {:induction false} SumTotalsAppend(a: seq<Invoice>, b: seq<Invoice>)
    ensures SumTotals(a + b) == SumTotals(a) + SumTotals(b)
  {
    if b != [] {
      var b' := b[..|b| - 1];
      assert (a + b)[..|a + b| - 1] == a + b';
      SumTotalsAppend(a, b');
    } else {
      assert a + b == a;
    }
  }

  lemma {:induction false} SumTotalsNonNegative(invoices: seq<Invoice>)
    requires forall i :: 0 <= i < |invoices| ==> invoices[i].total >= 0.0
    ensures SumTotals(invoices) >= 0.0
  {
    if invoices != [] {
      SumTotalsNonNegative(invoices[..|invoices| - 1]);
    }
  }

  /** Each invoice is counted on exactly one side: outstanding, or not. */
  lemma {:induction false} InvoicedSplits(invoices: seq<Invoice>)
    ensures TotalInvoiced(invoices) ==
              TotalOutstanding(invoices) + SumTotals(Seqs.Filter(invoices, (inv: Invoice) => !Outstanding(inv)))
  {
    var notOut := (inv: Invoice) => !Outstanding(inv);
    if invoices != [] {
      var init := invoices[..|invoices| - 1];
      var last := invoices[|invoices| - 1];
      assert invoices == init + [last];
      InvoicedSplits(init);
      Seqs.FilterSnoc(init, last, Outstanding);
      Seqs.FilterSnoc(init, last, notOut);
      if Outstanding(last) {
        SumTotalsAppend(Seqs.Filter(init, Outstanding), [last]);
      } else {
        SumTotalsAppend(Seqs.Filter(init, notOut), [last]);
      }
    }
  }

  /** With non-negative totals, the outstanding total never exceeds the invoiced total. */
  lemma OutstandingAtMostInvoiced(invoices: seq<Invoice>)
    requires forall i :: 0 <= i < |invoices| ==> invoices[i].total >= 0.0
    ensures 0.0 <= TotalOutstanding(invoices) <= TotalInvoiced(invoices)
  {
    var notOut := Seqs.Filter(invoices, (inv: Invoice) => !Outstanding(inv));
    var out := Seqs.Filter(invoices, Outstanding);
    InvoicedSplits(invoices);
    SumTotalsNonNegative(notOut);
    SumTotalsNonNegative(out);
  }

  /** `take: limit, skip: offset` on the filtered, ordered list. */
  function Page<T>(xs: seq<T>, offset: nat, limit: nat): (r: seq<T>)
    ensures |r| <= limit
    ensures offset <= |xs| ==> r == xs[offset..if offset + limit <= |xs| then offset + limit else |xs|]
    ensures offset > |xs| ==> r == []
  {
    if offset >= |xs| then [] else if offset + limit <= |xs| then xs[offset..offset + limit] else xs[offset..]
  }

  /** `hasMore: offset + limit < total`. */
  predicate HasMore(offset: nat, limit: nat, total: nat)
  {
    offset + limit < total
  }

  /** `hasMore` holds exactly when some row lies beyond the returned page. */
  lemma HasMoreSpec<T>(xs: seq<T>, offset: nat, limit: nat)
    ensures HasMore(offset, limit, |xs|) <==> offset + |Page(xs, offset, limit)| < |xs|
  {
  }
}
