/** The customers page: avatar initials, the guards of the save handler, and when delete is offered. */
module CustomersPage {
  import opened Wrappers
  import opened Ledger
  import Seqs
  import Text
  import CustomersRoute

  // ---------------------------------------------------------------- initials

  /** `words.map(word => word[0]).join('')`: an empty word's `undefined` joins as nothing. */
  function Heads(words: seq<string>): string
  {
    if words == [] then [] else (if words[0] == [] then [] else [words[0][0]]) + Heads(words[1..])
  }

  predicate NonEmpty(word: string)
  {
    word != []
  }

  /** `getCustomerInitials`: split on spaces, first characters joined, the first two kept, upper-cased. */
  function Initials(name: string): (r: string)
    ensures |r| <= 2
  {
    var heads := Heads(Text.Split(name, ' '));
    Text.Upper(if |heads| <= 2 then heads else heads[..2])
  }

  /** The joined first characters are those of the non-empty words, in order. */
  lemma {:induction false} HeadsOfWords(words: seq<string>)
    ensures |Heads(words)| == |Seqs.Filter(words, NonEmpty)|
    ensures forall i :: 0 <= i < |Heads(words)| ==> Heads(words)[i] == Seqs.Filter(words, NonEmpty)[i][0]
  {
    if words != [] {
      var rest := words[1..];
      HeadsOfWords(rest);
      var f, g := Seqs.Filter(words, NonEmpty), Seqs.Filter(rest, NonEmpty);
      assert f == (if NonEmpty(words[0]) then [words[0]] else []) + g;
      assert Heads(words) == (if words[0] == [] then [] else [words[0][0]]) + Heads(rest);
    }
  }

  /** The initials are the upper-cased first characters of the first two non-empty words of the name. */
  lemma InitialsSpec(name: string)
    ensures var words := Seqs.Filter(Text.Split(name, ' '), NonEmpty);
            && (words == [] ==> Initials(name) == [])
            && (|words| == 1 ==> Initials(name) == Text.Upper([words[0][0]]))
            && (|words| >= 2 ==> Initials(name) == Text.Upper([words[0][0], words[1][0]]))
  {
    var words := Seqs.Filter(Text.Split(name, ' '), NonEmpty);
    HeadsOfWords(Text.Split(name, ' '));
    var heads := Heads(Text.Split(name, ' '));
    assert |heads| == |words|;
    if |words| >= 2 {
      assert heads[..2] == [words[0][0], words[1][0]];
    } else if |words| == 1 {
      assert heads == [words[0][0]];
    }
  }

  // ---------------------------------------------------------------- saving

  /** The dialog's form; a new customer starts from `BlankForm`. */
  datatype CustomerForm = CustomerForm(
    name: string, email: string, phone: string, address: string, city: string, state: string,
    postalCode: string, country: string, companyName: string, taxNumber: string, paymentTerms: int)

  const BlankForm := CustomerForm("", "", "", "", "", "", "", "New Zealand", "", "", 30)

  const NameRequired := "Customer name is required"

  /** `POST /api/customers` for a new customer, `PUT /api/customers/{id}` for the one being edited. */
  datatype SaveRequest = Create(body: CustomerForm) | Update(id: Id, body: CustomerForm)

  datatype SaveStart = Ignored | Rejected(message: string) | Sent(request: SaveRequest)

  /**
   * `handleSaveCustomer` up to the request: nothing happens while a save is in progress, an empty
   * name is refused without a request, and otherwise the form is sent to create or to update.
   */
  function StartSave(saving: bool, form: CustomerForm, editing: Option<Id>): (r: SaveStart)
    ensures saving ==> r == Ignored
    ensures !saving && form.name == [] ==> r == Rejected(NameRequired)
    ensures r.Sent? <==> !saving && form.name != []
    ensures r.Sent? ==> r.request.body == form && (r.request.Update? <==> editing.Some?)
  {
    if saving then Ignored
    else if form.name == [] then Rejected(NameRequired)
    else if editing.Some? then Sent(Update(editing.value, form))
    else Sent(Create(form))
  }

  /** The body of the create request as the route reads it. */
  function AsPostRequest(form: CustomerForm): CustomersRoute.PostRequest
  {
    CustomersRoute.PostRequest(form.name, form.email, form.phone, form.address, form.city, form.state,
                               form.postalCode, form.country, form.companyName, form.taxNumber, form.paymentTerms)
  }

  /**
   * A create request the page sends never fails the route's name check, and a blank form filled in
   * with only a name is stored with the page's own defaults for country and payment terms.
   */
  lemma SentCreatePassesNameCheck(saving: bool, form: CustomerForm, customers: map<Id, Customer>, caller: Id, id: Id)
    requires StartSave(saving, form, None).Sent?
    ensures CustomersRoute.Rejection(customers, Some(caller), AsPostRequest(form)) != Some(BadRequest(CustomersRoute.MissingName))
    ensures form == BlankForm.(name := form.name) ==>
              var c := CustomersRoute.NewCustomer(id, caller, AsPostRequest(form));
              c.country == CustomersRoute.DefaultCountry && c.paymentTerms == CustomersRoute.DefaultPaymentTerms
  {
  }

  // ---------------------------------------------------------------- delete

  /** `customer._count.invoices`, as the list route reports it. */
  function InvoiceCount(invoices: seq<Invoice>, c: Id): nat
  {
    |CustomersRoute.InvoicesOf(invoices, c)|
  }

  /** The delete button is disabled when `invoiceCount > 0`. */
  predicate DeleteEnabled(invoiceCount: int)
  {
    !(invoiceCount > 0)
  }

  /** Delete is offered exactly for the customers no invoice refers to. */
  lemma DeleteOnlyWithoutInvoices(invoices: seq<Invoice>, c: Id)
    ensures DeleteEnabled(InvoiceCount(invoices, c)) <==> forall i :: 0 <= i < |invoices| ==> invoices[i].customer != c
  {
    var mine := CustomersRoute.InvoicesOf(invoices, c);
    if mine != [] {
      assert mine[0] in invoices;
      var i :| 0 <= i < |invoices| && invoices[i] == mine[0];
    }
  }
}
