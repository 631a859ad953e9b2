/**
 * The quick-entry form: it turns an income, an expense or a transfer into a two-account journal
 * entry for the transactions route, choosing the counter-account from the caller's chart.
 */
module QuickEntry {
  import opened Wrappers
  import opened Ledger
  import Seqs
  import Text
  import TransactionsRoute
  import DashboardSummary

  datatype EntryKind = Income | Spending | Transfer

  /** The form's fields; an unselected account or category is `None`, an empty reference `""`. */
  datatype Entry = Entry(
    date: int, description: string, amount: real, account: Option<Id>, category: Option<Id>,
    reference: string, transferTo: Option<Id>)

  const FillIn := "Please fill in all required fields"
  const NoDestination := "Please select a destination account for the transfer"
  const SameAccounts := "Source and destination accounts must be different"
  const NoRevenue := "No revenue account found. Please create a revenue account first."
  const NoExpense := "No expense account found. Please create an expense account first."

  /** `a.name.toLowerCase().includes(word)`. */
  predicate NameHas(a: Account, word: string)
  {
    Text.Includes(Text.Lower(a.name), word)
  }

  function OrElse(first: Option<Account>, second: Option<Account>): Option<Account>
  {
    if first.Some? then first else second
  }

  /** `categories.find(cat => cat.id === categoryId)`, when a category is selected. */
  function SelectedCategory(categories: seq<Category>, category: Option<Id>): Option<Category>
  {
    if category.None? then None else Seqs.Find(categories, (c: Category) => c.id == category.value)
  }

  /** The revenue account matched through a "sales" or "service" category, if any. */
  function RevenueByCategory(accounts: seq<Account>, c: Option<Category>): Option<Account>
  {
    if c.None? then None
    else if Text.Includes(Text.Lower(c.value.name), "sales") then
      Seqs.Find(accounts, (a: Account) => a.kind == Revenue && NameHas(a, "sales"))
    else if Text.Includes(Text.Lower(c.value.name), "service") then
      Seqs.Find(accounts, (a: Account) => a.kind == Revenue && NameHas(a, "service"))
    else None
  }

  /** The income's credit account: the category match, else the first revenue account. */
  function RevenueFor(accounts: seq<Account>, categories: seq<Category>, category: Option<Id>): (r: Option<Account>)
    ensures r.Some? ==> r.value in accounts && r.value.kind == Revenue
    ensures r.None? <==> forall i :: 0 <= i < |accounts| ==> accounts[i].kind != Revenue
  {
    OrElse(RevenueByCategory(accounts, SelectedCategory(categories, category)),
           Seqs.Find(accounts, (a: Account) => a.kind == Revenue))
  }

  /** The expense account whose name contains the whole category name, or any of its words. */
  function ExpenseByCategory(accounts: seq<Account>, c: Option<Category>): Option<Account>
  {
    if c.None? then None
    else
      var name := Text.Lower(c.value.name);
      var words := Text.Split(name, ' ');
      OrElse(Seqs.Find(accounts, (a: Account) => a.kind == Expense && NameHas(a, name)),
             Seqs.Find(accounts, (a: Account) => a.kind == Expense && exists w :: w in words && NameHas(a, w)))
  }

  /**
   * The expense's debit account by the four-step fallback: the whole category name, any word of it,
   * "general" or "expense" in the name, and finally the first expense account.
   */
  function ExpenseFor(accounts: seq<Account>, categories: seq<Category>, category: Option<Id>): (r: Option<Account>)
    ensures r.Some? ==> r.value in accounts && r.value.kind == Expense
    ensures r.None? <==> forall i :: 0 <= i < |accounts| ==> accounts[i].kind != Expense
  {
    var general := Seqs.Find(accounts, (a: Account) => a.kind == Expense && (NameHas(a, "general") || NameHas(a, "expense")));
    OrElse(OrElse(ExpenseByCategory(accounts, SelectedCategory(categories, category)), general),
           Seqs.Find(accounts, (a: Account) => a.kind == Expense))
  }

  /** Without a category the choice is the first general or expense-named expense account, else the first expense account. */
  lemma ExpenseWithoutCategory(accounts: seq<Account>, categories: seq<Category>)
    ensures ExpenseFor(accounts, categories, None) ==
              OrElse(Seqs.Find(accounts, (a: Account) => a.kind == Expense && (NameHas(a, "general") || NameHas(a, "expense"))),
                     Seqs.Find(accounts, (a: Account) => a.kind == Expense))
    ensures RevenueFor(accounts, categories, None) == Seqs.Find(accounts, (a: Account) => a.kind == Revenue)
  {
  }

  /**
   * With a selected category: a "sales" category takes the first REVENUE account named for sales,
   * otherwise a "service" category the first one named for service; when the preferred kind of
   * account does not exist (or the category mentions neither), the first REVENUE account is taken.
   */
  lemma RevenueWithCategory(accounts: seq<Account>, categories: seq<Category>, category: Option<Id>, c: Category)
    requires SelectedCategory(categories, category) == Some(c)
    ensures var sales := Text.Includes(Text.Lower(c.name), "sales");
            var service := Text.Includes(Text.Lower(c.name), "service");
            var salesAccount := exists i :: 0 <= i < |accounts| && accounts[i].kind == Revenue && NameHas(accounts[i], "sales");
            var serviceAccount := exists i :: 0 <= i < |accounts| && accounts[i].kind == Revenue && NameHas(accounts[i], "service");
            && (sales && salesAccount ==>
                  RevenueFor(accounts, categories, category) == Seqs.Find(accounts, (a: Account) => a.kind == Revenue && NameHas(a, "sales")))
            && (!sales && service && serviceAccount ==>
                  RevenueFor(accounts, categories, category) == Seqs.Find(accounts, (a: Account) => a.kind == Revenue && NameHas(a, "service")))
            && (!(sales && salesAccount) && !(!sales && service && serviceAccount) ==>
                  RevenueFor(accounts, categories, category) == Seqs.Find(accounts, (a: Account) => a.kind == Revenue))
  {
  }

  /** The request body: `reference || null` and `categoryId || null` are the route's empty values. */
  function Body(e: Entry, debit: Id, credit: Id): TransactionsRoute.PostRequest
  {
    TransactionsRoute.PostRequest(Some(e.date), e.description, e.reference, e.amount, Some(debit), Some(credit), e.category)
  }

  /** `handleSave`: the checks in their order, then the debit and credit accounts for the kind of entry. */
  function Save(kind: EntryKind, e: Entry, accounts: seq<Account>, categories: seq<Category>): Result<TransactionsRoute.PostRequest, string>
  {
    if e.description == "" || e.account.None? || e.amount <= 0.0 then Err(FillIn)
    else if kind == Transfer && e.transferTo.None? then Err(NoDestination)
    else if kind == Transfer && e.account == e.transferTo then Err(SameAccounts)
    else
      match kind
      case Income =>
        var revenue := RevenueFor(accounts, categories, e.category);
        if revenue.None? then Err(NoRevenue) else Ok(Body(e, e.account.value, revenue.value.id))
      case Spending =>
        var expense := ExpenseFor(accounts, categories, e.category);
        if expense.None? then Err(NoExpense) else Ok(Body(e, expense.value.id, e.account.value))
      case Transfer => Ok(Body(e, e.transferTo.value, e.account.value))
  }

  /**
   * Nothing is sent without a description, an account and a positive amount; a transfer needs a
   * different destination; income needs a revenue account and spending an expense account. What is
   * sent debits the chosen account for income, credits it for spending, and moves a transfer from the
   * source to the destination; the counter-account is one of the loaded accounts of the required type.
   */
  lemma SaveSpec(kind: EntryKind, e: Entry, accounts: seq<Account>, categories: seq<Category>)
    ensures var r := Save(kind, e, accounts, categories);
            && (e.description == "" || e.account.None? || e.amount <= 0.0 ==> r == Err(FillIn))
            && (r.Ok? <==>
                  && e.description != "" && e.account.Some? && e.amount > 0.0
                  && (kind == Transfer ==> e.transferTo.Some? && e.transferTo != e.account)
                  && (kind == Income ==> exists i :: 0 <= i < |accounts| && accounts[i].kind == Revenue)
                  && (kind == Spending ==> exists i :: 0 <= i < |accounts| && accounts[i].kind == Expense))
            && (r.Ok? ==>
                  && r.value.amount == e.amount && r.value.description == e.description
                  && r.value.debitAccount.Some? && r.value.creditAccount.Some?
                  && (kind == Income ==>
                        r.value.debitAccount == e.account
                        && exists a :: a in accounts && a.kind == Revenue && r.value.creditAccount == Some(a.id))
                  && (kind == Spending ==>
                        r.value.creditAccount == e.account
                        && exists a :: a in accounts && a.kind == Expense && r.value.debitAccount == Some(a.id))
                  && (kind == Transfer ==> r.value.debitAccount == e.transferTo && r.value.creditAccount == e.account))
  {
    var r := Save(kind, e, accounts, categories);
    if r.Ok? && kind == Income {
      var a := RevenueFor(accounts, categories, e.category).value;
      assert a in accounts && a.kind == Revenue && r.value.creditAccount == Some(a.id);
    }
    if r.Ok? && kind == Spending {
      var a := ExpenseFor(accounts, categories, e.category).value;
      assert a in accounts && a.kind == Expense && r.value.debitAccount == Some(a.id);
    }
  }

  /** An asset account whose lower-cased name mentions cash, bank, checking or savings. */
  predicate IsCashAccount(a: Account)
  {
    a.kind == Asset && (NameHas(a, "cash") || NameHas(a, "bank") || NameHas(a, "checking") || NameHas(a, "savings"))
  }

  /** `getCashAccounts`: exactly the loaded cash-like asset accounts. */
  function CashAccounts(accounts: seq<Account>): (r: seq<Account>)
    ensures forall i :: 0 <= i < |r| ==> r[i] in accounts && r[i].kind == Asset
    ensures forall a :: a in r <==>
              (a in accounts && a.kind == Asset &&
               (NameHas(a, "cash") || NameHas(a, "bank") || NameHas(a, "checking") || NameHas(a, "savings")))
  {
    Seqs.Filter(accounts, IsCashAccount)
  }

  /** The filter keeps the input order: the cash accounts of a concatenation are those of each part, in turn. */
  lemma {:induction false} CashAccountsAppend(xs: seq<Account>, ys: seq<Account>)
    ensures CashAccounts(xs + ys) == CashAccounts(xs) + CashAccounts(ys)
  {
    if xs == [] {
      assert xs + ys == ys;
    } else {
      assert (xs + ys)[1..] == xs[1..] + ys;
      CashAccountsAppend(xs[1..], ys);
    }
  }

  /** Every account the dashboard counts as cash is offered by the form, and the form offers only assets. */
  lemma CashAccountsCoverDashboard(accounts: seq<Account>)
    ensures forall a :: a in accounts && DashboardSummary.IsCash(a) ==> a in CashAccounts(accounts)
  {
  }

  /** The loaded accounts are rows of the store, all of tenant `u`. */
  ghost predicate LoadedFrom(store: map<Id, Account>, u: Id, accounts: seq<Account>)
  {
    forall i :: 0 <= i < |accounts| ==> accounts[i].id in store && store[accounts[i].id] == accounts[i] && accounts[i].owner == u
  }

  /**
   * When the account comes from the form's cash list and a transfer's destination from the loaded
   * accounts, and the category (if any) is the caller's, every request the form sends passes all
   * the checks of the transactions route.
   */
  lemma SentEntryAccepted(
    kind: EntryKind, e: Entry, accounts: seq<Account>, categories: seq<Category>,
    store: map<Id, Account>, categoryStore: map<Id, Category>, u: Id)
    requires LoadedFrom(store, u, accounts)
    requires e.account.Some? ==> exists a :: a in CashAccounts(accounts) && a.id == e.account.value
    requires e.transferTo.Some? ==> exists a :: a in accounts && a.id == e.transferTo.value
    requires TransactionsRoute.CategoryOwned(categoryStore, u, e.category)
    requires Save(kind, e, accounts, categories).Ok?
    ensures TransactionsRoute.Rejection(store, categoryStore, Some(u), Save(kind, e, accounts, categories).value).None?
  {
    var req := Save(kind, e, accounts, categories).value;
    SaveSpec(kind, e, accounts, categories);
    var src :| src in CashAccounts(accounts) && src.id == e.account.value;
    assert src in accounts && src.kind == Asset;
    match kind {
      case Income =>
        var a :| a in accounts && a.kind == Revenue && req.creditAccount == Some(a.id);
        assert store[a.id] == a && store[src.id] == src;
      case Spending =>
        var a :| a in accounts && a.kind == Expense && req.debitAccount == Some(a.id);
        assert store[a.id] == a && store[src.id] == src;
      case Transfer =>
        var dst :| dst in accounts && dst.id == e.transferTo.value;
        assert store[dst.id] == dst && store[src.id] == src;
    }
    TransactionsRoute.RejectionSpec(store, categoryStore, Some(u), req);
  }
}
