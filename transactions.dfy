/** `POST /api/transactions`: validate a journal entry, record it and apply its two legs atomically. */
module TransactionsRoute {
  import opened Wrappers
  import opened Ledger

  /**
   * The request body after JSON decoding. A field that is absent or falsy (`""`, `0`) is
   * `None`, an empty string or `0.0` as appropriate.
   */
  datatype PostRequest = PostRequest(
    date: Option<int>, description: string, reference: string, amount: real,
    debitAccount: Option<Id>, creditAccount: Option<Id>, category: Option<Id>)

  const MissingFields := "Date, description, amount, debit account, and credit account are required"
  const NonPositive := "Amount must be greater than zero"
  const SameAccount := "Debit and credit accounts must be different"
  const BadAccounts := "Invalid account selection"
  const BadCategory := "Invalid category selection"

  /** Both accounts exist and belong to the caller: `findMany` over the two ids returns two rows. */
  predicate AccountsOwned(accounts: map<Id, Account>, caller: Id, debit: Id, credit: Id)
  {
    debit in accounts && accounts[debit].owner == caller && credit in accounts && accounts[credit].owner == caller
  }

  /** The category, when one is given, exists and belongs to the caller. */
  predicate CategoryOwned(categories: map<Id, Category>, caller: Id, category: Option<Id>)
  {
    category.Some? ==> category.value in categories && categories[category.value].owner == caller
  }

  /** The checks of the route in their order; `None` means the request is accepted. */
  function Rejection(accounts: map<Id, Account>, categories: map<Id, Category>, session: Option<Id>, req: PostRequest): Option<ApiError>
  {
    if session.None? then Some(Unauthorized)
    else if req.date.None? || req.description == "" || req.amount == 0.0 || req.debitAccount.None? || req.creditAccount.None? then
      Some(BadRequest(MissingFields))
    else if req.amount <= 0.0 then Some(BadRequest(NonPositive))
    else if req.debitAccount.value == req.creditAccount.value then Some(BadRequest(SameAccount))
    else if !AccountsOwned(accounts, session.value, req.debitAccount.value, req.creditAccount.value) then
      Some(BadRequest(BadAccounts))
    else if !CategoryOwned(categories, session.value, req.category) then Some(BadRequest(BadCategory))
    else None
  }

  /**
   * A request is accepted exactly when the caller is signed in, every required field is
   * present, the amount is positive, the accounts differ and are the caller's, and so is
   * any category; each failing check yields its own message.
   */
  lemma RejectionSpec(accounts: map<Id, Account>, categories: map<Id, Category>, session: Option<Id>, req: PostRequest)
    ensures Rejection(accounts, categories, session, req).None? <==>
              && session.Some? && req.date.Some? && req.description != "" && req.amount > 0.0
              && req.debitAccount.Some? && req.creditAccount.Some?
              && req.debitAccount.value != req.creditAccount.value
              && AccountsOwned(accounts, session.value, req.debitAccount.value, req.creditAccount.value)
              && CategoryOwned(categories, session.value, req.category)
    ensures session.Some? && (req.date.None? || req.description == "" || req.amount == 0.0 || req.debitAccount.None? || req.creditAccount.None?) ==>
              Rejection(accounts, categories, session, req) == Some(BadRequest(MissingFields))
    ensures session.Some? && req.date.Some? && req.description != "" && req.amount < 0.0
              && req.debitAccount.Some? && req.creditAccount.Some? ==>
              Rejection(accounts, categories, session, req) == Some(BadRequest(NonPositive))
    ensures session.Some? && req.date.Some? && req.description != "" && req.amount > 0.0
              && req.debitAccount.Some? && req.debitAccount == req.creditAccount ==>
              Rejection(accounts, categories, session, req) == Some(BadRequest(SameAccount))
  {
  }

  function Record(caller: Id, id: Id, req: PostRequest): Transaction
    requires req.date.Some? && req.debitAccount.Some? && req.creditAccount.Some?
  {
    Transaction(id, caller, req.date.value, req.description,
                if req.reference == "" then None else Some(req.reference),
                req.amount, req.debitAccount.value, req.creditAccount.value, req.category)
  }

  /**
   * The route. On rejection nothing changes. On acceptance exactly one transaction is
   * appended and the two accounts get their `BalanceChange` increments — the three writes
   * of the database transaction — and nothing else in the store changes.
   */
  method Post(db: Db, session: Option<Id>, req: PostRequest) returns (r: Result<Transaction, ApiError>)
    requires db.Valid() && SessionOk(db, session)
    modifies db
    ensures db.Valid()
    ensures r.Err? <==> Rejection(old(db.accounts), old(db.categories), session, req).Some?
    ensures r.Err? ==> r.error == Rejection(old(db.accounts), old(db.categories), session, req).value && unchanged(db)
    ensures r.Ok? ==>
              && req.date.Some? && req.debitAccount.Some? && req.creditAccount.Some? && session.Some?
              && r.value == Record(session.value, old(db.nextId), req)
              && db.transactions == old(db.transactions) + [r.value]
              && db.accounts == ApplyPosting(old(db.accounts), r.value.debit, r.value.credit, r.value.amount)
              && db.nextId == old(db.nextId) + 1
              && db.users == old(db.users) && db.categories == old(db.categories)
              && db.customers == old(db.customers) && db.invoices == old(db.invoices)
  {
    var rejection := Rejection(db.accounts, db.categories, session, req);
    if rejection.Some? {
      return Err(rejection.value);
    }
    var t := Record(session.value, db.nextId, req);
    PostingConsistent(db.State(), t);
    db.transactions := db.transactions + [t];
    db.accounts := ApplyPosting(db.accounts, t.debit, t.credit, t.amount);
    db.nextId := db.nextId + 1;
    r := Ok(t);
  }

  /**
   * Every accepted posting keeps the accounting identity, for the store as a whole and for
   * the caller's chart, and leaves every other tenant's accounts as they were.
   */
  lemma PostKeepsIdentity(before: map<Id, Account>, categories: map<Id, Category>, session: Option<Id>, req: PostRequest, u: Id)
    requires Rejection(before, categories, session, req).None?
    ensures req.debitAccount.Some? && req.creditAccount.Some?
    ensures var after := ApplyPosting(before, req.debitAccount.value, req.creditAccount.value, req.amount);
            && Net(after, after.Keys) == Net(before, before.Keys)
            && OwnedBy(after, u) == OwnedBy(before, u)
            && Net(after, OwnedBy(after, u)) == Net(before, OwnedBy(before, u))
            && (u != session.value ==> forall k :: k in OwnedBy(before, u) ==> after[k] == before[k])
  {
    var d, c := req.debitAccount.value, req.creditAccount.value;
    var after := ApplyPosting(before, d, c, req.amount);
    PostingKeepsIdentity(before, d, c, req.amount, session.value);
    PostingMovesNet(before, d, c, req.amount, OwnedBy(before, u));
  }
}
