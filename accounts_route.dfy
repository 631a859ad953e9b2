/** `POST /api/accounts`: create one account in the caller's chart, with a per-tenant unique code. */
module AccountsRoute {
  import opened Wrappers
  import opened Ledger

  /** The request body; an absent field is `""`, an absent balance `0.0`. */
  datatype PostRequest = PostRequest(name: string, code: string, accountType: string, subType: string, balance: real)

  const MissingFields := "Name and type are required"
  const InvalidType := "Invalid account type"
  const CodeExists := "Account code already exists"

  /** `findFirst({ userId, code })` finds a row. */
  predicate CodeTaken(accounts: map<Id, Account>, caller: Id, code: string)
  {
    exists k :: k in accounts && accounts[k].owner == caller && accounts[k].code == Some(code)
  }

  function Rejection(accounts: map<Id, Account>, session: Option<Id>, req: PostRequest): Option<ApiError>
  {
    if session.None? then Some(Unauthorized)
    else if req.name == "" || req.accountType == "" then Some(BadRequest(MissingFields))
    else if ParseType(req.accountType).None? then Some(BadRequest(InvalidType))
    else if req.code != "" && CodeTaken(accounts, session.value, req.code) then Some(BadRequest(CodeExists))
    else None
  }

  /**
   * An account is created exactly when the caller is signed in, name and type are given,
   * the type is one of the five, and the code is empty or unused by the caller — a code
   * used only by other tenants does not block it.
   */
  lemma RejectionSpec(accounts: map<Id, Account>, session: Option<Id>, req: PostRequest)
    ensures Rejection(accounts, session, req).None? <==>
              && session.Some? && req.name != "" && ParseType(req.accountType).Some?
              && (req.code == "" || forall k :: k in accounts && accounts[k].owner == session.value ==> accounts[k].code != Some(req.code))
    ensures session.Some? && (req.name == "" || req.accountType == "") ==> Rejection(accounts, session, req) == Some(BadRequest(MissingFields))
    ensures session.Some? && req.name != "" && req.accountType != "" && ParseType(req.accountType).None? ==>
              Rejection(accounts, session, req) == Some(BadRequest(InvalidType))
  {
  }

  /** The row written by `create`: empty code and subType become null, the account is active. */
  function NewAccount(id: Id, caller: Id, req: PostRequest, kind: AccountType): (a: Account)
    ensures a.id == id && a.owner == caller && a.kind == kind && a.isActive && a.balance == req.balance
    ensures a.code.None? <==> req.code == ""
    ensures a.code.Some? ==> a.code.value == req.code
    ensures a.subType.None? <==> req.subType == ""
    ensures a.description.None?
  {
    Account(id, caller, req.name, if req.code == "" then None else Some(req.code), kind,
            if req.subType == "" then None else Some(req.subType), None, req.balance, true)
  }

  /** An accepted creation keeps every tenant's non-null codes pairwise distinct. */
  lemma AcceptedKeepsCodesUnique(accounts: map<Id, Account>, caller: Id, req: PostRequest, id: Id)
    requires CodesUnique(accounts) && id !in accounts
    requires Rejection(accounts, Some(caller), req).None?
    ensures CodesUnique(accounts[id := NewAccount(id, caller, req, ParseType(req.accountType).value)])
  {
    var a := NewAccount(id, caller, req, ParseType(req.accountType).value);
    var m := accounts[id := a];
    forall i, j | i in m && j in m && i != j && m[i].owner == m[j].owner && m[i].code.Some?
      ensures m[i].code != m[j].code
    {
      if i == id {
        assert !CodeTaken(accounts, caller, req.code);
        assert m[j] == accounts[j];
      } else if j == id && m[j].code.Some? {
        assert !CodeTaken(accounts, caller, req.code);
        assert m[i] == accounts[i];
      }
    }
  }

  method Post(db: Db, session: Option<Id>, req: PostRequest) returns (r: Result<Account, ApiError>)
    requires db.Valid() && SessionOk(db, session)
    modifies db
    ensures db.Valid()
    ensures r.Err? <==> Rejection(old(db.accounts), session, req).Some?
    ensures r.Err? ==> r.error == Rejection(old(db.accounts), session, req).value && unchanged(db)
    ensures r.Ok? ==>
              && session.Some? && ParseType(req.accountType).Some?
              && r.value == NewAccount(old(db.nextId), session.value, req, ParseType(req.accountType).value)
              && db.accounts == old(db.accounts)[r.value.id := r.value]
              && db.nextId == old(db.nextId) + 1
              && db.users == old(db.users) && db.transactions == old(db.transactions)
              && db.categories == old(db.categories) && db.customers == old(db.customers)
              && db.invoices == old(db.invoices)
  {
    var rejection := Rejection(db.accounts, session, req);
    if rejection.Some? {
      return Err(rejection.value);
    }
    var a := NewAccount(db.nextId, session.value, req, ParseType(req.accountType).value);
    assert !(req.code != "" && CodeTaken(db.accounts, session.value, req.code));
    ghost var s' := db.State().(accounts := db.accounts[a.id := a], nextId := db.nextId + 1);
    AddAccountConsistent(db.State(), a);
    db.accounts := db.accounts[a.id := a];
    db.nextId := db.nextId + 1;
    assert db.State() == s';
    r := Ok(a);
  }
}
