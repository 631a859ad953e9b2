/** `POST /api/auth/register`: create a user on the FREE tier together with a starter chart of accounts. */
module RegisterRoute {
  import opened Wrappers
  import opened Ledger
  import Text

  /** The request body; an absent field is read as the empty string, which JavaScript treats as falsy too. */
  datatype Request = Request(name: string, email: string, password: string)

  const MissingFields := "Name, email, and password are required"
  const ShortPassword := "Password must be at least 8 characters long"
  const EmailTaken := "User with this email already exists"

  /** The starter chart created by `createDefaultAccounts`, in creation order; its rows carry no description. */
  const StarterChart: seq<AccountSpec> := [
    AccountSpec("Cash and Bank", 1000, Asset, "Current Assets"),
    AccountSpec("Accounts Receivable", 1200, Asset, "Current Assets"),
    AccountSpec("Office Equipment", 1500, Asset, "Fixed Assets"),
    AccountSpec("Accounts Payable", 2000, Liability, "Current Liabilities"),
    AccountSpec("GST Payable", 2100, Liability, "Current Liabilities"),
    AccountSpec("Owner's Equity", 3000, Equity, "Capital"),
    AccountSpec("Retained Earnings", 3200, Equity, "Retained Earnings"),
    AccountSpec("Sales Revenue", 4000, Revenue, "Operating Revenue"),
    AccountSpec("Other Income", 4900, Revenue, "Other Revenue"),
    AccountSpec("Office Expenses", 5000, Expense, "Operating Expenses"),
    AccountSpec("Marketing Expenses", 5100, Expense, "Operating Expenses"),
    AccountSpec("Professional Fees", 5200, Expense, "Operating Expenses")
  ]

  /** The 12 starter codes are pairwise distinct. */
  lemma StarterChartCodesDistinct()
    ensures |StarterChart| == 12
    ensures CodesDistinct(StarterChart)
  {
    AscendingCodesDistinct(StarterChart);
  }

  predicate HasEmail(users: map<Id, User>, email: string)
  {
    exists k :: k in users && users[k].email == email
  }

  /** The user row a successful registration creates under id `id`. */
  function NewUser(req: Request, id: Id): (u: User)
    ensures u.id == id && u.name == req.name && u.email == req.email
    ensures u.tier == "FREE" && u.status == "ACTIVE"
  {
    User(id, req.name, req.email, "FREE", "ACTIVE")
  }

  /** The store after `u` is inserted under the next id. */
  ghost function AddUser(s: Snapshot, u: User): Snapshot
  {
    s.(users := s.users[u.id := u], nextId := s.nextId + 1)
  }

  /** The store after `u` is inserted and given the starter chart. */
  ghost function Register(s: Snapshot, u: User): Snapshot
  {
    InstallChart(AddUser(s, u), StarterChart, u.id, false)
  }

  /**
   * Inserting a user under the next id and then a chart without descriptions gives that user
   * exactly the chart's accounts, each active with balance 0, and keeps every earlier account.
   */
  lemma RegisterWithCreatesChart(s: Snapshot, u: User, chart: seq<AccountSpec>)
    requires forall k :: k in s.accounts ==> k < s.nextId && s.accounts[k].owner < s.nextId
    requires u.id == s.nextId
    ensures var after := InstallChart(AddUser(s, u), chart, u.id, false).accounts;
            && |OwnedBy(after, u.id)| == |chart|
            && (forall k :: k in OwnedBy(after, u.id) ==>
                  after[k].balance == 0.0 && after[k].isActive && after[k].description.None?)
            && (forall k :: k in s.accounts ==> k in after && after[k] == s.accounts[k])
  {
    var s1 := AddUser(s, u);
    var b := DefaultBatch(chart, u.id, s1.nextId, false);
    DefaultBatchForNewTenant(s1.accounts, chart, u.id, s1.nextId, false);
    forall k | k in b ensures b[k].description.None? {
      DefaultBatchRow(chart, u.id, s1.nextId, false, k);
    }
  }

  /** A registration gives the new user exactly the 12 starter accounts (see `RegisterWithCreatesChart`). */
  lemma RegisterCreatesChart(s: Snapshot, u: User)
    requires forall k :: k in s.accounts ==> k < s.nextId && s.accounts[k].owner < s.nextId
    requires u.id == s.nextId
    ensures var after := Register(s, u).accounts;
            && |OwnedBy(after, u.id)| == 12
            && (forall k :: k in OwnedBy(after, u.id) ==>
                  after[k].balance == 0.0 && after[k].isActive && after[k].description.None?)
            && (forall k :: k in s.accounts ==> k in after && after[k] == s.accounts[k])
  {
    StarterChartCodesDistinct();
    RegisterWithCreatesChart(s, u, StarterChart);
  }

  /** A fresh user owns no account yet, so any chart with distinct codes can be installed for it. */
  lemma RegisterWithConsistent(s: Snapshot, u: User, chart: seq<AccountSpec>)
    requires Consistent(s) && u.id == s.nextId && !HasEmail(s.users, u.email) && CodesDistinct(chart)
    ensures Consistent(InstallChart(AddUser(s, u), chart, u.id, false))
  {
    AddUserConsistent(s, u);
    var s1 := AddUser(s, u);
    forall k | k in s1.accounts ensures s1.accounts[k].owner != u.id {
      assert s.accounts[k].owner in s.users;
    }
    InstallChartConsistent(s1, chart, u.id, false);
  }

  lemma RegisterConsistent(s: Snapshot, u: User)
    requires Consistent(s) && u.id == s.nextId && !HasEmail(s.users, u.email)
    ensures Consistent(Register(s, u))
  {
    StarterChartCodesDistinct();
    RegisterWithConsistent(s, u, StarterChart);
  }

  /** Inserts the user row `u` under the next id. */
  method InsertUser(db: Db, u: User)
    requires u.id == db.nextId
    modifies db
    ensures db.State() == AddUser(old(db.State()), u)
  {
    db.users, db.nextId := db.users[u.id := u], db.nextId + 1;
  }

  /** Four characters outside the basic plane are eight UTF-16 units: long enough for the password check. */
  lemma AstralPasswordLongEnough()
    ensures Text.Utf16Length("\U{1F511}\U{1F511}\U{1F511}\U{1F511}") == 8
  {
    var k := "\U{1F511}\U{1F511}\U{1F511}\U{1F511}";
    assert k[..1][..0] == [] && Text.Utf16Length(k[..1]) == 2;
    assert k[..2][..1] == k[..1] && Text.Utf16Length(k[..2]) == 4;
    assert k[..3][..2] == k[..2] && Text.Utf16Length(k[..3]) == 6;
    assert k[..3] == k[..|k| - 1];
  }

  method Post(db: Db, req: Request) returns (r: Result<User, ApiError>)
    requires db.Valid()
    modifies db
    ensures db.Valid()
    ensures req.name == "" || req.email == "" || req.password == "" ==>
              r == Err(BadRequest(MissingFields)) && unchanged(db)
    ensures req.name != "" && req.email != "" && req.password != "" && Text.Utf16Length(req.password) < 8 ==>
              r == Err(BadRequest(ShortPassword)) && unchanged(db)
    ensures req.name != "" && req.email != "" && Text.Utf16Length(req.password) >= 8 && HasEmail(old(db.users), req.email) ==>
              r == Err(BadRequest(EmailTaken)) && unchanged(db)
    ensures req.name != "" && req.email != "" && Text.Utf16Length(req.password) >= 8 && !HasEmail(old(db.users), req.email) ==>
              r == Ok(NewUser(req, old(db.nextId))) && db.State() == Register(old(db.State()), r.value)
  {
    if req.name == "" || req.email == "" || req.password == "" {
      return Err(BadRequest(MissingFields));
    }
    if Text.Utf16Length(req.password) < 8 {
      return Err(BadRequest(ShortPassword));
    }
    if HasEmail(db.users, req.email) {
      return Err(BadRequest(EmailTaken));
    }
    var u := NewUser(req, db.nextId);
    RegisterConsistent(db.State(), u);
    InsertUser(db, u);
    db.InsertChart(StarterChart, u.id, false);
    r := Ok(u);
  }
}
