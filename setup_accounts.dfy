/** `POST /api/setup-accounts`: give a tenant without accounts the default chart and categories. */
module SetupAccountsRoute {
  import opened Wrappers
  import opened Ledger

  datatype Outcome = AlreadyExists | Created(accountsCreated: nat, categoriesCreated: nat)

  /** The default chart of accounts, in creation order. */
  const Chart: seq<AccountSpec> := [
    AccountSpec("Cash on Hand", 1000, Asset, "Current Asset"),
    AccountSpec("Business Bank Account", 1010, Asset, "Current Asset"),
    AccountSpec("Accounts Receivable", 1100, Asset, "Current Asset"),
    AccountSpec("Inventory", 1200, Asset, "Current Asset"),
    AccountSpec("Prepaid Expenses", 1300, Asset, "Current Asset"),
    AccountSpec("Equipment", 1500, Asset, "Fixed Asset"),
    AccountSpec("Accounts Payable", 2000, Liability, "Current Liability"),
    AccountSpec("Credit Card", 2100, Liability, "Current Liability"),
    AccountSpec("GST Payable", 2200, Liability, "Current Liability"),
    AccountSpec("Owner's Equity", 3000, Equity, "Owner's Equity"),
    AccountSpec("Retained Earnings", 3100, Equity, "Retained Earnings"),
    AccountSpec("Sales Revenue", 4000, Revenue, "Operating Revenue"),
    AccountSpec("Service Revenue", 4100, Revenue, "Operating Revenue"),
    AccountSpec("Interest Income", 4500, Revenue, "Other Revenue"),
    AccountSpec("Cost of Goods Sold", 5000, Expense, "Cost of Sales"),
    AccountSpec("Office Supplies", 6000, Expense, "Operating Expense"),
    AccountSpec("Rent Expense", 6100, Expense, "Operating Expense"),
    AccountSpec("Utilities", 6200, Expense, "Operating Expense"),
    AccountSpec("Insurance", 6300, Expense, "Operating Expense"),
    AccountSpec("Professional Fees", 6400, Expense, "Operating Expense"),
    AccountSpec("Marketing & Advertising", 6500, Expense, "Operating Expense"),
    AccountSpec("Travel & Entertainment", 6600, Expense, "Operating Expense"),
    AccountSpec("Bank Fees", 6700, Expense, "Operating Expense"),
    AccountSpec("General Expenses", 6800, Expense, "Operating Expense")
  ]

  /** The default categories as (name, colour), in creation order. */
  const Categories: seq<(string, string)> := [
    ("Sales", "#10b981"),
    ("Office Expenses", "#f59e0b"),
    ("Travel", "#3b82f6"),
    ("Marketing", "#8b5cf6"),
    ("Professional Services", "#ef4444"),
    ("Utilities", "#6b7280")
  ]

  /** The 24 default codes are pairwise distinct. */
  lemma ChartCodesDistinct()
    ensures |Chart| == 24
    ensures CodesDistinct(Chart)
  {
    AscendingCodesDistinct(Chart);
  }

  /** The categories inserted for `owner` under ids `base ..`. */
  function CategoryBatch(rows: seq<(string, string)>, owner: Id, base: nat): (r: map<Id, Category>)
    ensures |r| == |rows|
    ensures forall k :: k in r <==> base <= k < base + |rows|
    ensures forall k :: k in r ==> r[k] == Category(k, owner, rows[k - base].0, None, Some(rows[k - base].1), false)
  {
    var r := map k | k in IdRange(base, |rows|) :: Category(k, owner, rows[k - base].0, None, Some(rows[k - base].1), false);
    assert r.Keys == IdRange(base, |rows|);
    r
  }

  predicate HasAccounts(accounts: map<Id, Account>, u: Id)
  {
    exists k :: k in accounts && accounts[k].owner == u
  }

  /** The store after inserting `chart` and then `cats` for `u` under fresh ids. */
  ghost function SetupWith(s: Snapshot, u: Id, chart: seq<AccountSpec>, cats: seq<(string, string)>): Snapshot
  {
    AddCategoryBatch(InstallChart(s, chart, u, true), u, cats)
  }

  /** The store after inserting the categories `cats` for `u` under fresh ids. */
  ghost function AddCategoryBatch(s: Snapshot, u: Id, cats: seq<(string, string)>): Snapshot
  {
    Snapshot(s.users, s.accounts, s.transactions, s.categories + CategoryBatch(cats, u, s.nextId),
             s.customers, s.invoices, s.nextId + |cats|)
  }

  /** The store after a successful setup for `u`: 24 accounts, then 6 categories, under fresh ids. */
  ghost function Setup(s: Snapshot, u: Id): Snapshot
  {
    SetupWith(s, u, Chart, Categories)
  }

  /** What a call by `u` does: nothing when `u` already has an account, the setup otherwise. */
  ghost function Apply(s: Snapshot, u: Id): Snapshot
  {
    if HasAccounts(s.accounts, u) then s else Setup(s, u)
  }

  /**
   * A setup gives a tenant that had no accounts exactly the 24 default accounts, each active
   * with balance 0, and leaves the other tenants' accounts as they were.
   */
  lemma SetupCreatesChart(s: Snapshot, u: Id)
    requires forall k :: k in s.accounts ==> k < s.nextId
    requires !HasAccounts(s.accounts, u)
    ensures var after := Setup(s, u).accounts;
            && OwnedBy(after, u) == DefaultBatch(Chart, u, s.nextId, true).Keys
            && |OwnedBy(after, u)| == 24
            && (forall k :: k in OwnedBy(after, u) ==> after[k].balance == 0.0 && after[k].isActive)
            && (forall k :: k in s.accounts ==> k in after && after[k] == s.accounts[k])
  {
    DefaultBatchForNewTenant(s.accounts, Chart, u, s.nextId, true);
  }

  /** Calling setup twice leaves the store as calling it once. */
  lemma ApplyIdempotent(s: Snapshot, u: Id)
    ensures Apply(Apply(s, u), u) == Apply(s, u)
  {
    if !HasAccounts(s.accounts, u) {
      var b := DefaultBatch(Chart, u, s.nextId, true);
      assert s.nextId in b;
      assert Setup(s, u).accounts[s.nextId].owner == u;
    }
  }

  lemma AddDefaultCategoriesConsistent(s: Snapshot, u: Id, cats: seq<(string, string)>)
    requires Consistent(s) && u in s.users
    ensures Consistent(AddCategoryBatch(s, u, cats))
  {
    AddCategoriesConsistent(s, CategoryBatch(cats, u, s.nextId), |cats|);
  }

  lemma SetupWithConsistent(s: Snapshot, u: Id, chart: seq<AccountSpec>, cats: seq<(string, string)>)
    requires Consistent(s) && u in s.users && !HasAccounts(s.accounts, u) && CodesDistinct(chart)
    ensures Consistent(SetupWith(s, u, chart, cats))
  {
    InstallChartConsistent(s, chart, u, true);
    AddDefaultCategoriesConsistent(InstallChart(s, chart, u, true), u, cats);
  }

  lemma SetupConsistent(s: Snapshot, u: Id)
    requires Consistent(s) && u in s.users && !HasAccounts(s.accounts, u)
    ensures Consistent(Setup(s, u))
  {
    ChartCodesDistinct();
    SetupWithConsistent(s, u, Chart, Categories);
  }

  /** Inserts the categories `cats` for `u`, one per row, under fresh ids. */
  method InstallCategories(db: Db, u: Id, cats: seq<(string, string)>)
    modifies db
    ensures db.State() == AddCategoryBatch(old(db.State()), u, cats)
  {
    var categories := CategoryBatch(cats, u, db.nextId);
    db.categories, db.nextId := db.categories + categories, db.nextId + |cats|;
  }

  method Post(db: Db, session: Option<Id>) returns (r: Result<Outcome, ApiError>)
    requires db.Valid() && SessionOk(db, session)
    modifies db
    ensures db.Valid()
    ensures session.None? ==> r == Err(Unauthorized) && unchanged(db)
    ensures session.Some? && HasAccounts(old(db.accounts), session.value) ==> r == Ok(AlreadyExists) && unchanged(db)
    ensures session.Some? && !HasAccounts(old(db.accounts), session.value) ==>
              r == Ok(Created(24, 6)) && db.State() == Setup(old(db.State()), session.value)
  {
    if session.None? {
      return Err(Unauthorized);
    }
    var u := session.value;
    if HasAccounts(db.accounts, u) {
      return Ok(AlreadyExists);
    }
    SetupConsistent(db.State(), u);
    db.InsertChart(Chart, u, true);
    InstallCategories(db, u, Categories);
    r := Ok(Created(|Chart|, |Categories|));
  }
}
