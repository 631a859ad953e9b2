/** `GET /api/dashboard/summary`: per-type totals of the caller's active accounts, net income and cash. */
module DashboardSummary {
  import opened Wrappers
  import opened Ledger
  import Text
  import Seqs
  import Reports

  /** The reduce's accumulator. */
  datatype Totals = Totals(assets: real, liabilities: real, equity: real, revenue: real, expenses: real)

  datatype Summary = Summary(totals: Totals, netIncome: real, totalCash: real, transactionCount: nat)

  /** The accumulator field that collects accounts of type `kind`. */
  function Field(t: Totals, kind: AccountType): real
  {
    match kind
    case Asset => t.assets
    case Liability => t.liabilities
    case Equity => t.equity
    case Revenue => t.revenue
    case Expense => t.expenses
  }

  /** The sum of all the listed balances, whatever their type. */
  function BalanceSum(accounts: seq<Account>): real
  {
    if accounts == [] then 0.0 else BalanceSum(accounts[..|accounts| - 1]) + accounts[|accounts| - 1].balance
  }

  function TypeTotal(accounts: seq<Account>, kind: AccountType): real
  {
    Reports.TypeTotal(accounts, kind, Reports.Balance)
  }

  /** Each account counts towards exactly one of the five type totals. */
  lemma {:induction false} TypeTotalsPartition(accounts: seq<Account>)
    ensures TypeTotal(accounts, Asset) + TypeTotal(accounts, Liability) + TypeTotal(accounts, Equity)
            + TypeTotal(accounts, Revenue) + TypeTotal(accounts, Expense) == BalanceSum(accounts)
  {
    if accounts != [] {
      TypeTotalsPartition(accounts[..|accounts| - 1]);
    }
  }

  /** The `reduce` with its `switch`: each balance is added to the total of its own type. */
  method SumByType(accounts: seq<Account>) returns (t: Totals)
    ensures forall kind :: Field(t, kind) == TypeTotal(accounts, kind)
    ensures t.assets + t.liabilities + t.equity + t.revenue + t.expenses == BalanceSum(accounts)
  {
    t := Totals(0.0, 0.0, 0.0, 0.0, 0.0);
    for i := 0 to |accounts|
      invariant forall kind :: Field(t, kind) == TypeTotal(accounts[..i], kind)
    {
      assert accounts[..i + 1][..i] == accounts[..i];
      var a := accounts[i];
      assert forall kind :: TypeTotal(accounts[..i + 1], kind) ==
                              TypeTotal(accounts[..i], kind) + (if a.kind == kind then a.balance else 0.0);
      ghost var before := t;
      match a.kind {
        case Asset => t := t.(assets := t.assets + a.balance);
        case Liability => t := t.(liabilities := t.liabilities + a.balance);
        case Equity => t := t.(equity := t.equity + a.balance);
        case Revenue => t := t.(revenue := t.revenue + a.balance);
        case Expense => t := t.(expenses := t.expenses + a.balance);
      }
      assert forall kind :: Field(t, kind) == Field(before, kind) + (if a.kind == kind then a.balance else 0.0);
    }
    assert accounts[..|accounts|] == accounts;
    TypeTotalsPartition(accounts);
    assert forall kind :: Field(t, kind) == TypeTotal(accounts, kind);
  }

  /** An asset whose lower-cased name mentions cash or bank. */
  predicate IsCash(a: Account)
  {
    a.kind == Asset && (Text.Includes(Text.Lower(a.name), "cash") || Text.Includes(Text.Lower(a.name), "bank"))
  }

  /** `totalCash`: the balances of the cash and bank assets added up. */
  function TotalCash(accounts: seq<Account>): real
  {
    BalanceSum(Seqs.Filter(accounts, IsCash))
  }

  /** An asset that is not a cash or bank account. */
  predicate IsOtherAsset(a: Account)
  {
    a.kind == Asset && !IsCash(a)
  }

  /** Any split of the assets into two kinds splits the asset total the same way. */
  lemma {:induction false} SplitAssets(accounts: seq<Account>, p: Account -> bool, q: Account -> bool)
    requires forall a :: p(a) ==> a.kind == Asset
    requires forall a :: q(a) <==> a.kind == Asset && !p(a)
    ensures BalanceSum(Seqs.Filter(accounts, p)) + BalanceSum(Seqs.Filter(accounts, q)) == TypeTotal(accounts, Asset)
  {
    if accounts != [] {
      var init := accounts[..|accounts| - 1];
      var a := accounts[|accounts| - 1];
      assert accounts == init + [a];
      SplitAssets(init, p, q);
      Seqs.FilterSnoc(init, a, p);
      Seqs.FilterSnoc(init, a, q);
      var ps, qs := Seqs.Filter(init, p), Seqs.Filter(init, q);
      assert TypeTotal(accounts, Asset) == TypeTotal(init, Asset) + (if a.kind == Asset then a.balance else 0.0);
      if p(a) {
        assert (ps + [a])[..|ps|] == ps;
      } else if q(a) {
        assert (qs + [a])[..|qs|] == qs;
      }
    }
  }

  /** The asset total splits into the cash total and the total of the other assets. */
  lemma CashWithinAssets(accounts: seq<Account>)
    ensures TotalCash(accounts) + BalanceSum(Seqs.Filter(accounts, IsOtherAsset)) == TypeTotal(accounts, Asset)
  {
    SplitAssets(accounts, IsCash, IsOtherAsset);
  }

  /** With non-negative asset balances, the cash total is at most the asset total. */
  lemma CashAtMostAssets(accounts: seq<Account>)
    requires forall i :: 0 <= i < |accounts| && accounts[i].kind == Asset ==> accounts[i].balance >= 0.0
    ensures TotalCash(accounts) <= TypeTotal(accounts, Asset)
  {
    var other := Seqs.Filter(accounts, IsOtherAsset);
    CashWithinAssets(accounts);
    NonNegativeSum(other);
  }

  lemma {:induction false} NonNegativeSum(accounts: seq<Account>)
    requires forall i :: 0 <= i < |accounts| ==> accounts[i].balance >= 0.0
    ensures BalanceSum(accounts) >= 0.0
  {
    if accounts != [] {
      NonNegativeSum(accounts[..|accounts| - 1]);
    }
  }

  /** `listing` enumerates the active accounts of tenant `u`, each once, in the query's order. */
  ghost predicate ListsActive(accounts: map<Id, Account>, u: Id, listing: seq<Id>)
  {
    && (forall i :: 0 <= i < |listing| ==> listing[i] in accounts && accounts[listing[i]].owner == u && accounts[listing[i]].isActive)
    && (forall k :: k in accounts && accounts[k].owner == u && accounts[k].isActive ==> k in listing)
    && (forall i, j :: 0 <= i < j < |listing| ==> listing[i] != listing[j])
  }

  /**
   * The route: 401 without a session; otherwise the five type totals of the caller's active accounts,
   * the net income, the cash total, the number of the caller's journal entries, and the accounts themselves.
   */
  method Get(db: Db, session: Option<Id>, listing: seq<Id>) returns (r: Result<(Summary, seq<Account>), ApiError>)
    requires db.Valid() && SessionOk(db, session)
    requires session.Some? ==> ListsActive(db.accounts, session.value, listing)
    ensures session.None? <==> r.Err?
    ensures r.Err? ==> r.error == Unauthorized
    ensures r.Ok? ==>
              var (summary, accounts) := r.value;
              && accounts == Reports.Rows(db.accounts, listing)
              && (forall i :: 0 <= i < |accounts| ==> accounts[i].owner == session.value && accounts[i].isActive)
              && (forall kind :: Field(summary.totals, kind) == TypeTotal(accounts, kind))
              && summary.netIncome == TypeTotal(accounts, Revenue) - TypeTotal(accounts, Expense)
              && summary.totalCash == TotalCash(accounts)
              && summary.transactionCount == |Seqs.Filter(db.transactions, (t: Transaction) => t.owner == session.value)|
  {
    if session.None? {
      return Err(Unauthorized);
    }
    var accounts := Reports.Rows(db.accounts, listing);
    var totals := SumByType(accounts);
    var netIncome := totals.revenue - totals.expenses;
    var count := |Seqs.Filter(db.transactions, (t: Transaction) => t.owner == session.value)|;
    r := Ok((Summary(totals, netIncome, TotalCash(accounts), count), accounts));
  }
}
