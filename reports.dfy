/**
 * `GET /api/reports`: the activity of each account over a period, and the profit-and-loss and
 * balance-sheet reports assembled from it and from the current balances.
 */
module Reports {
  import opened Wrappers
  import opened Ledger
  import Seqs

  const MissingDates := "Start date and end date are required"
  const RetainedEarnings := "Retained Earnings (Current Period)"

  /** The query; a missing or empty date parameter is `None`. Parsing dates is not modelled. */
  datatype Request = Request(startDate: Option<int>, endDate: Option<int>)

  /** `applyTransactionEffect`'s sign rule: debit-normal for ASSET and EXPENSE, credit-normal for anything else. */
  function Effect(accountType: string, isDebit: bool, amount: real): real
  {
    if accountType == "ASSET" || accountType == "EXPENSE" then
      (if isDebit then amount else -amount)
    else
      (if isDebit then -amount else amount)
  }

  /**
   * For the five account types the report's rule is the posting rule of the transactions route;
   * they part only on a type outside the enum, which the report reads as credit-normal and the posting leaves alone.
   */
  lemma EffectMatchesPosting(t: AccountType, other: string, isDebit: bool, amount: real)
    ensures Effect(TypeName(t), isDebit, amount) == BalanceChange(TypeName(t), isDebit, amount)
    ensures ParseType(other).None? ==>
              Effect(other, isDebit, amount) == (if isDebit then -amount else amount)
              && BalanceChange(other, isDebit, amount) == 0.0
  {
  }

  /** `accountBalances.get(id) || 0`. */
  function Get(m: map<Id, real>, k: Id): real
  {
    if k in m then m[k] else 0.0
  }

  /** One call of `applyTransactionEffect`: the map with the leg's effect added to account `k`. */
  function ApplyEffect(m: map<Id, real>, k: Id, accountType: string, isDebit: bool, amount: real): map<Id, real>
  {
    m[k := Get(m, k) + Effect(accountType, isDebit, amount)]
  }

  /** A leg adds its effect to its own account and leaves every other account as it was. */
  lemma ApplyEffectFrame(m: map<Id, real>, k: Id, accountType: string, isDebit: bool, amount: real)
    ensures ApplyEffect(m, k, accountType, isDebit, amount).Keys == m.Keys + {k}
    ensures Get(ApplyEffect(m, k, accountType, isDebit, amount), k) == Get(m, k) + Effect(accountType, isDebit, amount)
    ensures forall j :: j != k ==> Get(ApplyEffect(m, k, accountType, isDebit, amount), j) == Get(m, j)
  {
  }

  /** Every journal entry's two accounts are found in `store` (the rows the query joins). */
  predicate Joined(ts: seq<Transaction>, store: map<Id, Account>)
  {
    forall i :: 0 <= i < |ts| ==> ts[i].debit in store && ts[i].credit in store
  }

  /** The body of the `forEach`: the debit leg, then the credit leg, each by its account's type. */
  function ApplyTransaction(m: map<Id, real>, t: Transaction, store: map<Id, Account>): map<Id, real>
    requires t.debit in store && t.credit in store
  {
    var m1 := ApplyEffect(m, t.debit, TypeName(store[t.debit].kind), true, t.amount);
    ApplyEffect(m1, t.credit, TypeName(store[t.credit].kind), false, t.amount)
  }

  /** A transaction changes the activity of its debit and credit accounts and of no other account. */
  lemma ApplyTransactionFrame(m: map<Id, real>, t: Transaction, store: map<Id, Account>)
    requires t.debit in store && t.credit in store
    ensures ApplyTransaction(m, t, store).Keys == m.Keys + {t.debit, t.credit}
    ensures forall k :: k != t.debit && k != t.credit ==> Get(ApplyTransaction(m, t, store), k) == Get(m, k)
    ensures t.debit != t.credit ==>
              && Get(ApplyTransaction(m, t, store), t.debit) == Get(m, t.debit) + Effect(TypeName(store[t.debit].kind), true, t.amount)
              && Get(ApplyTransaction(m, t, store), t.credit) == Get(m, t.credit) + Effect(TypeName(store[t.credit].kind), false, t.amount)
  {
    var m1 := ApplyEffect(m, t.debit, TypeName(store[t.debit].kind), true, t.amount);
    ApplyEffectFrame(m, t.debit, TypeName(store[t.debit].kind), true, t.amount);
    ApplyEffectFrame(m1, t.credit, TypeName(store[t.credit].kind), false, t.amount);
  }

  /** The map after the `forEach` over `accounts` that sets every account's activity to 0. */
  function Zeroed(accounts: seq<Account>): (r: map<Id, real>)
    ensures forall i :: 0 <= i < |accounts| ==> accounts[i].id in r && r[accounts[i].id] == 0.0
    ensures forall k :: k in r ==> exists i :: 0 <= i < |accounts| && accounts[i].id == k
  {
    if accounts == [] then map[]
    else
      var init := accounts[..|accounts| - 1];
      var m := Zeroed(init);
      assert forall k :: k in m ==> exists i :: 0 <= i < |accounts| && accounts[i].id == k by {
        forall k | k in m ensures exists i :: 0 <= i < |accounts| && accounts[i].id == k {
          var i :| 0 <= i < |init| && init[i].id == k;
          assert accounts[i] == init[i];
        }
      }
      m[accounts[|accounts| - 1].id := 0.0]
  }

  /** The map after the `forEach` over `ts`, starting from `m`. */
  function Replay(m: map<Id, real>, ts: seq<Transaction>, store: map<Id, Account>): map<Id, real>
    requires Joined(ts, store)
  {
    if ts == [] then m else ApplyTransaction(Replay(m, ts[..|ts| - 1], store), ts[|ts| - 1], store)
  }

  /** What entry `t` adds to the activity of account `k`: its debit leg, its credit leg, or nothing. */
  function Contribution(t: Transaction, k: Id, store: map<Id, Account>): real
    requires t.debit in store && t.credit in store
  {
    (if t.debit == k then Effect(TypeName(store[t.debit].kind), true, t.amount) else 0.0)
    + (if t.credit == k then Effect(TypeName(store[t.credit].kind), false, t.amount) else 0.0)
  }

  function Contributions(ts: seq<Transaction>, k: Id, store: map<Id, Account>): (r: seq<real>)
    requires Joined(ts, store)
    ensures |r| == |ts|
  {
    if ts == [] then [] else Contributions(ts[..|ts| - 1], k, store) + [Contribution(ts[|ts| - 1], k, store)]
  }

  /** An account's activity is its starting value plus what each entry of the period contributes to it. */
  lemma {:induction false} ReplayIsSum(m: map<Id, real>, ts: seq<Transaction>, store: map<Id, Account>, k: Id)
    requires Joined(ts, store)
    ensures Get(Replay(m, ts, store), k) == Get(m, k) + Seqs.Sum(Contributions(ts, k, store))
  {
    if ts != [] {
      var init := ts[..|ts| - 1];
      var t := ts[|ts| - 1];
      ReplayIsSum(m, init, store, k);
      Seqs.SumAppend(Contributions(init, k, store), [Contribution(t, k, store)]);
      Seqs.SumSingleton(Contribution(t, k, store));
    }
  }

  /** An account that no entry of the period touches keeps activity 0. */
  lemma {:induction false} UntouchedStaysZero(accounts: seq<Account>, ts: seq<Transaction>, store: map<Id, Account>, i: nat)
    requires Joined(ts, store) && i < |accounts|
    requires forall j :: 0 <= j < |ts| ==> ts[j].debit != accounts[i].id && ts[j].credit != accounts[i].id
    ensures Get(Replay(Zeroed(accounts), ts, store), accounts[i].id) == 0.0
  {
    if ts != [] {
      UntouchedStaysZero(accounts, ts[..|ts| - 1], store, i);
    }
  }

  /** A listed account's period activity is the sum of what the period's entries contribute to it. */
  lemma ListedActivity(accounts: seq<Account>, ts: seq<Transaction>, store: map<Id, Account>)
    requires Joined(ts, store)
    ensures forall i :: 0 <= i < |accounts| ==>
              Get(Replay(Zeroed(accounts), ts, store), accounts[i].id) == Seqs.Sum(Contributions(ts, accounts[i].id, store))
  {
    forall i | 0 <= i < |accounts|
      ensures Get(Replay(Zeroed(accounts), ts, store), accounts[i].id) == Seqs.Sum(Contributions(ts, accounts[i].id, store))
    {
      ReplayIsSum(Zeroed(accounts), ts, store, accounts[i].id);
    }
  }

  /** The first `forEach`: a map holding 0 for every listed account. */
  method ZeroAll(accounts: seq<Account>) returns (activity: map<Id, real>)
    ensures activity == Zeroed(accounts)
  {
    activity := map[];
    for i := 0 to |accounts|
      invariant activity == Zeroed(accounts[..i])
    {
      assert accounts[..i + 1][..i] == accounts[..i];
      activity := activity[accounts[i].id := 0.0];
    }
    assert accounts[..|accounts|] == accounts;
  }

  /** The period activity: every listed account starts at 0, then each entry applies its two legs in order. */
  method PeriodActivity(accounts: seq<Account>, ts: seq<Transaction>, store: map<Id, Account>) returns (activity: map<Id, real>)
    requires Joined(ts, store)
    ensures activity == Replay(Zeroed(accounts), ts, store)
    ensures forall i :: 0 <= i < |accounts| ==>
              Get(activity, accounts[i].id) == Seqs.Sum(Contributions(ts, accounts[i].id, store))
  {
    activity := ZeroAll(accounts);
    ghost var start := activity;
    for j := 0 to |ts|
      invariant activity == Replay(start, ts[..j], store)
    {
      assert ts[..j + 1][..j] == ts[..j];
      var t := ts[j];
      var debitType, creditType := TypeName(store[t.debit].kind), TypeName(store[t.credit].kind);
      activity := ApplyEffect(activity, t.debit, debitType, true, t.amount);
      activity := ApplyEffect(activity, t.credit, creditType, false, t.amount);
    }
    assert ts[..|ts|] == ts;
    ListedActivity(accounts, ts, store);
  }

  // ---------------------------------------------------------------------------------------------
  // Report assembly

  datatype Line = Line(account: string, amount: real)

  /** The amount a section shows for an account. */
  datatype Measure =
    | AbsActivity(activity: map<Id, real>)   // `Math.abs(accountBalances.get(id) || 0)`
    | SignedActivity(activity: map<Id, real>) // `accountBalances.get(id) || 0`
    | Balance                                  // `account.balance`
    | AbsBalance                               // `Math.abs(account.balance)`

  /** Which lines a section keeps: `amount > 0` in the profit-and-loss, `amount !== 0` in the balance sheet. */
  datatype Keep = Positive | NonZero

  function Abs(x: real): real
  {
    if x < 0.0 then -x else x
  }

  function Amount(a: Account, m: Measure): real
  {
    match m
    case AbsActivity(activity) => Abs(Get(activity, a.id))
    case SignedActivity(activity) => Get(activity, a.id)
    case Balance => a.balance
    case AbsBalance => Abs(a.balance)
  }

  predicate Kept(x: real, keep: Keep)
  {
    if keep.Positive? then x > 0.0 else x != 0.0
  }

  /** `accounts.filter(type).map(line).filter(keep)`: one line per account of `kind` whose amount is kept, in order. */
  function Section(accounts: seq<Account>, kind: AccountType, m: Measure, keep: Keep): (r: seq<Line>)
    ensures |r| <= |accounts|
    ensures forall i :: 0 <= i < |r| ==> Kept(r[i].amount, keep)
  {
    if accounts == [] then []
    else
      var a := accounts[|accounts| - 1];
      var r0 := Section(accounts[..|accounts| - 1], kind, m, keep);
      if a.kind == kind && Kept(Amount(a, m), keep) then r0 + [Line(a.name, Amount(a, m))] else r0
  }

  /** A section has a line for exactly the accounts of its type whose amount is kept. */
  lemma {:induction false} SectionLines(accounts: seq<Account>, kind: AccountType, m: Measure, keep: Keep)
    ensures forall a :: a in accounts && a.kind == kind && Kept(Amount(a, m), keep) ==>
              Line(a.name, Amount(a, m)) in Section(accounts, kind, m, keep)
    ensures forall l :: l in Section(accounts, kind, m, keep) ==>
              exists a :: a in accounts && a.kind == kind && l == Line(a.name, Amount(a, m))
  {
    if accounts != [] {
      var init := accounts[..|accounts| - 1];
      var a := accounts[|accounts| - 1];
      assert accounts == init + [a];
      SectionLines(init, kind, m, keep);
    }
  }

  /** `lines.reduce((sum, item) => sum + item.amount, 0)`. */
  function Total(lines: seq<Line>): real
  {
    if lines == [] then 0.0 else Total(lines[..|lines| - 1]) + lines[|lines| - 1].amount
  }

  /** The unfiltered reference: the sum of the amounts of all accounts of `kind`. */
  function TypeTotal(accounts: seq<Account>, kind: AccountType, m: Measure): real
  {
    if accounts == [] then 0.0
    else
      TypeTotal(accounts[..|accounts| - 1], kind, m)
      + (if accounts[|accounts| - 1].kind == kind then Amount(accounts[|accounts| - 1], m) else 0.0)
  }

  lemma TotalSnoc(lines: seq<Line>, l: Line)
    ensures Total(lines + [l]) == Total(lines) + l.amount
  {
    assert (lines + [l])[..|lines|] == lines;
  }

  /** Dropping the zero lines does not change a balance-sheet total. */
  lemma {:induction false} NonZeroKeepsTotal(accounts: seq<Account>, kind: AccountType, m: Measure)
    ensures Total(Section(accounts, kind, m, NonZero)) == TypeTotal(accounts, kind, m)
  {
    if accounts != [] {
      var init := accounts[..|accounts| - 1];
      var a := accounts[|accounts| - 1];
      NonZeroKeepsTotal(init, kind, m);
      var r0 := Section(init, kind, m, NonZero);
      assert TypeTotal(accounts, kind, m) == TypeTotal(init, kind, m) + (if a.kind == kind then Amount(a, m) else 0.0);
      if a.kind == kind && Kept(Amount(a, m), NonZero) {
        assert Section(accounts, kind, m, NonZero) == r0 + [Line(a.name, Amount(a, m))];
        TotalSnoc(r0, Line(a.name, Amount(a, m)));
      } else {
        assert Section(accounts, kind, m, NonZero) == r0;
      }
    }
  }

  /** A profit-and-loss total is the sum of the positive amounts: at least the unfiltered sum, never negative. */
  lemma {:induction false} PositiveTotal(accounts: seq<Account>, kind: AccountType, m: Measure)
    ensures Total(Section(accounts, kind, m, Positive)) >= TypeTotal(accounts, kind, m)
    ensures Total(Section(accounts, kind, m, Positive)) >= 0.0
    ensures (forall i :: 0 <= i < |accounts| ==> Amount(accounts[i], m) >= 0.0) ==>
              Total(Section(accounts, kind, m, Positive)) == TypeTotal(accounts, kind, m)
  {
    if accounts != [] {
      var init := accounts[..|accounts| - 1];
      var a := accounts[|accounts| - 1];
      PositiveTotal(init, kind, m);
      var r0 := Section(init, kind, m, Positive);
      assert TypeTotal(accounts, kind, m) == TypeTotal(init, kind, m) + (if a.kind == kind then Amount(a, m) else 0.0);
      if a.kind == kind && Kept(Amount(a, m), Positive) {
        assert Section(accounts, kind, m, Positive) == r0 + [Line(a.name, Amount(a, m))];
        TotalSnoc(r0, Line(a.name, Amount(a, m)));
      } else {
        assert Section(accounts, kind, m, Positive) == r0;
      }
    }
  }

  datatype ProfitLoss = ProfitLoss(
    revenue: seq<Line>, expenses: seq<Line>, totalRevenue: real, totalExpenses: real, netIncome: real)

  datatype BalanceSheet = BalanceSheet(
    assets: seq<Line>, liabilities: seq<Line>, equity: seq<Line>,
    totalAssets: real, totalLiabilities: real, totalEquity: real)

  datatype Report = Report(profitLoss: ProfitLoss, balanceSheet: BalanceSheet, startDate: int, endDate: int)

  /**
   * The profit-and-loss: revenue is the sum of the absolute activities of the revenue accounts,
   * expenses the sum of the positive activities of the expense accounts, and their difference the net income.
   */
  function ProfitAndLoss(accounts: seq<Account>, activity: map<Id, real>): (p: ProfitLoss)
    ensures p.totalRevenue == TypeTotal(accounts, Revenue, AbsActivity(activity)) && p.totalRevenue >= 0.0
    ensures p.totalExpenses >= TypeTotal(accounts, Expense, SignedActivity(activity)) && p.totalExpenses >= 0.0
    ensures p.netIncome == p.totalRevenue - p.totalExpenses
    ensures forall i :: 0 <= i < |p.revenue| ==> p.revenue[i].amount > 0.0
    ensures forall i :: 0 <= i < |p.expenses| ==> p.expenses[i].amount > 0.0
  {
    var revenue := Section(accounts, Revenue, AbsActivity(activity), Positive);
    var expenses := Section(accounts, Expense, SignedActivity(activity), Positive);
    PositiveTotal(accounts, Revenue, AbsActivity(activity));
    PositiveTotal(accounts, Expense, SignedActivity(activity));
    ProfitLoss(revenue, expenses, Total(revenue), Total(expenses), Total(revenue) - Total(expenses))
  }

  /**
   * The balance sheet from the current balances: the zero lines are dropped, which changes no total,
   * and the equity section gets one extra line of `|netIncome|` exactly when the net income is not 0.
   */
  predicate SheetOf(b: BalanceSheet, accounts: seq<Account>, netIncome: real)
  {
    && b.assets == Section(accounts, Asset, Balance, NonZero)
    && b.liabilities == Section(accounts, Liability, AbsBalance, NonZero)
    && (var own := Section(accounts, Equity, AbsBalance, NonZero);
        && |b.equity| == |own| + (if netIncome != 0.0 then 1 else 0)
        && b.equity[..|own|] == own
        && (netIncome != 0.0 ==> b.equity[|own|] == Line(RetainedEarnings, Abs(netIncome))))
    && b.totalAssets == TypeTotal(accounts, Asset, Balance)
    && b.totalLiabilities == TypeTotal(accounts, Liability, AbsBalance)
    && b.totalEquity == TypeTotal(accounts, Equity, AbsBalance) + Abs(netIncome)
  }

  /** The balance-sheet part of the route: the three sections and their `reduce` totals. */
  method BuildBalanceSheet(accounts: seq<Account>, netIncome: real) returns (b: BalanceSheet)
    ensures SheetOf(b, accounts, netIncome)
  {
    var assets := Section(accounts, Asset, Balance, NonZero);
    var liabilities := Section(accounts, Liability, AbsBalance, NonZero);
    var equity := Section(accounts, Equity, AbsBalance, NonZero);
    NonZeroKeepsTotal(accounts, Asset, Balance);
    NonZeroKeepsTotal(accounts, Liability, AbsBalance);
    NonZeroKeepsTotal(accounts, Equity, AbsBalance);
    if netIncome != 0.0 {
      TotalSnoc(equity, Line(RetainedEarnings, Abs(netIncome)));
      equity := equity + [Line(RetainedEarnings, Abs(netIncome))];
    }
    b := BalanceSheet(assets, liabilities, equity, Total(assets), Total(liabilities), Total(equity));
  }

  /** `listing` enumerates the accounts of tenant `u`, each once, in the order the query returns them. */
  ghost predicate Lists(accounts: map<Id, Account>, u: Id, listing: seq<Id>)
  {
    && (forall i :: 0 <= i < |listing| ==> listing[i] in accounts && accounts[listing[i]].owner == u)
    && (forall k :: k in accounts && accounts[k].owner == u ==> k in listing)
    && (forall i, j :: 0 <= i < j < |listing| ==> listing[i] != listing[j])
  }

  function Rows(accounts: map<Id, Account>, listing: seq<Id>): (r: seq<Account>)
    requires forall i :: 0 <= i < |listing| ==> listing[i] in accounts
    ensures |r| == |listing| && forall i :: 0 <= i < |r| ==> r[i] == accounts[listing[i]]
  {
    seq(|listing|, i requires 0 <= i < |listing| => accounts[listing[i]])
  }

  /** The caller's journal entries dated within `[from, to]`, in journal order. */
  function InPeriod(ts: seq<Transaction>, u: Id, from: int, to: int): (r: seq<Transaction>)
    ensures forall i :: 0 <= i < |r| ==> r[i] in ts && r[i].owner == u && from <= r[i].date <= to
    ensures forall i :: 0 <= i < |ts| && ts[i].owner == u && from <= ts[i].date <= to ==> ts[i] in r
  {
    Seqs.Filter(ts, (t: Transaction) => t.owner == u && from <= t.date <= to)
  }

  /**
   * The route: 401 without a session, 400 without both dates; otherwise the period activity of the
   * caller's accounts over the caller's entries in the period, and the two reports built from it.
   */
  method Generate(db: Db, session: Option<Id>, req: Request, listing: seq<Id>) returns (r: Result<Report, ApiError>)
    requires db.Valid() && SessionOk(db, session)
    requires session.Some? ==> Lists(db.accounts, session.value, listing)
    ensures session.None? ==> r == Err(Unauthorized)
    ensures session.Some? && (req.startDate.None? || req.endDate.None?) ==> r == Err(BadRequest(MissingDates))
    ensures session.Some? && req.startDate.Some? && req.endDate.Some? ==> r.Ok?
    ensures r.Ok? ==>
              && session.Some? && req.startDate.Some? && req.endDate.Some?
              && r.value.startDate == req.startDate.value && r.value.endDate == req.endDate.value
              && var accounts := Rows(db.accounts, listing);
                 var ts := InPeriod(db.transactions, session.value, req.startDate.value, req.endDate.value);
                 && Joined(ts, db.accounts)
                 && var activity := Replay(Zeroed(accounts), ts, db.accounts);
                    && r.value.profitLoss == ProfitAndLoss(accounts, activity)
                    && SheetOf(r.value.balanceSheet, accounts, r.value.profitLoss.netIncome)
  {
    if session.None? {
      return Err(Unauthorized);
    }
    if req.startDate.None? || req.endDate.None? {
      return Err(BadRequest(MissingDates));
    }
    var accounts := Rows(db.accounts, listing);
    var ts := InPeriod(db.transactions, session.value, req.startDate.value, req.endDate.value);
    assert Joined(ts, db.accounts) by {
      forall i | 0 <= i < |ts| ensures ts[i].debit in db.accounts && ts[i].credit in db.accounts {
        var j :| 0 <= j < |db.transactions| && db.transactions[j] == ts[i];
        assert Recorded(db.transactions[j], db.accounts, db.categories);
      }
    }
    var activity := PeriodActivity(accounts, ts, db.accounts);
    var profitLoss := ProfitAndLoss(accounts, activity);
    var balanceSheet := BuildBalanceSheet(accounts, profitLoss.netIncome);
    r := Ok(Report(profitLoss, balanceSheet, req.startDate.value, req.endDate.value));
  }
}
