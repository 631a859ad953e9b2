/**
 * The per-tenant bookkeeping store that the API routes read and write, with the
 * normal-balance rule of double-entry bookkeeping and the accounting identity it keeps.
 *
 * The relational store is modelled in memory: one map per table keyed by id, the
 * journal and the invoices as lists in creation order, and a counter for fresh ids.
 */
module Ledger {
  import opened Wrappers
  import Text

  type Id = nat

  /** The database enum `AccountType`: the only values an account's `type` column can hold. */
  datatype AccountType = Asset | Liability | Equity | Revenue | Expense

  function TypeName(t: AccountType): string
  {
    match t
    case Asset => "ASSET"
    case Liability => "LIABILITY"
    case Equity => "EQUITY"
    case Revenue => "REVENUE"
    case Expense => "EXPENSE"
  }

  /** `['ASSET', 'LIABILITY', 'EQUITY', 'REVENUE', 'EXPENSE'].includes(type)`, giving the enum value. */
  function ParseType(s: string): (r: Option<AccountType>)
    ensures r.Some? ==> TypeName(r.value) == s
  {
    if s == "ASSET" then Some(Asset)
    else if s == "LIABILITY" then Some(Liability)
    else if s == "EQUITY" then Some(Equity)
    else if s == "REVENUE" then Some(Revenue)
    else if s == "EXPENSE" then Some(Expense)
    else None
  }

  /** Every type name parses back to its type, so `ParseType(s)` is `None` exactly for the other strings. */
  lemma ParseTypeName(t: AccountType)
    ensures ParseType(TypeName(t)) == Some(t)
  {
  }

  /** Asset and expense accounts have a normal debit balance, the other three a normal credit balance. */
  predicate DebitNormal(t: AccountType)
  {
    t == Asset || t == Expense
  }

  /** `getBalanceChange` of the transactions route: the signed change a leg makes to an account of type `accountType`. */
  function BalanceChange(accountType: string, isDebit: bool, amount: real): real
  {
    if accountType == "ASSET" || accountType == "EXPENSE" then
      (if isDebit then amount else -amount)
    else if accountType == "LIABILITY" || accountType == "EQUITY" || accountType == "REVENUE" then
      (if isDebit then -amount else amount)
    else
      0.0
  }

  /**
   * The normal-balance rule: a debit raises a debit-normal account and lowers a credit-normal
   * one, a credit does the opposite, and a type outside the enum is left alone.
   */
  lemma BalanceChangeRule(accountType: string, isDebit: bool, amount: real)
    ensures accountType in {"ASSET", "EXPENSE"} ==>
              BalanceChange(accountType, isDebit, amount) == (if isDebit then amount else -amount)
    ensures accountType in {"LIABILITY", "EQUITY", "REVENUE"} ==>
              BalanceChange(accountType, isDebit, amount) == (if isDebit then -amount else amount)
    ensures ParseType(accountType).None? ==> BalanceChange(accountType, isDebit, amount) == 0.0
  {
  }

  /** Read with its normal sign, every debit leg adds `amount` and every credit leg subtracts it. */
  lemma BalanceChangeSigned(t: AccountType, isDebit: bool, amount: real)
    ensures NormalSign(t) * BalanceChange(TypeName(t), isDebit, amount) == (if isDebit then amount else -amount)
  {
  }

  function NormalSign(t: AccountType): real
  {
    if DebitNormal(t) then 1.0 else -1.0
  }

  datatype Account = Account(
    id: Id, owner: Id, name: string, code: Option<string>, kind: AccountType,
    subType: Option<string>, description: Option<string>, balance: real, isActive: bool)

  datatype Transaction = Transaction(
    id: Id, owner: Id, date: int, description: string, reference: Option<string>,
    amount: real, debit: Id, credit: Id, category: Option<Id>)

  datatype Category = Category(
    id: Id, owner: Id, name: string, description: Option<string>, color: Option<string>, isSystem: bool)

  datatype Customer = Customer(
    id: Id, owner: Id, name: string, email: string, phone: string, address: string, city: string,
    state: string, postalCode: string, country: string, companyName: string, taxNumber: string,
    paymentTerms: int)

  datatype InvoiceItem = InvoiceItem(
    description: string, quantity: real, unitPrice: real, total: real, taxRate: real, taxAmount: real)

  datatype Invoice = Invoice(
    id: Id, owner: Id, number: string, customer: Id, issueDate: int, dueDate: int, status: string,
    subtotal: real, taxRate: real, taxAmount: real, total: real, paidAmount: real,
    gstInclusive: bool, exemptFromGst: bool, notes: string, termsConditions: string,
    items: seq<InvoiceItem>)

  datatype User = User(id: Id, name: string, email: string, tier: string, status: string)

  /** The error responses of the routes; the HTTP status is implied by the constructor. */
  datatype ApiError = Unauthorized | BadRequest(message: string) | NotFound(message: string)

  /** The balance of an account read with its normal sign. */
  function Signed(a: Account): real
  {
    NormalSign(a.kind) * a.balance
  }

  /**
   * The accounting identity's left side over the accounts `ks`:
   * Σ(asset + expense balances) − Σ(liability + equity + revenue balances).
   */
  ghost function Net(m: map<Id, Account>, ks: set<Id>): real
    requires ks <= m.Keys
    decreases ks
  {
    if ks == {} then 0.0 else var k :| k in ks; Signed(m[k]) + Net(m, ks - {k})
  }

  lemma {:induction false} NetPick(m: map<Id, Account>, ks: set<Id>, j: Id)
    requires ks <= m.Keys && j in ks
    ensures Net(m, ks) == Signed(m[j]) + Net(m, ks - {j})
    decreases ks
  {
    var k :| k in ks && Net(m, ks) == Signed(m[k]) + Net(m, ks - {k});
    if k != j {
      NetPick(m, ks - {k}, j);
      NetPick(m, ks - {j}, k);
      assert ks - {k} - {j} == ks - {j} - {k};
    }
  }

  lemma {:induction false} NetFrame(m: map<Id, Account>, m': map<Id, Account>, ks: set<Id>)
    requires ks <= m.Keys && ks <= m'.Keys
    requires forall k :: k in ks ==> Signed(m[k]) == Signed(m'[k])
    ensures Net(m, ks) == Net(m', ks)
    decreases ks
  {
    if ks != {} {
      var k :| k in ks && Net(m, ks) == Signed(m[k]) + Net(m, ks - {k});
      NetPick(m', ks, k);
      NetFrame(m, m', ks - {k});
    }
  }

  /** Changing one account changes the identity's value by exactly the change in that account's signed balance. */
  lemma NetUpdate(m: map<Id, Account>, k: Id, a: Account, ks: set<Id>)
    requires ks <= m.Keys && k in m
    ensures Net(m[k := a], ks) == Net(m, ks) + (if k in ks then Signed(a) - Signed(m[k]) else 0.0)
  {
    var m' := m[k := a];
    if k in ks {
      NetPick(m, ks, k);
      NetPick(m', ks, k);
      NetFrame(m, m', ks - {k});
    } else {
      NetFrame(m, m', ks);
    }
  }

  /** The accounts of tenant `u`. */
  ghost function OwnedBy(m: map<Id, Account>, u: Id): set<Id>
  {
    set k | k in m && m[k].owner == u
  }

  /** The two balance increments of a posting, debit leg first. */
  function ApplyPosting(m: map<Id, Account>, debit: Id, credit: Id, amount: real): (r: map<Id, Account>)
    requires debit in m && credit in m
    ensures r.Keys == m.Keys
    ensures forall k :: k in m ==> r[k] == m[k].(balance := r[k].balance)
  {
    var m1 := m[debit := Leg(m[debit], true, amount)];
    m1[credit := Leg(m1[credit], false, amount)]
  }

  /** One leg of a posting, on the account it touches. */
  function Leg(a: Account, isDebit: bool, amount: real): Account
  {
    a.(balance := a.balance + BalanceChange(TypeName(a.kind), isDebit, amount))
  }

  /** Read with its normal sign, a debit leg adds `amount` to the account and a credit leg subtracts it. */
  lemma LegSigned(a: Account, isDebit: bool, amount: real)
    ensures Signed(Leg(a, isDebit, amount)) == Signed(a) + (if isDebit then amount else -amount)
  {
    if DebitNormal(a.kind) {
      assert Signed(a) == a.balance;
    } else {
      assert Signed(a) == -a.balance;
    }
  }

  /**
   * A posting changes only the balances of its two accounts, and moves the identity by
   * +amount if the debit account is counted and −amount if the credit account is:
   * over any set holding both accounts the identity is unchanged.
   */
  lemma PostingMovesNet(m: map<Id, Account>, debit: Id, credit: Id, amount: real, ks: set<Id>)
    requires debit in m && credit in m && debit != credit && ks <= m.Keys
    ensures ApplyPosting(m, debit, credit, amount) == m[debit := Leg(m[debit], true, amount)][credit := Leg(m[credit], false, amount)]
    ensures Net(ApplyPosting(m, debit, credit, amount), ks) ==
              Net(m, ks) + (if debit in ks then amount else 0.0) - (if credit in ks then amount else 0.0)
  {
    var m1 := m[debit := Leg(m[debit], true, amount)];
    LegSigned(m[debit], true, amount);
    LegSigned(m[credit], false, amount);
    NetUpdate(m, debit, Leg(m[debit], true, amount), ks);
    NetUpdate(m1, credit, Leg(m[credit], false, amount), ks);
  }

  /** The accounting identity is kept by every posting, for the whole store and for each tenant. */
  lemma PostingKeepsIdentity(m: map<Id, Account>, debit: Id, credit: Id, amount: real, u: Id)
    requires debit in m && credit in m && debit != credit
    requires m[debit].owner == u && m[credit].owner == u
    ensures Net(ApplyPosting(m, debit, credit, amount), m.Keys) == Net(m, m.Keys)
    ensures OwnedBy(ApplyPosting(m, debit, credit, amount), u) == OwnedBy(m, u)
    ensures Net(ApplyPosting(m, debit, credit, amount), OwnedBy(m, u)) == Net(m, OwnedBy(m, u))
  {
    PostingMovesNet(m, debit, credit, amount, m.Keys);
    PostingMovesNet(m, debit, credit, amount, OwnedBy(m, u));
  }

  /** Per tenant, a non-null account code is used by at most one account. */
  ghost predicate CodesUnique(m: map<Id, Account>)
  {
    forall i, j :: i in m && j in m && i != j && m[i].owner == m[j].owner && m[i].code.Some? ==>
      m[i].code != m[j].code
  }

  /** The `users.email` column is UNIQUE. */
  ghost predicate EmailsUnique(users: map<Id, User>)
  {
    forall i, j :: i in users && j in users && i != j ==> users[i].email != users[j].email
  }

  /** Per tenant, a non-empty customer email is used by at most one customer. */
  ghost predicate CustomerEmailsUnique(m: map<Id, Customer>)
  {
    forall i, j :: i in m && j in m && i != j && m[i].owner == m[j].owner && m[i].email != "" ==>
      m[i].email != m[j].email
  }

  /** Per tenant, category names are distinct (kept by the categories route, see `CategoriesRoute`). */
  ghost predicate CategoryNamesUnique(m: map<Id, Category>, u: Id)
  {
    forall i, j :: i in m && j in m && i != j && m[i].owner == u && m[j].owner == u ==> m[i].name != m[j].name
  }

  /** A journal entry as the transactions route records it: positive, two distinct accounts of its own tenant. */
  ghost predicate Recorded(t: Transaction, accounts: map<Id, Account>, categories: map<Id, Category>)
  {
    && t.amount > 0.0
    && t.debit != t.credit
    && t.debit in accounts && accounts[t.debit].owner == t.owner
    && t.credit in accounts && accounts[t.credit].owner == t.owner
    && (t.category.Some? ==> t.category.value in categories && categories[t.category.value].owner == t.owner)
  }

  datatype Snapshot = Snapshot(
    users: map<Id, User>, accounts: map<Id, Account>, transactions: seq<Transaction>,
    categories: map<Id, Category>, customers: map<Id, Customer>, invoices: seq<Invoice>, nextId: nat)

  /** Every user is stored under its id, below the id counter. */
  ghost predicate UsersOk(users: map<Id, User>, nextId: nat)
  {
    forall k :: k in users ==> k < nextId && users[k].id == k
  }

  /** Every account is stored under its id, below the id counter, and belongs to a user. */
  ghost predicate AccountsOk(accounts: map<Id, Account>, users: map<Id, User>, nextId: nat)
  {
    forall k :: k in accounts ==> k < nextId && accounts[k].id == k && accounts[k].owner in users
  }

  /** Every category is stored under its id, below the id counter, and belongs to a user. */
  ghost predicate CategoriesOk(categories: map<Id, Category>, users: map<Id, User>, nextId: nat)
  {
    forall k :: k in categories ==> k < nextId && categories[k].id == k && categories[k].owner in users
  }

  /** Every customer is stored under its id, below the id counter, and belongs to a user. */
  ghost predicate CustomersOk(customers: map<Id, Customer>, users: map<Id, User>, nextId: nat)
  {
    forall k :: k in customers ==> k < nextId && customers[k].id == k && customers[k].owner in users
  }

  /** Every journal entry is one the transactions route accepts, with an id below the counter. */
  ghost predicate JournalOk(ts: seq<Transaction>, accounts: map<Id, Account>, categories: map<Id, Category>, nextId: nat)
  {
    forall i :: 0 <= i < |ts| ==> ts[i].id < nextId && Recorded(ts[i], accounts, categories)
  }

  /** Every invoice is for a customer of its own tenant. */
  ghost predicate InvoicesOk(invoices: seq<Invoice>, customers: map<Id, Customer>, nextId: nat)
  {
    forall i :: 0 <= i < |invoices| ==>
      invoices[i].id < nextId && invoices[i].customer in customers
      && customers[invoices[i].customer].owner == invoices[i].owner
  }

  /** The store's invariant: see `Db.Valid`. */
  ghost predicate Consistent(s: Snapshot)
  {
    && UsersOk(s.users, s.nextId)
    && AccountsOk(s.accounts, s.users, s.nextId)
    && CategoriesOk(s.categories, s.users, s.nextId)
    && CustomersOk(s.customers, s.users, s.nextId)
    && JournalOk(s.transactions, s.accounts, s.categories, s.nextId)
    && InvoicesOk(s.invoices, s.customers, s.nextId)
    && EmailsUnique(s.users)
    && CodesUnique(s.accounts)
    && CustomerEmailsUnique(s.customers)
  }

  /** `m'` holds every entry of `m` unchanged. */
  ghost predicate Extends<V>(m: map<Id, V>, m': map<Id, V>)
  {
    forall k :: k in m ==> k in m' && m'[k] == m[k]
  }

  lemma UsersGrow(users: map<Id, User>, n: nat, n': nat)
    requires UsersOk(users, n) && n <= n'
    ensures UsersOk(users, n')
  {
  }

  lemma AccountsGrow(accounts: map<Id, Account>, users: map<Id, User>, users': map<Id, User>, n: nat, n': nat)
    requires AccountsOk(accounts, users, n) && users.Keys <= users'.Keys && n <= n'
    ensures AccountsOk(accounts, users', n')
  {
  }

  lemma CategoriesGrow(categories: map<Id, Category>, users: map<Id, User>, users': map<Id, User>, n: nat, n': nat)
    requires CategoriesOk(categories, users, n) && users.Keys <= users'.Keys && n <= n'
    ensures CategoriesOk(categories, users', n')
  {
  }

  lemma CustomersGrow(customers: map<Id, Customer>, users: map<Id, User>, users': map<Id, User>, n: nat, n': nat)
    requires CustomersOk(customers, users, n) && users.Keys <= users'.Keys && n <= n'
    ensures CustomersOk(customers, users', n')
  {
  }

  /** The journal stays valid when accounts and categories only gain rows and the counter grows. */
  lemma JournalGrow(ts: seq<Transaction>, accounts: map<Id, Account>, accounts': map<Id, Account>,
                    categories: map<Id, Category>, categories': map<Id, Category>, n: nat, n': nat)
    requires JournalOk(ts, accounts, categories, n)
    requires Extends(accounts, accounts') && Extends(categories, categories') && n <= n'
    ensures JournalOk(ts, accounts', categories', n')
  {
    forall i | 0 <= i < |ts| ensures ts[i].id < n' && Recorded(ts[i], accounts', categories') {
      assert Recorded(ts[i], accounts, categories);
    }
  }

  lemma InvoicesGrow(invoices: seq<Invoice>, customers: map<Id, Customer>, customers': map<Id, Customer>, n: nat, n': nat)
    requires InvoicesOk(invoices, customers, n) && Extends(customers, customers') && n <= n'
    ensures InvoicesOk(invoices, customers', n')
  {
    forall i | 0 <= i < |invoices|
      ensures invoices[i].id < n' && invoices[i].customer in customers' && customers'[invoices[i].customer].owner == invoices[i].owner
    {
      assert invoices[i].customer in customers;
    }
  }

  /** Two account maps that differ at most in balances. */
  ghost predicate SameShape(m: map<Id, Account>, m': map<Id, Account>)
  {
    m'.Keys == m.Keys && forall k :: k in m ==> m'[k] == m[k].(balance := m'[k].balance)
  }

  lemma SameShapeKeeps(s: Snapshot, m': map<Id, Account>)
    requires Consistent(s) && SameShape(s.accounts, m')
    ensures Consistent(s.(accounts := m'))
  {
    assert AccountsOk(m', s.users, s.nextId) by {
      forall k | k in m' ensures k < s.nextId && m'[k].id == k && m'[k].owner in s.users {
        assert m'[k].id == s.accounts[k].id && m'[k].owner == s.accounts[k].owner;
      }
    }
    assert JournalOk(s.transactions, m', s.categories, s.nextId) by {
      forall i | 0 <= i < |s.transactions| ensures s.transactions[i].id < s.nextId && Recorded(s.transactions[i], m', s.categories) {
        var t := s.transactions[i];
        assert Recorded(t, s.accounts, s.categories);
        assert m'[t.debit].owner == s.accounts[t.debit].owner;
        assert m'[t.credit].owner == s.accounts[t.credit].owner;
      }
    }
    assert CodesUnique(m') by {
      forall i, j | i in m' && j in m' && i != j && m'[i].owner == m'[j].owner && m'[i].code.Some?
        ensures m'[i].code != m'[j].code
      {
        assert m'[i].code == s.accounts[i].code && m'[i].owner == s.accounts[i].owner;
        assert m'[j].code == s.accounts[j].code && m'[j].owner == s.accounts[j].owner;
      }
    }
  }

  /** Recording a checked entry and applying its two legs keeps the store consistent. */
  lemma PostingConsistent(s: Snapshot, t: Transaction)
    requires Consistent(s) && Recorded(t, s.accounts, s.categories) && t.id == s.nextId
    ensures Consistent(s.(transactions := s.transactions + [t],
                          accounts := ApplyPosting(s.accounts, t.debit, t.credit, t.amount),
                          nextId := s.nextId + 1))
  {
    var a := ApplyPosting(s.accounts, t.debit, t.credit, t.amount);
    SameShapeKeeps(s, a);
    var s1 := s.(accounts := a);
    assert Recorded(t, a, s.categories) by {
      assert a[t.debit].owner == s.accounts[t.debit].owner;
      assert a[t.credit].owner == s.accounts[t.credit].owner;
    }
    AppendEntryConsistent(s1, t);
  }

  /** Appending an accepted entry under a fresh id keeps the store consistent. */
  lemma AppendEntryConsistent(s: Snapshot, t: Transaction)
    requires Consistent(s) && Recorded(t, s.accounts, s.categories) && t.id == s.nextId
    ensures Consistent(s.(transactions := s.transactions + [t], nextId := s.nextId + 1))
  {
    var ts := s.transactions + [t];
    var n' := s.nextId + 1;
    assert JournalOk(ts, s.accounts, s.categories, n') by {
      forall i | 0 <= i < |ts| ensures ts[i].id < n' && Recorded(ts[i], s.accounts, s.categories) {
        if i < |s.transactions| {
          assert ts[i] == s.transactions[i];
        }
      }
    }
    UsersGrow(s.users, s.nextId, n');
    AccountsGrow(s.accounts, s.users, s.users, s.nextId, n');
    CategoriesGrow(s.categories, s.users, s.users, s.nextId, n');
    CustomersGrow(s.customers, s.users, s.users, s.nextId, n');
    InvoicesGrow(s.invoices, s.customers, s.customers, s.nextId, n');
  }

  /**
   * Inserting a batch of accounts with fresh ids `nextId .. nextId + n - 1`, owned by users,
   * whose non-null codes clash neither with each other nor with the owner's existing codes,
   * keeps the store consistent.
   */
  lemma AddAccountsConsistent(s: Snapshot, batch: map<Id, Account>, n: nat)
    requires Consistent(s)
    requires forall k :: k in batch ==> s.nextId <= k < s.nextId + n && batch[k].id == k && batch[k].owner in s.users
    requires CodesUnique(batch)
    requires forall i, j :: i in s.accounts && j in batch && s.accounts[i].owner == batch[j].owner && batch[j].code.Some? ==>
               s.accounts[i].code != batch[j].code
    ensures Consistent(s.(accounts := s.accounts + batch, nextId := s.nextId + n))
  {
    var m := s.accounts + batch;
    var n' := s.nextId + n;
    assert Extends(s.accounts, m) by {
      forall k | k in s.accounts ensures k in m && m[k] == s.accounts[k] {
        assert k !in batch;
      }
    }
    assert CodesUnique(m) by {
      forall i, j | i in m && j in m && i != j && m[i].owner == m[j].owner && m[i].code.Some?
        ensures m[i].code != m[j].code
      {
        if i in batch && j !in batch {
          assert m[j] == s.accounts[j];
        } else if i !in batch && j in batch {
          assert m[i] == s.accounts[i];
        }
      }
    }
    assert AccountsOk(m, s.users, n');
    UsersGrow(s.users, s.nextId, n');
    CategoriesGrow(s.categories, s.users, s.users, s.nextId, n');
    CustomersGrow(s.customers, s.users, s.users, s.nextId, n');
    JournalGrow(s.transactions, s.accounts, m, s.categories, s.categories, s.nextId, n');
    InvoicesGrow(s.invoices, s.customers, s.customers, s.nextId, n');
  }

  /** Adding one account under a fresh id, with a code its tenant does not use yet, keeps the store consistent. */
  lemma AddAccountConsistent(s: Snapshot, a: Account)
    requires Consistent(s) && a.id == s.nextId && a.owner in s.users
    requires a.code.Some? ==> forall k :: k in s.accounts && s.accounts[k].owner == a.owner ==> s.accounts[k].code != a.code
    ensures Consistent(s.(accounts := s.accounts[a.id := a], nextId := s.nextId + 1))
  {
    var batch := map[a.id := a];
    assert s.accounts + batch == s.accounts[a.id := a];
    AddAccountsConsistent(s, batch, 1);
  }

  /** One row of a built-in chart of accounts. */
  datatype AccountSpec = AccountSpec(name: string, code: nat, kind: AccountType, subType: string)

  ghost predicate CodesDistinct(specs: seq<AccountSpec>)
  {
    forall i, j :: 0 <= i < j < |specs| ==> specs[i].code != specs[j].code
  }

  /** Each row's code is larger than the previous row's. */
  predicate CodesAscending(specs: seq<AccountSpec>)
  {
    forall i :: 0 < i < |specs| ==> specs[i - 1].code < specs[i].code
  }

  /** A chart listed in ascending code order has no repeated code. */
  lemma AscendingCodesDistinct(specs: seq<AccountSpec>)
    requires CodesAscending(specs)
    ensures CodesDistinct(specs)
  {
    forall i, j | 0 <= i < j < |specs| ensures specs[i].code != specs[j].code {
      AscendingBelow(specs, i, j);
    }
  }

  lemma {:induction false} AscendingBelow(specs: seq<AccountSpec>, i: nat, j: nat)
    requires CodesAscending(specs) && i < j < |specs|
    ensures specs[i].code < specs[j].code
  {
    if i < j - 1 {
      AscendingBelow(specs, i, j - 1);
    }
  }

  /** The ids `lo .. lo + n - 1`. */
  function IdRange(lo: nat, n: nat): (r: set<Id>)
    ensures |r| == n
    ensures forall k :: k in r <==> lo <= k < lo + n
  {
    if n == 0 then {} else IdRange(lo, n - 1) + {lo + n - 1}
  }

  /** The description the setup route writes on a default account: `Default ${type.toLowerCase()} account`. */
  function DefaultDescription(t: AccountType): string
  {
    "Default " + Text.Lower(TypeName(t)) + " account"
  }

  function RowDescription(spec: AccountSpec, described: bool): Option<string>
  {
    if described then Some(DefaultDescription(spec.kind)) else None
  }

  /** A built-in chart inserted for `owner` under ids `base ..`: every row active with balance 0. */
  function DefaultBatch(specs: seq<AccountSpec>, owner: Id, base: nat, described: bool): (r: map<Id, Account>)
    ensures |r| == |specs|
    ensures forall k :: k in r <==> base <= k < base + |specs|
    ensures forall k :: k in r ==> r[k].id == k && r[k].owner == owner && r[k].balance == 0.0 && r[k].isActive
  {
    var r := map k | k in IdRange(base, |specs|) ::
      Account(k, owner, specs[k - base].name, Some(Text.Decimal(specs[k - base].code)), specs[k - base].kind,
              Some(specs[k - base].subType), RowDescription(specs[k - base], described), 0.0, true);
    assert r.Keys == IdRange(base, |specs|);
    r
  }

  /** Row `k` of a batch is the chart's row `k - base`, with its code and subtype set. */
  lemma DefaultBatchRow(specs: seq<AccountSpec>, owner: Id, base: nat, described: bool, k: Id)
    requires base <= k < base + |specs|
    ensures var spec := specs[k - base];
            DefaultBatch(specs, owner, base, described)[k] ==
              Account(k, owner, spec.name, Some(Text.Decimal(spec.code)), spec.kind, Some(spec.subType),
                      RowDescription(spec, described), 0.0, true)
  {
  }

  /** A chart whose codes are pairwise distinct gives a batch whose codes are pairwise distinct. */
  lemma DefaultBatchCodesUnique(specs: seq<AccountSpec>, owner: Id, base: nat, described: bool)
    requires CodesDistinct(specs)
    ensures CodesUnique(DefaultBatch(specs, owner, base, described))
  {
    var b := DefaultBatch(specs, owner, base, described);
    forall i, j | i in b && j in b && i != j && b[i].owner == b[j].owner && b[i].code.Some?
      ensures b[i].code != b[j].code
    {
      DefaultBatchRow(specs, owner, base, described, i);
      DefaultBatchRow(specs, owner, base, described, j);
      if b[i].code == b[j].code {
        Text.DecimalInjective(specs[i - base].code, specs[j - base].code);
      }
    }
  }

  /** A built-in chart inserted for a tenant without accounts becomes exactly that tenant's chart. */
  lemma DefaultBatchForNewTenant(m: map<Id, Account>, specs: seq<AccountSpec>, u: Id, base: nat, described: bool)
    requires forall k :: k in m ==> k < base && m[k].owner != u
    ensures var b := DefaultBatch(specs, u, base, described);
            && OwnedBy(m + b, u) == b.Keys
            && |OwnedBy(m + b, u)| == |specs|
            && (forall k :: k in m ==> k in m + b && (m + b)[k] == m[k])
  {
    var b := DefaultBatch(specs, u, base, described);
    assert forall k :: k in m ==> k !in b;
    assert OwnedBy(m + b, u) == b.Keys;
    assert |b.Keys| == |b|;
  }

  lemma DefaultBatchFresh(s: Snapshot, specs: seq<AccountSpec>, u: Id, described: bool)
    requires u in s.users
    requires forall k :: k in s.accounts ==> s.accounts[k].owner != u
    ensures var b := DefaultBatch(specs, u, s.nextId, described);
            && (forall k :: k in b ==> s.nextId <= k < s.nextId + |specs| && b[k].id == k && b[k].owner in s.users)
            && (forall i, j :: i in s.accounts && j in b && s.accounts[i].owner == b[j].owner && b[j].code.Some? ==>
                  s.accounts[i].code != b[j].code)
  {
  }

  /** The store after inserting the chart `specs` for `u` under fresh ids. */
  ghost function InstallChart(s: Snapshot, specs: seq<AccountSpec>, u: Id, described: bool): Snapshot
  {
    Snapshot(s.users, s.accounts + DefaultBatch(specs, u, s.nextId, described), s.transactions,
             s.categories, s.customers, s.invoices, s.nextId + |specs|)
  }

  /** Installing a chart with distinct codes for a user who has no accounts keeps the store consistent. */
  lemma InstallChartConsistent(s: Snapshot, specs: seq<AccountSpec>, u: Id, described: bool)
    requires Consistent(s) && u in s.users && CodesDistinct(specs)
    requires forall k :: k in s.accounts ==> s.accounts[k].owner != u
    ensures Consistent(InstallChart(s, specs, u, described))
  {
    DefaultBatchCodesUnique(specs, u, s.nextId, described);
    DefaultBatchFresh(s, specs, u, described);
    AddAccountsConsistent(s, DefaultBatch(specs, u, s.nextId, described), |specs|);
  }

  /** Inserting a batch of categories with fresh ids owned by users keeps the store consistent. */
  lemma AddCategoriesConsistent(s: Snapshot, batch: map<Id, Category>, n: nat)
    requires Consistent(s)
    requires forall k :: k in batch ==> s.nextId <= k < s.nextId + n && batch[k].id == k && batch[k].owner in s.users
    ensures Consistent(Snapshot(s.users, s.accounts, s.transactions, s.categories + batch, s.customers, s.invoices, s.nextId + n))
  {
    var c := s.categories + batch;
    var n' := s.nextId + n;
    assert Extends(s.categories, c) by {
      forall k | k in s.categories ensures k in c && c[k] == s.categories[k] {
        assert k !in batch;
      }
    }
    assert CategoriesOk(c, s.users, n');
    UsersGrow(s.users, s.nextId, n');
    AccountsGrow(s.accounts, s.users, s.users, s.nextId, n');
    CustomersGrow(s.customers, s.users, s.users, s.nextId, n');
    JournalGrow(s.transactions, s.accounts, s.accounts, s.categories, c, s.nextId, n');
    InvoicesGrow(s.invoices, s.customers, s.customers, s.nextId, n');
  }

  /** Registering a user under a fresh id and an unused email keeps the store consistent. */
  lemma AddUserConsistent(s: Snapshot, u: User)
    requires Consistent(s) && u.id == s.nextId
    requires forall k :: k in s.users ==> s.users[k].email != u.email
    ensures Consistent(s.(users := s.users[u.id := u], nextId := s.nextId + 1))
  {
    var users := s.users[u.id := u];
    var n' := s.nextId + 1;
    assert UsersOk(users, n');
    AccountsGrow(s.accounts, s.users, users, s.nextId, n');
    CategoriesGrow(s.categories, s.users, users, s.nextId, n');
    CustomersGrow(s.customers, s.users, users, s.nextId, n');
    JournalGrow(s.transactions, s.accounts, s.accounts, s.categories, s.categories, s.nextId, n');
    InvoicesGrow(s.invoices, s.customers, s.customers, s.nextId, n');
  }

  /** Adding a customer under a fresh id, whose non-empty email its tenant does not use yet, keeps the store consistent. */
  lemma AddCustomerConsistent(s: Snapshot, c: Customer)
    requires Consistent(s) && c.id == s.nextId && c.owner in s.users
    requires c.email != "" ==> forall k :: k in s.customers && s.customers[k].owner == c.owner ==> s.customers[k].email != c.email
    ensures Consistent(s.(customers := s.customers[c.id := c], nextId := s.nextId + 1))
  {
    var m := s.customers[c.id := c];
    var n' := s.nextId + 1;
    assert c.id !in s.customers;
    assert Extends(s.customers, m);
    assert CustomersOk(m, s.users, n');
    UsersGrow(s.users, s.nextId, n');
    AccountsGrow(s.accounts, s.users, s.users, s.nextId, n');
    CategoriesGrow(s.categories, s.users, s.users, s.nextId, n');
    JournalGrow(s.transactions, s.accounts, s.accounts, s.categories, s.categories, s.nextId, n');
    InvoicesGrow(s.invoices, s.customers, m, s.nextId, n');
  }

  /** Appending an invoice under a fresh id for a customer of its own tenant keeps the store consistent. */
  lemma AddInvoiceConsistent(s: Snapshot, inv: Invoice)
    requires Consistent(s) && inv.id == s.nextId
    requires inv.customer in s.customers && s.customers[inv.customer].owner == inv.owner
    ensures Consistent(s.(invoices := s.invoices + [inv], nextId := s.nextId + 1))
  {
    var invs := s.invoices + [inv];
    var n' := s.nextId + 1;
    assert InvoicesOk(invs, s.customers, n') by {
      forall i | 0 <= i < |invs|
        ensures invs[i].id < n' && invs[i].customer in s.customers && s.customers[invs[i].customer].owner == invs[i].owner
      {
        if i < |s.invoices| { assert invs[i] == s.invoices[i]; }
      }
    }
    UsersGrow(s.users, s.nextId, n');
    AccountsGrow(s.accounts, s.users, s.users, s.nextId, n');
    CategoriesGrow(s.categories, s.users, s.users, s.nextId, n');
    CustomersGrow(s.customers, s.users, s.users, s.nextId, n');
    JournalGrow(s.transactions, s.accounts, s.accounts, s.categories, s.categories, s.nextId, n');
  }

  /** Dropping journal entries keeps the store consistent. */
  lemma DropTransactionsConsistent(s: Snapshot, keep: seq<Transaction>)
    requires Consistent(s)
    requires forall i :: 0 <= i < |keep| ==> keep[i] in s.transactions
    ensures Consistent(s.(transactions := keep))
  {
    forall i | 0 <= i < |keep| ensures keep[i].id < s.nextId && Recorded(keep[i], s.accounts, s.categories) {
      assert keep[i] in s.transactions;
      var j :| 0 <= j < |s.transactions| && s.transactions[j] == keep[i];
    }
  }

  class Db {
    var users: map<Id, User>
    var accounts: map<Id, Account>
    var transactions: seq<Transaction>
    var categories: map<Id, Category>
    var customers: map<Id, Customer>
    var invoices: seq<Invoice>
    var nextId: nat

    ghost function State(): Snapshot
      reads this
    {
      Snapshot(users, accounts, transactions, categories, customers, invoices, nextId)
    }

    /** Ids are keys and below `nextId`, every row's tenant is a user, and the uniqueness rules hold. */
    ghost predicate Valid()
      reads this
    {
      Consistent(State())
    }

    constructor ()
      ensures Valid()
      ensures users == map[] && accounts == map[] && transactions == [] && categories == map[]
      ensures customers == map[] && invoices == [] && nextId == 0
    {
      users, accounts, transactions, categories := map[], map[], [], map[];
      customers, invoices, nextId := map[], [], 0;
    }

    /** `createMany` of a built-in chart for `u`: one account per row, under fresh ids. */
    method InsertChart(specs: seq<AccountSpec>, u: Id, described: bool)
      modifies this
      ensures State() == InstallChart(old(State()), specs, u, described)
    {
      ghost var s := State();
      var batch := DefaultBatch(specs, u, nextId, described);
      ghost var t := Snapshot(s.users, s.accounts + batch, s.transactions, s.categories, s.customers, s.invoices, s.nextId + |specs|);
      assert InstallChart(s, specs, u, described) == t;
      accounts, nextId := accounts + batch, nextId + |specs|;
      assert State() == t;
    }
  }

  /** A session: absent when unauthenticated, otherwise it names a registered user. */
  ghost predicate SessionOk(db: Db, session: Option<Id>)
    reads db
  {
    session.Some? ==> session.value in db.users
  }
}
