/** The chart-of-accounts page: the accounts grouped into one section per type, and the section labels. */
module AccountsPage {
  import opened Ledger
  import Seqs
  import Text

  /** The types of the accounts, in list order. */
  function Kinds(accounts: seq<Account>): (r: seq<AccountType>)
    ensures |r| == |accounts| && forall i :: 0 <= i < |r| ==> r[i] == accounts[i].kind
  {
    seq(|accounts|, i requires 0 <= i < |accounts| => accounts[i].kind)
  }

  /** The accounts of type `kind`, in list order. */
  function Group(accounts: seq<Account>, kind: AccountType): seq<Account>
  {
    Seqs.Filter(accounts, OfKind(kind))
  }

  function OfKind(kind: AccountType): Account -> bool
  {
    (a: Account) => a.kind == kind
  }

  lemma GroupSnoc(accounts: seq<Account>, a: Account)
    ensures forall k :: Group(accounts + [a], k) == if a.kind == k then Group(accounts, k) + [a] else Group(accounts, k)
  {
    forall k {
      Seqs.FilterSnoc(accounts, a, OfKind(k));
    }
  }

  /** The number of accounts filed under the keys. */
  function SizeSum(keys: seq<AccountType>, groups: map<AccountType, seq<Account>>): nat
    requires forall k :: k in keys ==> k in groups
  {
    if keys == [] then 0 else |groups[keys[0]]| + SizeSum(keys[1..], groups)
  }

  lemma {:induction false} SizeSumAppend(keys: seq<AccountType>, k: AccountType, groups: map<AccountType, seq<Account>>)
    requires forall j :: j in keys ==> j in groups
    requires k in groups
    ensures SizeSum(keys + [k], groups) == SizeSum(keys, groups) + |groups[k]|
  {
    if keys == [] {
      assert [k][1..] == [];
    } else {
      assert (keys + [k])[1..] == keys[1..] + [k];
      SizeSumAppend(keys[1..], k, groups);
    }
  }

  lemma {:induction false} SizeSumFrame(keys: seq<AccountType>, groups: map<AccountType, seq<Account>>, k: AccountType, v: seq<Account>)
    requires forall j :: j in keys ==> j in groups
    requires k !in keys
    ensures SizeSum(keys, groups[k := v]) == SizeSum(keys, groups)
  {
    if keys != [] {
      SizeSumFrame(keys[1..], groups, k, v);
    }
  }

  lemma {:induction false} SizeSumUpdate(keys: seq<AccountType>, groups: map<AccountType, seq<Account>>, k: AccountType, v: seq<Account>)
    requires forall j :: j in keys ==> j in groups
    requires k in keys && forall a, b :: 0 <= a < b < |keys| ==> keys[a] != keys[b]
    ensures SizeSum(keys, groups[k := v]) == SizeSum(keys, groups) - |groups[k]| + |v|
  {
    if keys[0] == k {
      assert k !in keys[1..];
      SizeSumFrame(keys[1..], groups, k, v);
    } else {
      SizeSumUpdate(keys[1..], groups, k, v);
    }
  }

  /** `groups` and `keys` are the grouping of `accounts`. */
  predicate Grouped(accounts: seq<Account>, groups: map<AccountType, seq<Account>>, keys: seq<AccountType>)
  {
    && (forall k :: k in groups <==> k in keys)
    && keys == Seqs.KeepFirst(Kinds(accounts))
    && (forall k :: k in groups ==> groups[k] == Group(accounts, k) && groups[k] != [])
    && (forall k :: k !in groups ==> Group(accounts, k) == [])
  }

  /** The list of `kind` after `a` is pushed, creating the list first when there is none. */
  function Pushed(groups: map<AccountType, seq<Account>>, a: Account): map<AccountType, seq<Account>>
  {
    var created := if a.kind in groups then groups else groups[a.kind := []];
    created[a.kind := created[a.kind] + [a]]
  }

  function Keyed(keys: seq<AccountType>, groups: map<AccountType, seq<Account>>, a: Account): seq<AccountType>
  {
    if a.kind in groups then keys else keys + [a.kind]
  }

  /** A type has a section exactly when some account is of that type. */
  lemma GroupedHas(accounts: seq<Account>, groups: map<AccountType, seq<Account>>, keys: seq<AccountType>)
    requires Grouped(accounts, groups, keys)
    ensures forall k :: k in groups <==> k in Kinds(accounts)
  {
    forall k | k in Kinds(accounts) ensures k in groups {
      var i :| 0 <= i < |accounts| && Kinds(accounts)[i] == k;
      assert accounts[i] in Group(accounts, k);
    }
    forall k | k in groups ensures k in Kinds(accounts) {
      var b := groups[k][0];
      assert b in accounts && b.kind == k;
      var i :| 0 <= i < |accounts| && accounts[i] == b;
      assert Kinds(accounts)[i] == k;
    }
  }

  lemma KeysStep(accounts: seq<Account>, a: Account, keys: seq<AccountType>)
    requires keys == Seqs.KeepFirst(Kinds(accounts))
    ensures (if a.kind in Kinds(accounts) then keys else keys + [a.kind]) == Seqs.KeepFirst(Kinds(accounts + [a]))
  {
    assert Kinds(accounts + [a]) == Kinds(accounts) + [a.kind];
    Seqs.KeepFirstSnoc(Kinds(accounts), a.kind);
  }

  lemma GroupsStep(accounts: seq<Account>, a: Account, groups: map<AccountType, seq<Account>>)
    requires forall k :: k in groups ==> groups[k] == Group(accounts, k) && groups[k] != []
    requires forall k :: k !in groups ==> Group(accounts, k) == []
    ensures forall k :: k in Pushed(groups, a) ==> Pushed(groups, a)[k] == Group(accounts + [a], k) && Pushed(groups, a)[k] != []
    ensures forall k :: k !in Pushed(groups, a) ==> Group(accounts + [a], k) == []
  {
    GroupSnoc(accounts, a);
  }

  lemma SizeStep(keys: seq<AccountType>, groups: map<AccountType, seq<Account>>, a: Account)
    requires forall k :: k in groups <==> k in keys
    requires forall x, y :: 0 <= x < y < |keys| ==> keys[x] != keys[y]
    ensures forall k :: k in Keyed(keys, groups, a) ==> k in Pushed(groups, a)
    ensures SizeSum(Keyed(keys, groups, a), Pushed(groups, a)) == SizeSum(keys, groups) + 1
  {
    var k := a.kind;
    var created := if k in groups then groups else groups[k := []];
    var groups' := Pushed(groups, a);
    if k in groups {
      SizeSumUpdate(keys, groups, k, groups'[k]);
    } else {
      SizeSumFrame(keys, created, k, groups'[k]);
      SizeSumFrame(keys, groups, k, []);
      SizeSumAppend(keys, k, groups');
    }
  }

  /** One more account: its type's list is created if need be, then the account is pushed to it. */
  lemma GroupedStep(accounts: seq<Account>, a: Account, groups: map<AccountType, seq<Account>>, keys: seq<AccountType>)
    requires Grouped(accounts, groups, keys)
    ensures forall j :: j in keys ==> j in groups
    ensures Grouped(accounts + [a], Pushed(groups, a), Keyed(keys, groups, a))
    ensures forall j :: j in Keyed(keys, groups, a) ==> j in Pushed(groups, a)
    ensures SizeSum(Keyed(keys, groups, a), Pushed(groups, a)) == SizeSum(keys, groups) + 1
  {
    GroupedHas(accounts, groups, keys);
    KeysStep(accounts, a, keys);
    GroupsStep(accounts, a, groups);
    Seqs.KeepFirstSpec(Kinds(accounts));
    SizeStep(keys, groups, a);
  }

  /**
   * `getAccountsByType`: a record keyed by type, each list created on the type's first account and
   * pushed to in place; `keys` is the record's key order, which `Object.entries` follows.
   * The sections come in the order the types first occur, each once; a section holds exactly the
   * accounts of its type in list order, is never empty, and the sections together hold every account once.
   */
  method GroupByType(accounts: seq<Account>) returns (groups: map<AccountType, seq<Account>>, keys: seq<AccountType>)
    ensures forall k :: k in groups <==> k in keys
    ensures keys == Seqs.KeepFirst(Kinds(accounts))
    ensures forall k :: k in groups ==> groups[k] == Group(accounts, k) && groups[k] != []
    ensures forall k :: k !in groups ==> Group(accounts, k) == []
    ensures SizeSum(keys, groups) == |accounts|
  {
    groups := map[];
    keys := [];
    for i := 0 to |accounts|
      invariant Grouped(accounts[..i], groups, keys)
      invariant SizeSum(keys, groups) == i
    {
      var a := accounts[i];
      GroupedStep(accounts[..i], a, groups, keys);
      Seqs.PrefixSnoc(accounts, i);
      ghost var next, nextKeys := Pushed(groups, a), Keyed(keys, groups, a);
      if a.kind !in groups {
        groups := groups[a.kind := []];
        keys := keys + [a.kind];
      }
      groups := groups[a.kind := groups[a.kind] + [a]];
      assert groups == next && keys == nextKeys;
    }
    assert accounts[..|accounts|] == accounts;
  }

  /** Every account sits in the section of its own type and in no other. */
  lemma SectionsPartition(accounts: seq<Account>)
    ensures forall i :: 0 <= i < |accounts| ==> accounts[i] in Group(accounts, accounts[i].kind)
    ensures forall k, a :: a in Group(accounts, k) ==> a.kind == k && a in accounts
  {
  }

  /** `type.charAt(0) + type.slice(1).toLowerCase()`. */
  function Label(kind: AccountType): string
  {
    Text.Capitalize(TypeName(kind))
  }

  /** The labels read "Asset", "Liability", "Equity", "Revenue" and "Expense". */
  lemma Labels()
    ensures Label(Asset) == "Asset" && Label(Liability) == "Liability" && Label(Equity) == "Equity"
    ensures Label(Revenue) == "Revenue" && Label(Expense) == "Expense"
  {
  }
}
