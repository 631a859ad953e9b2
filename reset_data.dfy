/** `POST /api/reset-data`: delete the caller's journal and zero the caller's balances. */
module ResetDataRoute {
  import opened Wrappers
  import opened Ledger
  import Seqs

  const Done := "All transaction data reset successfully. Account balances reset to zero."

  /** `deleteMany({ where: { userId } })` on the journal. */
  function KeepOthers(ts: seq<Transaction>, u: Id): (r: seq<Transaction>)
    ensures forall i :: 0 <= i < |r| ==> r[i].owner != u && r[i] in ts
  {
    Seqs.Filter(ts, (t: Transaction) => t.owner != u)
  }

  /** `updateMany({ where: { userId }, data: { balance: 0 } })` on the accounts. */
  function ZeroBalances(m: map<Id, Account>, u: Id): (r: map<Id, Account>)
    ensures SameShape(m, r)
    ensures forall k :: k in r && r[k].owner == u ==> r[k].balance == 0.0
    ensures forall k :: k in r && r[k].owner != u ==> r[k] == m[k]
  {
    map k | k in m :: if m[k].owner == u then m[k].(balance := 0.0) else m[k]
  }

  /** The store after a reset by `u`. */
  ghost function Reset(s: Snapshot, u: Id): Snapshot
  {
    s.(transactions := KeepOthers(s.transactions, u), accounts := ZeroBalances(s.accounts, u))
  }

  /** Every other tenant keeps exactly its journal entries, in order. */
  lemma ResetKeepsOthersJournal(ts: seq<Transaction>, u: Id, v: Id)
    requires v != u
    ensures Seqs.Filter(KeepOthers(ts, u), (t: Transaction) => t.owner == v) == Seqs.Filter(ts, (t: Transaction) => t.owner == v)
  {
    Seqs.FilterFilter(ts, (t: Transaction) => t.owner != u, (t: Transaction) => t.owner == v);
  }

  /** After a reset the caller's chart reads zero in the accounting identity. */
  lemma ResetZeroesNet(m: map<Id, Account>, u: Id)
    ensures OwnedBy(ZeroBalances(m, u), u) == OwnedBy(m, u)
    ensures Net(ZeroBalances(m, u), OwnedBy(m, u)) == 0.0
  {
    var z := ZeroBalances(m, u);
    NetOfZeros(z, OwnedBy(m, u));
  }

  lemma {:induction false} NetOfZeros(m: map<Id, Account>, ks: set<Id>)
    requires ks <= m.Keys
    requires forall k :: k in ks ==> m[k].balance == 0.0
    ensures Net(m, ks) == 0.0
    decreases ks
  {
    if ks != {} {
      var k :| k in ks && Net(m, ks) == Signed(m[k]) + Net(m, ks - {k});
      NetOfZeros(m, ks - {k});
      assert Signed(m[k]) == NormalSign(m[k].kind) * 0.0;
    }
  }

  /** Resetting twice leaves the store as resetting once. */
  lemma ResetIdempotent(s: Snapshot, u: Id)
    ensures Reset(Reset(s, u), u) == Reset(s, u)
  {
    Seqs.FilterFilter(s.transactions, (t: Transaction) => t.owner != u, (t: Transaction) => t.owner != u);
    assert ZeroBalances(ZeroBalances(s.accounts, u), u) == ZeroBalances(s.accounts, u);
  }

  method Post(db: Db, session: Option<Id>) returns (r: Result<string, ApiError>)
    requires db.Valid() && SessionOk(db, session)
    modifies db
    ensures db.Valid()
    ensures session.None? ==> r == Err(Unauthorized) && unchanged(db)
    ensures session.Some? ==> r == Ok(Done) && db.State() == Reset(old(db.State()), session.value)
  {
    if session.None? {
      return Err(Unauthorized);
    }
    var u := session.value;
    ghost var s := db.State();
    ghost var s1 := s.(transactions := KeepOthers(s.transactions, u));
    DropTransactionsConsistent(s, KeepOthers(s.transactions, u));
    SameShapeKeeps(s1, ZeroBalances(s.accounts, u));
    db.transactions := KeepOthers(db.transactions, u);
    db.accounts := ZeroBalances(db.accounts, u);
    assert db.State() == Reset(s, u);
    r := Ok(Done);
  }
}
