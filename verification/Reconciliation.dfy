/** Comparing a stored balance with the signed sum of the wallet's ledger entries. */
module Reconciliation {
  import opened Text
  import opened Wrappers
  import opened Monetary
  import opened Model
  import opened Records
  import opened Store
  import opened Invariant

  function Signed(e: Entry): int {
    if e.direction.Credit? then e.amount.minor as int else -(e.amount.minor as int)
  }

  /** The aggregate of the snapshot query, an arbitrary-precision number. */
  function SignedSum(es: seq<Entry>): int {
    if es == [] then 0 else SignedSum(es[..|es| - 1]) + Signed(es[|es| - 1])
  }

  /** The sum is additive over the entries, a credit counting for and a debit against. */
  lemma {:induction false} SignedSumAdds(a: seq<Entry>, b: seq<Entry>)
    ensures SignedSum(a + b) == SignedSum(a) + SignedSum(b)
  {
    if b == [] {
      assert a + b == a;
    } else {
      var n := |b| - 1;
      SignedSumAdds(a, b[..n]);
      assert (a + b)[..|a + b| - 1] == a + b[..n];
    }
  }

  lemma SignedSumOfOne(e: Entry)
    ensures SignedSum([]) == 0
    ensures SignedSum([e]) == if e.direction == Credit then e.amount.minor as int else -(e.amount.minor as int)
  {
    assert [e][..0] == [];
  }

  datatype Snapshot = Snapshot(stored: int64, currency: Currency, calculated: int, checked: nat)

  /** One consistent read of the wallet and its entries. */
  function SnapshotOf(db: Store, wallet: string): Option<Snapshot> {
    if wallet !in db.wallets then None
    else
      var row, es := db.wallets[wallet], EntriesOf(db.ledger, wallet);
      Some(Snapshot(row.balance.minor, row.balance.currency, SignedSum(es), |es|))
  }

  datatype ReconcileError = InvalidWalletID | NotFound | InvalidSnapshot | OutOfRange

  datatype Report = Report(wallet: string, stored: Money, calculated: Money, difference: Money, consistent: bool, checked: nat)

  /** `Reconcile`, on any tables: the report confronts the stored balance with the signed sum of the
      wallet's entries, and the range checks refuse exactly the sums that 64 bits cannot report. */
  function Reconcile(db: Store, wallet: string): (r: Result<Report, ReconcileError>)
    ensures r == Err(InvalidWalletID) <==> !ValidUuid(wallet)
    ensures r == Err(NotFound) <==> ValidUuid(wallet) && wallet !in db.wallets
    ensures ValidUuid(wallet) && wallet in db.wallets ==>
              var b, es := db.wallets[wallet].balance, EntriesOf(db.ledger, wallet);
              var sum := SignedSum(es);
              && (r == Err(InvalidSnapshot) <==> !b.Valid() || b.minor < 0)
              && (r == Err(OutOfRange) <==> b.Valid() && b.minor >= 0 && (!InRange(sum) || !InRange(b.minor as int - sum)))
              && (r.Ok? ==>
                    && r.value.wallet == wallet && r.value.stored == b && r.value.checked == |es|
                    && r.value.calculated.minor as int == sum && r.value.calculated.currency == b.currency
                    && r.value.difference.minor as int == b.minor as int - sum && r.value.difference.currency == b.currency
                    && (r.value.consistent <==> sum == b.minor as int))
  {
    if !ValidUuid(wallet) then Err(InvalidWalletID)
    else
      match SnapshotOf(db, wallet)
      case None => Err(NotFound)
      case Some(s) =>
        if !s.currency.Valid() || s.stored < 0 then Err(InvalidSnapshot)
        else if !InRange(s.calculated) || !InRange(s.stored as int - s.calculated) then Err(OutOfRange)
        else
          var difference := s.stored as int - s.calculated;
          Ok(Report(wallet, Money(s.stored, s.currency), Money(s.calculated as int64, s.currency),
                    Money(difference as int64, s.currency), difference == 0, s.checked))
  }

  /** Balances telescope along a chain. */
  lemma {:induction false} PrefixSum(es: seq<Entry>, row: WalletRow, n: nat)
    requires Chain(es, row) && n <= |es|
    ensures SignedSum(es[..n]) == if n == 0 then 0 else es[n - 1].after.minor as int
  {
    if n > 0 {
      PrefixSum(es, row, n - 1);
      assert es[..n][..n - 1] == es[..n - 1];
      assert EntryValid(es[n - 1]);
      if n > 1 {
        assert Continues(es[n - 2], es[n - 1]);
      }
    }
  }

  lemma ChainSum(es: seq<Entry>, row: WalletRow)
    requires Chain(es, row)
    ensures SignedSum(es) == row.balance.minor as int
  {
    PrefixSum(es, row, |es|);
    assert es[..|es|] == es;
  }

  /** On tables that satisfy the invariant a wallet always reconciles, with nothing out of range. */
  lemma AlwaysConsistent(db: Store, wallet: string)
    requires WalletsOk(db) && ChainsOk(db) && wallet in db.wallets && ValidUuid(wallet)
    ensures var b := db.wallets[wallet].balance;
            Reconcile(db, wallet) == Ok(Report(wallet, b, b, b.(minor := 0), true, |EntriesOf(db.ledger, wallet)|))
  {
    ChainSum(EntriesOf(db.ledger, wallet), db.wallets[wallet]);
  }
}
