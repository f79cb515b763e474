/** Resuming refines submitting: a transaction that arrives before its reference ends as it would
    have ended in order. */
module Convergence {
  import opened Text
  import opened Wrappers
  import opened Monetary
  import opened Model
  import opened Settlement
  import opened Store
  import opened Accounting
  import opened Invariant
  import opened Soundness
  import opened Engine
  import opened Machine

  function Relabelled(e: Event, correlation: string): Event {
    e.(correlation := correlation)
  }

  /** The same writes, the events labelled with another correlation id. */
  predicate SameUnderLabel(c: Changes, d: Changes, correlation: string) {
    && c.account == d.account && c.tx == d.tx && c.schedule == d.schedule && c.entry == d.entry
    && |c.events| == |d.events|
    && forall i :: 0 <= i < |c.events| ==> Relabelled(c.events[i], correlation) == d.events[i]
  }

  /** The row that `t` becomes when it starts to wait. */
  function Waiting(t: Tx, since: Time): Tx {
    t.(status := PendingReference, updatedAt := since)
  }

  lemma SettleIgnoresWaiting(a: WalletRow, t: Tx, since: Time, reference: Option<Tx>, failure: Option<FailureCode>,
                             reversed: bool, correlation: string, ids: Ids, now: Time)
    requires Ready(a, t, now) && Ready(a, Waiting(t, since), now) && ValidID(correlation)
    ensures var c := Settle(a, t, reference, failure, reversed, correlation, ids, now);
            var d := Settle(a, Waiting(t, since), reference, failure, reversed, t.ident.id, ids, now);
            && (c.Ok? <==> d.Ok?)
            && (c.Ok? ==> SameUnderLabel(c.value, d.value, t.ident.id))
            && (c.Err? ==> c.error == d.error)
  {}

  /** With a settled reference, resuming a waiting transaction writes the same row, wallet, entry
      and events as submitting it at that moment, and is done whether or not it has expired. */
  lemma ResumeRefinesSubmit(a: WalletRow, t: Tx, since: Time, found: Option<Tx>, reversed: bool, expired: bool,
                            correlation: string, ids: Ids, now: Time)
    requires Ready(a, t, now) && t.status.Pending? && Ready(a, Waiting(t, since), now) && ValidID(correlation)
    requires Resolve(t.ident, found).Resolved?
    ensures var c := Process(a, t, found, reversed, correlation, ids, now);
            var d := Resume(a, Waiting(t, since), found, reversed, expired, ids, now);
            && (c.Ok? <==> d.Ok?)
            && (c.Ok? ==> d.value.Some? && SameUnderLabel(c.value, d.value.value, t.ident.id))
            && (c.Err? ==> c.error == d.error)
  {
    var r := Resolve(t.ident, found);
    SettleIgnoresWaiting(a, t, since, Some(r.reference), r.failure, reversed, correlation, ids, now);
  }

  // ----- Arrivals -----

  /** One submission as it reaches the engine: its input, drawn ids and clock readings. */
  datatype Arrival = Arrival(input: Input, hash: string, id: string, received: Time, reading: Time, ids: Ids)

  function TxOf(x: Arrival): Tx {
    NewTx(x.input, x.hash, x.id, x.received)
  }

  /** The submission is acceptable, its identity is fresh and its wallet fits. */
  predicate CanArrive(db: Store, x: Arrival) {
    && Accepted(x.input, x.hash, x.id, x.received) && IdsValid(x.ids)
    && x.input.wallet in db.wallets && WalletFits(x.input, db.wallets[x.input.wallet])
    && x.id !in db.txs && IdentityFree(db.txs, TxOf(x).ident)
  }

  /** The answer of the reference lookup. */
  predicate Looks(txs: map<string, Tx>, i: Identity, found: Option<Tx>) {
    if i.reference == "" then found.None? else ExternalAnswer(txs, i.provider, i.reference, found)
  }

  predicate ReversedIn(txs: map<string, Tx>, found: Option<Tx>) {
    found.Some? && HasReversal(txs, found.value.ident.id)
  }

  /** What the submission writes on this store, given what its lookup found. */
  function Submitted(db: Store, x: Arrival, found: Option<Tx>): Result<Changes, SettleError>
    requires CanArrive(db, x)
  {
    FreshChanges(db.wallets[x.input.wallet], x.input, x.hash, found, ReversedIn(db.txs, found), x.id, x.received, x.reading, x.ids)
  }

  /** A fresh submission commits legitimately. */
  lemma SubmittedIsLegit(db: Store, x: Arrival, found: Option<Tx>)
    requires WalletsOk(db) && TxsOk(db) && CanArrive(db, x) && Looks(db.txs, TxOf(x).ident, found) && Submitted(db, x, found).Ok?
    ensures Legit(db, Submitted(db, x, found).value)
  {
    var a := db.wallets[x.input.wallet];
    if found.Some? {
      assert RowOk(db.wallets, db.txs[found.value.ident.id]);
    }
    hide TxsOk, WalletsOk, Process, Legit, HasReversal, Resolve;
    ProcessIsLegit(db, a, TxOf(x), found, ReversedIn(db.txs, found), x.input.correlation, x.ids, ProcessingTime(x.received, x.reading, a));
  }

  // ----- A parked transaction changes nothing for others -----

  /** `t` waits beside the other rows. */
  predicate Parks(txs: map<string, Tx>, txs': map<string, Tx>, t: Tx) {
    t.ident.id !in txs && t.status.PendingReference? && t.ident.origin.External? && txs' == txs[t.ident.id := t]
  }

  lemma ReversalsIgnoreParked(txs: map<string, Tx>, txs': map<string, Tx>, t: Tx, id: string)
    requires Parks(txs, txs', t)
    ensures HasReversal(txs', id) <==> HasReversal(txs, id)
  {
    if HasReversal(txs, id) {
      var r :| r in txs && ReversalOf(txs[r], id);
      assert r in txs' && ReversalOf(txs'[r], id);
    }
    if HasReversal(txs', id) {
      var r :| r in txs' && ReversalOf(txs'[r], id);
      assert r in txs && ReversalOf(txs[r], id);
    }
  }

  /** A lookup that does not ask for `t` finds the same row with and without it. */
  lemma LookupsIgnoreParked(txs: map<string, Tx>, txs': map<string, Tx>, t: Tx, i: Identity, found: Option<Tx>, found': Option<Tx>)
    requires Parks(txs, txs', t) && IdentitiesUnique(txs)
    requires i.provider != t.ident.provider || i.reference != t.ident.external
    requires Looks(txs, i, found) && Looks(txs', i, found')
    ensures found == found'
  {
    assert found.Some? ==> found.value.ident.id in txs';
    if found'.Some? {
      var id := found'.value.ident.id;
      assert id in txs && txs[id] == found'.value;
      if found.Some? {
        assert Clashes(txs[found.value.ident.id].ident, txs[id].ident);
      }
    }
  }

  /** A submission that asks for a reference nobody has stored starts to wait. */
  lemma UnknownReferenceWaits(db: Store, x: Arrival, found: Option<Tx>)
    requires CanArrive(db, x) && x.input.reference != "" && Looks(db.txs, TxOf(x).ident, found)
    requires forall k :: k in db.txs ==> !SameExternal(db.txs[k].ident, x.input.provider, x.input.reference)
    ensures found.None?
    ensures var r := Submitted(db, x, found);
            && (r.Ok? <==> ValidID(x.input.correlation))
            && (r.Ok? ==>
                  && r.value.tx == Some(Waiting(TxOf(x), ProcessingTime(x.received, x.reading, db.wallets[x.input.wallet])))
                  && r.value.account.None? && r.value.entry.None?)
  {}

  /** A cycle cannot settle: a reference that waits for `t` is not settled before `t` is stored. */
  lemma NoCycle(db: Store, r: Arrival, t: Arrival, found: Option<Tx>)
    requires CanArrive(db, r) && CanArrive(db, t) && Looks(db.txs, TxOf(r).ident, found) && Submitted(db, r, found).Ok?
    requires Submitted(db, r, found).value.tx.Some? && Submitted(db, r, found).value.tx.value.status.Terminal()
    ensures r.input.provider != t.input.provider || r.input.reference != t.input.external
  {
    if r.input.provider == t.input.provider && r.input.reference == t.input.external {
      forall k | k in db.txs ensures !SameExternal(db.txs[k].ident, r.input.provider, r.input.reference) {
        assert !Clashes(db.txs[k].ident, TxOf(t).ident);
      }
      assert r.input.reference != "";
      UnknownReferenceWaits(db, r, found);
    }
  }

  lemma ArrivesBesideParked(db: Store, db': Store, t: Tx, r: Arrival)
    requires CanArrive(db, r) && Parks(db.txs, db'.txs, t) && db'.wallets == db.wallets
    requires r.id != t.ident.id && !Clashes(t.ident, TxOf(r).ident)
    ensures CanArrive(db', r)
  {}

  /** The reference settles alike whether or not `t` is already parked. */
  lemma ReferenceSettlesAlike(db: Store, db': Store, t: Tx, r: Arrival, found: Option<Tx>, found': Option<Tx>)
    requires IdentitiesUnique(db.txs) && CanArrive(db, r) && Parks(db.txs, db'.txs, t) && db'.wallets == db.wallets
    requires r.id != t.ident.id && !Clashes(t.ident, TxOf(r).ident)
    requires r.input.provider != t.ident.provider || r.input.reference != t.ident.external
    requires Looks(db.txs, TxOf(r).ident, found) && Looks(db'.txs, TxOf(r).ident, found')
    ensures found == found' && CanArrive(db', r) && Submitted(db', r, found') == Submitted(db, r, found)
  {
    ArrivesBesideParked(db, db', t, r);
    LookupsIgnoreParked(db.txs, db'.txs, t, TxOf(r).ident, found, found');
    if found.Some? {
      ReversalsIgnoreParked(db.txs, db'.txs, t, found.value.ident.id);
    }
    assert ReversedIn(db'.txs, found) == ReversedIn(db.txs, found);
    hide FreshChanges;
  }

  // ----- Books -----

  predicate SameTx(t: Tx, t': Tx) {
    t == t'.(ident := t'.ident.(createdAt := t.ident.createdAt), updatedAt := t.updatedAt)
  }

  predicate SameWallet(a: WalletRow, a': WalletRow) {
    a == a'.(updatedAt := a.updatedAt)
  }

  predicate SameEntry(e: Entry, e': Entry) {
    e == e'.(createdAt := e.createdAt)
  }

  /** Wallets, transactions and ledger agree up to their times. */
  predicate SameBooks(db: Store, db': Store) {
    && db.wallets.Keys == db'.wallets.Keys && (forall k :: k in db.wallets ==> SameWallet(db.wallets[k], db'.wallets[k]))
    && db.txs.Keys == db'.txs.Keys && (forall k :: k in db.txs ==> SameTx(db.txs[k], db'.txs[k]))
    && |db.ledger| == |db'.ledger| && (forall i :: 0 <= i < |db.ledger| ==> SameEntry(db.ledger[i], db'.ledger[i]))
  }

  /** Two commits write the same, up to times. */
  predicate SameWrites(c: Changes, d: Changes) {
    && c.tx.Some? && d.tx.Some? && SameTx(c.tx.value, d.tx.value)
    && (c.account.Some? <==> d.account.Some?) && (c.account.Some? ==> SameWallet(c.account.value, d.account.value))
    && (c.entry.Some? <==> d.entry.Some?) && (c.entry.Some? ==> SameEntry(c.entry.value, d.entry.value))
  }

  lemma SettleAlike(a: WalletRow, t: Tx, t': Tx, reference: Option<Tx>, failure: Option<FailureCode>, reversed: bool,
                    correlation: string, correlation': string, ids: Ids, now: Time, now': Time)
    requires Ready(a, t, now) && Ready(a, t', now') && t'.ident == t.ident.(createdAt := t'.ident.createdAt)
    requires ValidID(correlation) && ValidID(correlation')
    ensures var c := Settle(a, t, reference, failure, reversed, correlation, ids, now);
            var d := Settle(a, t', reference, failure, reversed, correlation', ids, now');
            (c.Ok? <==> d.Ok?) && (c.Ok? ==> SameWrites(c.value, d.value))
  {
    hide TxValid, WalletValid, ValidID;
  }

  /** Submitting now and resuming what arrived earlier settle alike, whatever the clocks said. */
  lemma ResumeAlike(a: WalletRow, t: Tx, t': Tx, found: Tx, reversed: bool, expired: bool, correlation: string, ids: Ids,
                    now: Time, now': Time)
    requires Ready(a, t, now) && t.status.Pending? && Ready(a, t', now') && t'.status.PendingReference?
    requires t'.ident == t.ident.(createdAt := t'.ident.createdAt) && ValidID(correlation)
    requires found.status.Terminal() && t.ident.reference != ""
    ensures var c := Process(a, t, Some(found), reversed, correlation, ids, now);
            var d := Resume(a, t', Some(found), reversed, expired, ids, now');
            (c.Ok? <==> d.Ok?) && (c.Ok? ==> d.value.Some? && SameWrites(c.value, d.value.value))
  {
    var r := Resolve(t.ident, Some(found));
    assert r == Resolve(t'.ident, Some(found)) && r.Resolved?;
    assert ValidID(t'.ident.id);
    hide Settle, SameWrites;
    SettleAlike(a, t, t', Some(r.reference), r.failure, reversed, correlation, t'.ident.id, ids, now, now');
  }

  lemma BooksAgree(db: Store, db': Store, c: Changes, d: Changes)
    requires db'.wallets == db.wallets && db'.ledger == db.ledger && SameWrites(c, d)
    requires c.tx.value.ident.id !in db.txs && c.tx.value.ident.id in db'.txs
    requires db'.txs == db.txs[c.tx.value.ident.id := db'.txs[c.tx.value.ident.id]]
    ensures SameBooks(Commit(db, c), Commit(db', d))
  {
    assert c.tx.value.ident.id == d.tx.value.ident.id;
  }

  // ----- Out of order -----

  /** The dependent transaction `t` names the transaction of `r` as its reference; both are fresh,
      and neither stands in the other's way. */
  predicate Depends(db: Store, r: Arrival, t: Arrival) {
    && CanArrive(db, r) && CanArrive(db, t) && ValidID(t.input.correlation)
    && t.input.provider == r.input.provider && t.input.reference == r.input.external
    && r.id != t.id && !Clashes(TxOf(t).ident, TxOf(r).ident)
  }

  /** The same submission, received and read at other times with other drawn ids. */
  predicate SameSubmission(t: Arrival, t': Arrival) {
    t'.input == t.input && t'.hash == t.hash && t'.id == t.id
  }

  /** Without `r`, nobody knows the reference of `t`. */
  lemma ReferenceUnknown(db: Store, r: Arrival, t: Arrival)
    requires Depends(db, r, t)
    ensures t.input.reference != ""
    ensures forall k :: k in db.txs ==> !SameExternal(db.txs[k].ident, t.input.provider, t.input.reference)
  {
    forall k | k in db.txs ensures !SameExternal(db.txs[k].ident, t.input.provider, t.input.reference) {
      assert !Clashes(db.txs[k].ident, TxOf(r).ident);
    }
  }

  lemma SubmittedShape(db: Store, x: Arrival, found: Option<Tx>)
    requires CanArrive(db, x) && Submitted(db, x, found).Ok?
    ensures var c := Submitted(db, x, found).value;
            c.tx.Some? && c.tx.value.ident == TxOf(x).ident
  {}

  lemma WalletStillFits(db: Store, c: Changes, input: Input)
    requires WalletsOk(db) && WalletWrite(db.wallets, c) && input.wallet in db.wallets && WalletFits(input, db.wallets[input.wallet])
    ensures var db' := Commit(db, c); input.wallet in db'.wallets && WalletFits(input, db'.wallets[input.wallet])
  {}

  /** After the commit of `r` the identity of `t` is still fresh. */
  lemma StillArrives(db: Store, r: Arrival, t: Arrival, c: Changes)
    requires Depends(db, r, t) && WalletsOk(db) && WalletWrite(db.wallets, c)
    requires c.tx.Some? && c.tx.value.ident == TxOf(r).ident
    ensures CanArrive(Commit(db, c), t)
  {
    WalletStillFits(db, c, t.input);
    hide WalletFits, Accepted, WalletsOk, WalletWrite;
    forall k | k in Commit(db, c).txs ensures !Clashes(Commit(db, c).txs[k].ident, TxOf(t).ident) {
      assert k != c.tx.value.ident.id ==> !Clashes(db.txs[k].ident, TxOf(t).ident);
    }
  }

  /** What is committed for `r`: its own row, and a wallet row that still fits. */
  lemma ReferenceCommits(db: Store, r: Arrival, found: Option<Tx>, t: Arrival)
    requires WalletsOk(db) && TxsOk(db) && Depends(db, r, t) && Looks(db.txs, TxOf(r).ident, found) && Submitted(db, r, found).Ok?
    ensures var c := Submitted(db, r, found).value;
            c.tx.Some? && c.tx.value.ident == TxOf(r).ident && CanArrive(Commit(db, c), t)
  {
    hide Looks, Legit, WalletsOk, TxsOk, CanArrive;
    SubmittedIsLegit(db, r, found);
    SubmittedShape(db, r, found);
    hide Submitted;
    LegitWrites(db, Submitted(db, r, found).value);
    StillArrives(db, r, t, Submitted(db, r, found).value);
  }

  /** The dependent arrives first, at other times, and waits. */
  lemma ArrivesEarly(db: Store, r: Arrival, t: Arrival, early: Arrival, found: Option<Tx>)
    requires Depends(db, r, t) && SameSubmission(t, early) && CanArrive(db, early) && Looks(db.txs, TxOf(early).ident, found)
    ensures found.None? && Submitted(db, early, found).Ok?
    ensures var p := Submitted(db, early, found).value;
            && p.tx == Some(Waiting(TxOf(early), ProcessingTime(early.received, early.reading, db.wallets[early.input.wallet])))
            && Parks(db.txs, Commit(db, p).txs, p.tx.value)
            && Commit(db, p).wallets == db.wallets && Commit(db, p).ledger == db.ledger
  {
    ReferenceUnknown(db, r, t);
    hide Submitted;
    UnknownReferenceWaits(db, early, found);
  }

  /** The time at which a worker resumes, for any reading of the clock. */
  function ResumeTime(a: WalletRow, t: Tx, reading: Time): Time {
    Max(Max(reading, t.updatedAt), a.updatedAt)
  }

  lemma WakesReady(db: Store, t: Arrival, early: Arrival, since: Time, reading: Time)
    requires CanArrive(db, t) && SameSubmission(t, early) && Accepted(early.input, early.hash, early.id, early.received)
    requires early.received <= since && t.input.reference != ""
    ensures var a, t' := db.wallets[t.input.wallet], Waiting(TxOf(early), since); Ready(a, t', ResumeTime(a, t', reading))
  {}

  /** The stores after `r`, in order and out of order, differ by the parked row alone. */
  lemma StoresAfter(db: Store, p: Changes, c: Changes)
    requires p.tx.Some? && c.tx.Some? && c.tx.value.ident.id != p.tx.value.ident.id && Parks(db.txs, Commit(db, p).txs, p.tx.value)
    requires Commit(db, p).wallets == db.wallets && Commit(db, p).ledger == db.ledger
    ensures var inOrder, both := Commit(db, c), Commit(Commit(db, p), c);
            && both.wallets == inOrder.wallets && both.ledger == inOrder.ledger && Parks(inOrder.txs, both.txs, p.tx.value)
            && both.txs[c.tx.value.ident.id] == inOrder.txs[c.tx.value.ident.id] == c.tx.value
  {
    var id, k := p.tx.value.ident.id, c.tx.value.ident.id;
    assert db.txs[id := p.tx.value][k := c.tx.value] == db.txs[k := c.tx.value][id := p.tx.value];
  }

  /** `t` is submitted in order on `db`, resumed out of order on `db'`; `x` is its settled reference. */
  lemma BothOrders(db: Store, db': Store, t: Arrival, t': Tx, x: Tx, expired: bool, reading: Time)
    requires CanArrive(db, t) && ValidID(t.input.correlation) && t.input.reference != "" && x.status.Terminal()
    requires Parks(db.txs, db'.txs, t') && db'.wallets == db.wallets && db'.ledger == db.ledger
    requires t'.ident == TxOf(t).ident.(createdAt := t'.ident.createdAt)
    requires var a := db.wallets[t.input.wallet]; Ready(a, t', ResumeTime(a, t', reading))
    ensures var a := db.wallets[t.input.wallet];
            var submitted := Submitted(db, t, Some(x));
            var resumed := Resume(a, t', Some(x), ReversedIn(db'.txs, Some(x)), expired, t.ids, ResumeTime(a, t', reading));
            && (submitted.Ok? <==> resumed.Ok?)
            && (submitted.Ok? ==> resumed.value.Some? && SameBooks(Commit(db, submitted.value), Commit(db', resumed.value.value)))
  {
    var a := db.wallets[t.input.wallet];
    var reversed := ReversedIn(db.txs, Some(x));
    ReversalsIgnoreParked(db.txs, db'.txs, t', x.ident.id);
    SubmittedShapeOf(db, t, Some(x));
    hide Resume, Process, SameBooks, SameWrites, HasReversal;
    ResumeAlike(a, TxOf(t), t', x, reversed, expired, t.input.correlation, t.ids, ProcessingTime(t.received, t.reading, a), ResumeTime(a, t', reading));
    var submitted, resumed := Submitted(db, t, Some(x)), Resume(a, t', Some(x), reversed, expired, t.ids, ResumeTime(a, t', reading));
    if submitted.Ok? {
      BooksAgree(db, db', submitted.value, resumed.value.value);
    }
  }

  /** After `r`, everybody who asks for the reference of `t` finds the row of `r`. */
  lemma FindsReference(txs: map<string, Tx>, x: Tx, i: Identity)
    requires x.ident.id in txs && txs[x.ident.id] == x && i.reference != "" && SameExternal(x.ident, i.provider, i.reference)
    requires forall k :: k in txs && k != x.ident.id ==> !SameExternal(txs[k].ident, i.provider, i.reference)
    ensures forall found :: Looks(txs, i, found) <==> found == Some(x)
  {}

  lemma OtherThanItself(db: Store, t: Arrival)
    requires CanArrive(db, t) && t.input.reference != ""
    ensures t.input.reference != t.input.external
  {
    assert TxValid(TxOf(t));
  }

  lemma SubmittedShapeOf(db: Store, x: Arrival, found: Option<Tx>)
    requires CanArrive(db, x)
    ensures Submitted(db, x, found).Ok? ==>
              Submitted(db, x, found).value.tx.Some? && Submitted(db, x, found).value.tx.value.ident == TxOf(x).ident
  {
    if Submitted(db, x, found).Ok? {
      SubmittedShape(db, x, found);
    }
  }

  /** In order, `r` is submitted and settled, then `t` is submitted. Out of order, `t` arrives first
      and waits, `r` is submitted, and a worker resumes `t`.

      Out of order the first arrival of `t` always waits; the lookup of `r` finds what it finds in
      order, and `r` writes the very same changes; `t` finds `r` either way; and when `t` is resumed
      the wallets, transactions and ledger are those of the order, up to times, whatever the clocks
      and the expiry say. */
  lemma OutOfOrderConverges(db: Store, r: Arrival, t: Arrival, early: Arrival, found: Option<Tx>, none: Option<Tx>,
                            found': Option<Tx>, expired: bool, reading: Time)
    requires WalletsOk(db) && TxsOk(db) && IdentitiesUnique(db.txs) && Depends(db, r, t)
    requires SameSubmission(t, early) && CanArrive(db, early)
    requires Looks(db.txs, TxOf(r).ident, found) && Submitted(db, r, found).Ok?
    requires Submitted(db, r, found).value.tx.Some? ==> Submitted(db, r, found).value.tx.value.status.Terminal()
    requires Looks(db.txs, TxOf(early).ident, none)
    requires Submitted(db, early, none).Ok? ==> Looks(Commit(db, Submitted(db, early, none).value).txs, TxOf(r).ident, found')
    ensures Submitted(db, early, none).Ok?
    ensures var c, p := Submitted(db, r, found).value, Submitted(db, early, none).value;
            var inOrder, parked := Commit(db, c), Commit(db, p);
            && p.tx.Some? && p.tx.value.status.PendingReference?
            && CanArrive(parked, r) && Submitted(parked, r, found') == Ok(c) && c.tx.Some? && CanArrive(inOrder, t)
            && var both := Commit(parked, c);
            && (forall x :: Looks(inOrder.txs, TxOf(t).ident, x) <==> x == c.tx)
            && (forall x :: Looks(both.txs, p.tx.value.ident, x) <==> x == c.tx)
            && t.input.wallet in both.wallets
            && var a := both.wallets[t.input.wallet];
            && Ready(a, p.tx.value, ResumeTime(a, p.tx.value, reading))
            && var submitted := Submitted(inOrder, t, c.tx);
            && var resumed := Resume(a, p.tx.value, c.tx, ReversedIn(both.txs, c.tx), expired, t.ids, ResumeTime(a, p.tx.value, reading));
            && (submitted.Ok? <==> resumed.Ok?)
            && (submitted.Ok? ==> resumed.value.Some? && SameBooks(Commit(inOrder, submitted.value), Commit(both, resumed.value.value)))
  {
    hide WalletsOk, TxsOk, IdentitiesUnique, Submitted, Looks, Resume, Ready, SameBooks, HasReversal, Accepted, WalletFits, IdentityFree;
    ArrivesEarly(db, r, t, early, none);
    var c, p := Submitted(db, r, found).value, Submitted(db, early, none).value;
    ReferenceUnknown(db, r, t);
    ReferenceCommits(db, r, found, t);
    NoCycle(db, r, t, found);
    ReferenceSettlesAlike(db, Commit(db, p), p.tx.value, r, found, found');
    StoresAfter(db, p, c);
    assert t.input.reference != t.input.external by { OtherThanItself(db, t); }
    FindsReference(Commit(db, c).txs, c.tx.value, TxOf(t).ident);
    FindsReference(Commit(Commit(db, p), c).txs, c.tx.value, p.tx.value.ident);
    WakesReady(Commit(db, c), t, early, p.tx.value.updatedAt, reading);
    BothOrders(Commit(db, c), Commit(Commit(db, p), c), t, p.tx.value, c.tx.value, expired, reading);
  }
}
