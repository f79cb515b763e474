/** Every settlement, computed from what was read, is a legitimate commit. */
module Soundness {
  import opened Text
  import opened Wrappers
  import opened Monetary
  import opened Model
  import opened Settlement
  import opened Records
  import opened Store
  import opened Accounting
  import opened Invariant

  /** The wallet row is current, and the transaction is new with a free identity or waits. */
  ghost predicate Basis(db: Store, a: WalletRow, t: Tx, now: Time) {
    && Ready(a, t, now) && a.id in db.wallets && db.wallets[a.id] == a && a.player == t.ident.player
    && (if t.ident.id in db.txs
        then db.txs[t.ident.id] == t && t.status.PendingReference? && t.ident.id in db.sched
        else t.status.Pending? && IdentityFree(db.txs, t.ident))
  }

  /** The reference that a settlement relies on is the stored one and obeys the rules. */
  ghost predicate ReferenceBasis(db: Store, t: Tx, reference: Option<Tx>, failure: Option<FailureCode>, reversed: bool) {
    failure.None? ==>
      && (reference.Some? <==> t.ident.reference != "")
      && (reference.Some? ==>
            var r := reference.value;
            && r.ident.id in db.txs && db.txs[r.ident.id] == r
            && r.status.Processed? && SameContext(t.ident, r.ident) && r.ident.external == t.ident.reference
            && KindAllowed(t.ident.kind, r.ident.kind)
            && (t.ident.kind.Reversal() ==> r.ident.amount == t.ident.amount && reversed == HasReversal(db.txs, r.ident.id)))
  }

  function SettledRefId(reference: Option<Tx>, failure: Option<FailureCode>): string {
    if failure.None? && reference.Some? then reference.value.ident.id else ""
  }

  lemma RejectedValid(t: Tx, refId: string, code: FailureCode, balance: Money, now: Time)
    requires TxValid(t) && t.ident.origin.External? && t.updatedAt <= now
    requires balance.Valid() && balance.minor >= 0 && balance.currency == t.ident.amount.currency
    requires refId != "" ==> t.ident.reference != "" && ValidID(refId)
    ensures TxValid(RejectedTx(t, refId, code, balance, now))
  {}

  lemma ProcessedValid(t: Tx, refId: string, balance: Money, now: Time)
    requires TxValid(t) && t.ident.origin.External? && t.updatedAt <= now
    requires balance.Valid() && balance.minor >= 0 && balance.currency == t.ident.amount.currency
    requires (refId != "" <==> t.ident.reference != "") && (refId != "" ==> ValidID(refId))
    ensures TxValid(ProcessedTx(t, refId, balance, now))
  {}

  lemma RefIdFits(db: Store, t: Tx, reference: Option<Tx>, failure: Option<FailureCode>, reversed: bool)
    requires TxsOk(db) && ReferenceBasis(db, t, reference, failure, reversed)
    ensures var refId := SettledRefId(reference, failure);
            && (refId != "" ==> t.ident.reference != "" && ValidID(refId) && refId in db.txs)
            && (failure.None? ==> (refId != "" <==> t.ident.reference != ""))
  {
    if failure.None? && reference.Some? {
      assert RowOk(db.wallets, db.txs[reference.value.ident.id]);
    }
  }

  lemma RefuseIsLegit(db: Store, a: WalletRow, t: Tx, refId: string, code: FailureCode, correlation: string, ids: Ids, now: Time)
    requires TxsOk(db) && Basis(db, a, t, now)
    requires refId != "" ==> t.ident.reference != "" && ValidID(refId) && refId in db.txs
    ensures Legit(db, Changes(None, Some(RejectedTx(t, refId, code, a.balance, now)), None, None,
                              [RejectedEvent(t.ident, code, a.balance, correlation, ids.status, now)]))
  {
    RejectedValid(t, refId, code, a.balance, now);
    var t' := RejectedTx(t, refId, code, a.balance, now);
    assert ReferenceHolds(db.txs, t');
    assert WalletMatches(db.wallets, t.ident);
    assert RowWrite(db, t');
  }

  lemma StayIsLegit(db: Store, a: WalletRow, t: Tx, correlation: string, ids: Ids, now: Time)
    requires TxsOk(db) && Basis(db, a, t, now) && t.ident.kind.Loss?
    ensures Legit(db, Changes(None, Some(ProcessedTx(t, "", a.balance, now)), None, None,
                              [ProcessedEvent(t.ident, a.balance, correlation, ids.status, now)]))
  {
    ProcessedValid(t, "", a.balance, now);
    assert RowWrite(db, ProcessedTx(t, "", a.balance, now));
  }

  lemma PostedRow(db: Store, a: WalletRow, t: Tx, reference: Option<Tx>, reversed: bool, balance: Money, now: Time)
    requires TxsOk(db) && Basis(db, a, t, now) && ReferenceBasis(db, t, reference, None, reversed)
    requires reference.Some? && t.ident.kind.Reversal() ==> !reversed
    requires balance.Valid() && balance.minor >= 0 && balance.currency == t.ident.amount.currency
    ensures var t' := ProcessedTx(t, SettledRefId(reference, None), balance, now);
            RowWrite(db, t') && RefKind(db.txs, t') == if reference.Some? then Some(reference.value.ident.kind) else None
  {
    RefIdFits(db, t, reference, None, reversed);
    var refId := SettledRefId(reference, None);
    ProcessedValid(t, refId, balance, now);
    assert "" !in db.txs;
  }

  /** A posted settlement in full: the wallet moves once, and entry, row and events agree. */
  lemma PostedShape(a: WalletRow, t: Tx, reference: Option<Tx>, reversed: bool, direction: Direction,
                    correlation: string, ids: Ids, now: Time)
    requires Ready(a, t, now) && Judge(t.ident, a.balance, reference, None, reversed) == Post(direction)
    requires a.version < MAX_INT64 && IdsValid(ids) && ValidID(correlation)
    ensures var c := Settle(a, t, reference, None, reversed, correlation, ids, now).value;
            var after := Moved(a.balance, direction, t.ident.amount);
            var a' := a.(balance := after, version := a.version + 1, updatedAt := now);
            var e := Entry(ids.entry, a.id, t.ident.id, direction, t.ident.amount, a.balance, after, a'.version, now);
            && c.tx == Some(ProcessedTx(t, SettledRefId(reference, None), after, now))
            && c.account == Some(a') && WalletValid(a') && c.entry == Some(e) && EntryValid(e) && c.schedule.None?
            && |c.events| == 2 && StatusMatches(c.events[0], c.tx.value) && BalanceMatches(c.events[1], e)
            && c.events[1].causation == c.events[0].id
  {
    assert BalanceEquation(direction, t.ident.amount, a.balance, Moved(a.balance, direction, t.ident.amount));
  }

  lemma DirectionOfEffect(i: Identity, balance: Money, reference: Option<Tx>, reversed: bool, direction: Direction)
    requires Judge(i, balance, reference, None, reversed) == Post(direction)
    ensures direction.Credit? <==> Effect(i.kind, if reference.Some? then Some(reference.value.ident.kind) else None) > 0
    ensures !i.kind.Loss? && (reference.Some? && i.kind.Reversal() ==> !reversed)
  {}

  lemma PostIsLegit(db: Store, a: WalletRow, t: Tx, reference: Option<Tx>, reversed: bool,
                    direction: Direction, correlation: string, ids: Ids, now: Time)
    requires WalletsOk(db) && TxsOk(db) && Basis(db, a, t, now) && ReferenceBasis(db, t, reference, None, reversed)
    requires Judge(t.ident, a.balance, reference, None, reversed) == Post(direction)
    requires a.version < MAX_INT64 && IdsValid(ids) && ValidID(correlation)
    ensures Legit(db, Settle(a, t, reference, None, reversed, correlation, ids, now).value)
  {
    PostedShape(a, t, reference, reversed, direction, correlation, ids, now);
    DirectionOfEffect(t.ident, a.balance, reference, reversed, direction);
    PostedRow(db, a, t, reference, reversed, Moved(a.balance, direction, t.ident.amount), now);
    var c := Settle(a, t, reference, None, reversed, correlation, ids, now).value;
    PostsHolds(db, c, c.tx.value);
  }

  lemma PostsHolds(db: Store, c: Changes, t: Tx)
    requires c.tx == Some(t) && RowWrite(db, t) && c.account.Some? && c.entry.Some? && c.schedule.None? && |c.events| == 2
    requires var a, a', e := db.wallets[t.ident.wallet], c.account.value, c.entry.value;
             && t.status.Processed? && !t.ident.kind.Loss? && WalletValid(a') && a.version < MAX_INT64
             && a' == a.(balance := a'.balance, version := a.version + 1, updatedAt := t.updatedAt)
             && EntryValid(e)
             && e == Entry(e.id, a.id, t.ident.id, e.direction, t.ident.amount, a.balance, a'.balance, a'.version, t.updatedAt)
             && (e.direction.Credit? <==> EffectOf(db.txs, t) > 0)
             && t.result == Some(a'.balance)
             && StatusMatches(c.events[0], t) && BalanceMatches(c.events[1], e) && c.events[1].causation == c.events[0].id
    ensures Legit(db, c)
  {}

  /** A settlement that moves nothing. */
  lemma StillShape(a: WalletRow, t: Tx, reference: Option<Tx>, failure: Option<FailureCode>, reversed: bool,
                   correlation: string, ids: Ids, now: Time)
    requires Ready(a, t, now)
    ensures var r, v := Settle(a, t, reference, failure, reversed, correlation, ids, now), Judge(t.ident, a.balance, reference, failure, reversed);
            && (r.Ok? && v.Refuse? ==>
                  r.value == Changes(None, Some(RejectedTx(t, SettledRefId(reference, failure), v.code, a.balance, now)), None, None,
                                     [RejectedEvent(t.ident, v.code, a.balance, correlation, ids.status, now)]))
            && (r.Ok? && v.Stay? && reference.None? ==>
                  t.ident.kind.Loss?
                  && r.value == Changes(None, Some(ProcessedTx(t, "", a.balance, now)), None, None,
                                        [ProcessedEvent(t.ident, a.balance, correlation, ids.status, now)]))
  {}

  /** A settlement computed from current facts commits legitimately. */
  lemma SettleIsLegit(db: Store, a: WalletRow, t: Tx, reference: Option<Tx>, failure: Option<FailureCode>, reversed: bool,
                      correlation: string, ids: Ids, now: Time)
    requires WalletsOk(db) && TxsOk(db) && Basis(db, a, t, now) && IdsValid(ids)
    requires ReferenceBasis(db, t, reference, failure, reversed)
    ensures var r := Settle(a, t, reference, failure, reversed, correlation, ids, now);
            r.Ok? ==> Legit(db, r.value)
  {
    var v := Judge(t.ident, a.balance, reference, failure, reversed);
    if Settle(a, t, reference, failure, reversed, correlation, ids, now).Ok? {
      if v.Post? {
        PostIsLegit(db, a, t, reference, reversed, v.direction, correlation, ids, now);
      } else if v.Refuse? {
        RefusalIsLegit(db, a, t, reference, failure, reversed, correlation, ids, now);
      } else {
        StayIsLoss(t, a.balance, reference, failure, reversed);
        LossIsLegit(db, a, t, reversed, correlation, ids, now);
      }
    }
  }

  lemma RefusalIsLegit(db: Store, a: WalletRow, t: Tx, reference: Option<Tx>, failure: Option<FailureCode>, reversed: bool,
                       correlation: string, ids: Ids, now: Time)
    requires TxsOk(db) && Basis(db, a, t, now) && ReferenceBasis(db, t, reference, failure, reversed)
    requires Judge(t.ident, a.balance, reference, failure, reversed).Refuse?
    requires Settle(a, t, reference, failure, reversed, correlation, ids, now).Ok?
    ensures Legit(db, Settle(a, t, reference, failure, reversed, correlation, ids, now).value)
  {
    StillShape(a, t, reference, failure, reversed, correlation, ids, now);
    RefIdFits(db, t, reference, failure, reversed);
    RefuseIsLegit(db, a, t, SettledRefId(reference, failure),
                  Judge(t.ident, a.balance, reference, failure, reversed).code, correlation, ids, now);
  }

  lemma StayIsLoss(t: Tx, balance: Money, reference: Option<Tx>, failure: Option<FailureCode>, reversed: bool)
    requires Judge(t.ident, balance, reference, failure, reversed).Stay? && KindAndReferenceValid(t)
    ensures t.ident.kind.Loss? && failure.None? && t.ident.reference == ""
  {}

  lemma LossIsLegit(db: Store, a: WalletRow, t: Tx, reversed: bool, correlation: string, ids: Ids, now: Time)
    requires TxsOk(db) && Basis(db, a, t, now) && t.ident.kind.Loss?
    requires Settle(a, t, None, None, reversed, correlation, ids, now).Ok?
    ensures Legit(db, Settle(a, t, None, None, reversed, correlation, ids, now).value)
  {
    StillShape(a, t, None, None, reversed, correlation, ids, now);
    StayIsLegit(db, a, t, correlation, ids, now);
  }

  lemma WaitIsLegit(db: Store, a: WalletRow, t: Tx, correlation: string, id: string, now: Time)
    requires WalletsOk(db) && TxsOk(db) && Basis(db, a, t, now) && t.ident.id !in db.txs && t.ident.reference != ""
    ensures var r := Wait(t, correlation, id, now); r.Ok? ==> Legit(db, r.value)
  {
    var t' := t.(status := PendingReference, updatedAt := now);
    assert TxValid(t');
    assert RowWrite(db, t');
  }

  /** What a lookup by external id returned earlier in the same transaction: if the row was
      settled it is still the stored row; if not, nothing is known about it now. */
  ghost predicate Seen(db: Store, i: Identity, found: Option<Tx>) {
    found.Some? ==>
      var r := found.value;
      && r.ident.external == i.reference && r.ident.provider == i.provider && r.ident.amount.Valid()
      && (r.status.Terminal() ==> r.ident.id in db.txs && db.txs[r.ident.id] == r)
  }

  /** The reversal check, if it mattered, still gives the same answer. */
  ghost predicate ReversalSeen(db: Store, i: Identity, found: Option<Tx>, reversed: bool) {
    AsksReversal(i, found) ==> reversed == HasReversal(db.txs, found.value.ident.id)
  }

  lemma ResolvedBasis(db: Store, t: Tx, found: Option<Tx>, reversed: bool)
    requires Seen(db, t.ident, found) && ReversalSeen(db, t.ident, found, reversed)
    ensures var resolution := Resolve(t.ident, found);
            && (resolution.Resolved? ==>
                  ReferenceBasis(db, t, Some(resolution.reference), resolution.failure, reversed))
            && (resolution.NoReference? ==> ReferenceBasis(db, t, None, None, reversed))
            && ReferenceBasis(db, t, None, Some(ReferenceNotFound), reversed)
  {}

  /** A first submission commits legitimately, whatever stale answers its lookups gave. */
  lemma ProcessIsLegit(db: Store, a: WalletRow, t: Tx, found: Option<Tx>, reversed: bool, correlation: string, ids: Ids, now: Time)
    requires WalletsOk(db) && TxsOk(db) && Basis(db, a, t, now) && IdsValid(ids) && t.ident.id !in db.txs
    requires Seen(db, t.ident, found) && ReversalSeen(db, t.ident, found, reversed)
    ensures var r := Process(a, t, found, reversed, correlation, ids, now); r.Ok? ==> Legit(db, r.value)
  {
    ResolvedBasis(db, t, found, reversed);
    match Resolve(t.ident, found)
    case Unresolved => WaitIsLegit(db, a, t, correlation, ids.status, now);
    case NoReference => SettleIsLegit(db, a, t, None, None, reversed, correlation, ids, now);
    case Resolved(r, failure) => SettleIsLegit(db, a, t, Some(r), failure, reversed, correlation, ids, now);
  }

  /** A resumed transaction commits legitimately. */
  function ResumeReference(r: Resolution): Option<Tx> {
    if r.Resolved? then Some(r.reference) else None
  }

  function ResumeFailure(r: Resolution): Option<FailureCode> {
    match r
    case Unresolved => Some(ReferenceNotFound)
    case NoReference => None
    case Resolved(_, failure) => failure
  }

  lemma ResumeSettles(a: WalletRow, t: Tx, found: Option<Tx>, reversed: bool, expired: bool, ids: Ids, now: Time)
    requires Ready(a, t, now) && t.status.PendingReference?
    ensures var r, x := Resume(a, t, found, reversed, expired, ids, now), Resolve(t.ident, found);
            r.Ok? && r.value.Some? ==> Settle(a, t, ResumeReference(x), ResumeFailure(x), reversed, t.ident.id, ids, now) == Ok(r.value.value)
  {
    hide Settle, Resolve, Ready;
  }

  lemma ResumeIsLegit(db: Store, a: WalletRow, t: Tx, found: Option<Tx>, reversed: bool, expired: bool, ids: Ids, now: Time)
    requires WalletsOk(db) && TxsOk(db) && Basis(db, a, t, now) && IdsValid(ids) && t.ident.id in db.txs
    requires Seen(db, t.ident, found) && ReversalSeen(db, t.ident, found, reversed)
    ensures var r := Resume(a, t, found, reversed, expired, ids, now);
            r.Ok? && r.value.Some? ==> Legit(db, r.value.value) && r.value.value.tx.value.ident == t.ident
  {
    ResolvedBasis(db, t, found, reversed);
    ResumeSettles(a, t, found, reversed, expired, ids, now);
    hide Legit, TxsOk, WalletsOk, Seen, ReversalSeen, Settle, Resume, Resolve, ReferenceBasis;
    var x := Resolve(t.ident, found);
    SettleIsLegit(db, a, t, ResumeReference(x), ResumeFailure(x), reversed, t.ident.id, ids, now);
  }
}
