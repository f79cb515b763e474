/** When a submission can fail after its identity was found fresh, and what clocks have to do with
    it: nothing. */
module Totality {
  import opened Text
  import opened Wrappers
  import opened Monetary
  import opened Model
  import opened Settlement
  import opened Soundness
  import opened Engine

  /** The submission attempts a movement. */
  predicate NewMoves(i: Identity, found: Option<Tx>, reversed: bool) {
    match Resolve(i, found)
    case Unresolved => false
    case NoReference => Moves(i, None, None, reversed)
    case Resolved(r, failure) => Moves(i, Some(r), failure, reversed)
  }

  /** A fresh submission on a fitting wallet fails exactly when its correlation id cannot label an
      event or its movement would need a wallet version past the maximum. No clock reading, however
      skewed, makes it fail, and what it writes is never earlier than what it builds on. */
  lemma SubmissionIsTotal(row: WalletRow, i: Input, hash: string, found: Option<Tx>, reversed: bool,
                          id: string, received: Time, reading: Time, ids: Ids)
    requires WalletFits(i, row) && Accepted(i, hash, id, received)
    ensures var c := FreshChanges(row, i, hash, found, reversed, id, received, reading, ids);
            && (c.Ok? <==> ValidID(i.correlation)
                           && (NewMoves(NewTx(i, hash, id, received).ident, found, reversed) ==> row.version < MAX_INT64))
            && (c.Ok? ==>
                  && c.value.tx.Some? && c.value.tx.value.updatedAt >= Max(received, row.updatedAt)
                  && (c.value.entry.Some? ==> c.value.entry.value.createdAt >= row.updatedAt)
                  && (c.value.account.Some? ==> c.value.account.value.updatedAt >= row.updatedAt))
  {
    assert NewTx(i, hash, id, received).ident.reference == i.reference;
  }

  /** The same writes at other times. */
  predicate SameButTimes(c: Changes, d: Changes) {
    && c.tx.Some? && d.tx.Some? && c.tx.value == d.tx.value.(updatedAt := c.tx.value.updatedAt)
    && (c.account.Some? <==> d.account.Some?)
    && (c.account.Some? ==> c.account.value == d.account.value.(updatedAt := c.account.value.updatedAt))
    && (c.entry.Some? <==> d.entry.Some?)
    && (c.entry.Some? ==> c.entry.value == d.entry.value.(createdAt := c.entry.value.createdAt))
    && (c.schedule.Some? <==> d.schedule.Some?)
    && (c.schedule.Some? ==> ShiftedAlike(c.schedule.value, c.tx.value.updatedAt, d.schedule.value, d.tx.value.updatedAt))
    && |c.events| == |d.events|
    && forall i :: 0 <= i < |c.events| ==> c.events[i] == d.events[i].(occurredAt := c.events[i].occurredAt)
  }

  /** Two schedules that differ only by when their waits began. */
  predicate ShiftedAlike(s: Schedule, since: Time, s': Schedule, since': Time) {
    && s == s'.(nextAt := s.nextAt, expiresAt := s.expiresAt)
    && s.nextAt.Some? && s'.nextAt.Some? && s.nextAt.value - since == s'.nextAt.value - since'
    && s.expiresAt - since == s'.expiresAt - since'
  }

  lemma SettleOnlyDates(a: WalletRow, t: Tx, reference: Option<Tx>, failure: Option<FailureCode>, reversed: bool,
                        correlation: string, ids: Ids, now: Time, now': Time)
    requires Ready(a, t, now) && Ready(a, t, now')
    ensures var c := Settle(a, t, reference, failure, reversed, correlation, ids, now);
            var d := Settle(a, t, reference, failure, reversed, correlation, ids, now');
            (c.Ok? <==> d.Ok?) && (c.Ok? ==> SameButTimes(c.value, d.value))
  {}

  /** Two readings of the clock give the same outcome at different times. */
  lemma ReadingsOnlyDate(row: WalletRow, i: Input, hash: string, found: Option<Tx>, reversed: bool,
                         id: string, received: Time, reading: Time, reading': Time, ids: Ids)
    requires WalletFits(i, row) && Accepted(i, hash, id, received)
    ensures var c := FreshChanges(row, i, hash, found, reversed, id, received, reading, ids);
            var d := FreshChanges(row, i, hash, found, reversed, id, received, reading', ids);
            (c.Ok? <==> d.Ok?) && (c.Ok? ==> SameButTimes(c.value, d.value))
  {
    hide Settle;
    var t, now, now' := NewTx(i, hash, id, received), ProcessingTime(received, reading, row), ProcessingTime(received, reading', row);
    match Resolve(t.ident, found)
    case Unresolved =>
    case NoReference => SettleOnlyDates(row, t, None, None, reversed, i.correlation, ids, now, now');
    case Resolved(r, failure) => SettleOnlyDates(row, t, Some(r), failure, reversed, i.correlation, ids, now, now');
  }

  /** Validation asks only for a correlation id that is not empty. Padding the id of any acceptable
      input with a no-break space, which a header can carry, gives another acceptable input, and its submission fails on every wallet, at its first
      event. */
  lemma PaddedCorrelationIsRefusedLate(row: WalletRow, i: Input, hash: string, found: Option<Tx>, reversed: bool,
                                       id: string, received: Time, reading: Time, ids: Ids)
    requires WalletFits(i, row) && Accepted(i, hash, id, received)
    ensures var padded := i.(correlation := "\U{A0}" + i.correlation);
            && Accepted(padded, hash, id, received) && WalletFits(padded, row)
            && FreshChanges(row, padded, hash, found, reversed, id, received, reading, ids).Err?
  {
    var padded := i.(correlation := "\U{A0}" + i.correlation);
    assert IsSpace(padded.correlation[0]);
    assert NewTx(padded, hash, id, received) == NewTx(i, hash, id, received);
    hide FreshChanges;
    SubmissionIsTotal(row, padded, hash, found, reversed, id, received, reading, ids);
  }

  // ----- Acceptance, column by column -----

  /** The reference that a kind demands or allows, never the transaction itself. */
  predicate ReferenceFitsKind(i: Input) {
    match i.kind
    case Bet => i.reference == ""
    case Loss => i.reference == ""
    case Win => i.reference == "" || (ValidID(i.reference) && i.reference != i.external)
    case Refund => ValidID(i.reference) && i.reference != i.external
    case Rollback => ValidID(i.reference) && i.reference != i.external
    case Opening => false
  }

  /** A submission is accepted exactly when its identifiers are trimmed and present, wallet and
      player are UUIDs, a correlation id is given, the currency is known, the amount is zero for a
      loss and positive otherwise, and the reference is the one its kind asks for. */
  lemma AcceptanceIsExact(i: Input, hash: string, id: string, received: Time)
    requires ValidID(id) && hash != "" && received > 0
    ensures Accepted(i, hash, id, received) <==>
            && ValidID(i.provider) && ValidID(i.external) && ValidID(i.key) && ValidID(i.round) && ValidID(i.game)
            && ValidUuid(i.wallet) && ValidUuid(i.player) && i.correlation != ""
            && i.amount.currency.code in ["BRL", "EUR", "USD"]
            && (if i.kind == Loss then i.amount.minor == 0 else i.amount.minor > 0)
            && ReferenceFitsKind(i)
  {
    if ValidUuid(i.wallet) && ValidUuid(i.player) {
      UuidIsValidID(i.wallet);
      UuidIsValidID(i.player);
    }
    hide ValidUuid, ValidID;
  }

  /** A stored wallet fits a submission exactly when player and currency are the submitted ones. */
  lemma FittingIsExact(i: Input, row: WalletRow)
    requires WalletValid(row) && row.id == i.wallet
    ensures WalletFits(i, row) <==> row.player == i.player && row.balance.currency == i.amount.currency
  {}

  // ----- What each kind does -----

  /** The transaction is rejected with `code`, and the wallet's balance is shown unmoved. */
  predicate IsRejected(c: Changes, row: WalletRow, code: FailureCode) {
    && c.tx.Some? && c.tx.value.status == Rejected && c.tx.value.failure == Some(code) && c.tx.value.result == Some(row.balance)
    && c.account.None? && c.entry.None?
  }

  /** The wallet moves from its balance by the amount, once. */
  predicate IsMoved(c: Changes, row: WalletRow, direction: Direction, amount: Money) {
    && c.tx.Some? && c.tx.value.status == Processed && c.tx.value.failure.None?
    && c.account.Some? && c.entry.Some?
    && var after := c.account.value.balance;
    && after.currency == row.balance.currency
    && after.minor as int == row.balance.minor as int + (if direction == Credit then amount.minor as int else -(amount.minor as int))
    && c.account.value.version as int == row.version as int + 1 && c.tx.value.result == Some(after)
    && c.entry.value.direction == direction && c.entry.value.amount == amount
    && c.entry.value.before == row.balance && c.entry.value.after == after
  }

  /** An accepted loss is processed, shows the wallet's balance and moves nothing. */
  lemma LossIsProcessed(row: WalletRow, i: Input, hash: string, found: Option<Tx>, reversed: bool,
                        id: string, received: Time, reading: Time, ids: Ids)
    requires WalletFits(i, row) && Accepted(i, hash, id, received) && i.kind == Loss && ValidID(i.correlation)
    ensures var r := FreshChanges(row, i, hash, found, reversed, id, received, reading, ids);
            && r.Ok? && r.value.tx.Some? && r.value.tx.value.status == Processed && r.value.tx.value.result == Some(row.balance)
            && r.value.account.None? && r.value.entry.None? && r.value.schedule.None?
  {
    var t := NewTx(i, hash, id, received);
    hide Settle;
    SettleStays(row, t, i.correlation, ids, ProcessingTime(received, reading, row), reversed);
  }

  /** A bet is taken exactly when the wallet holds it; a win without a reference is paid exactly when
      the balance stays within 64 bits. */
  lemma PlainOutcome(row: WalletRow, i: Input, hash: string, found: Option<Tx>, reversed: bool,
                     id: string, received: Time, reading: Time, ids: Ids)
    requires WalletFits(i, row) && Accepted(i, hash, id, received) && ValidID(i.correlation) && row.version < MAX_INT64
    requires i.kind in [Bet, Win] && i.reference == ""
    ensures var r := FreshChanges(row, i, hash, found, reversed, id, received, reading, ids);
            && r.Ok?
            && (i.kind == Bet && i.amount.minor <= row.balance.minor ==> IsMoved(r.value, row, Debit, i.amount))
            && (i.kind == Bet && row.balance.minor < i.amount.minor ==> IsRejected(r.value, row, BetInsufficientFunds))
            && (i.kind == Win && InRange(row.balance.minor as int + i.amount.minor as int) ==> IsMoved(r.value, row, Credit, i.amount))
            && (i.kind == Win && !InRange(row.balance.minor as int + i.amount.minor as int) ==> IsRejected(r.value, row, MoneyOverflow))
  {
    var t := NewTx(i, hash, id, received);
    hide Settle;
    SettleMoves(row, t, None, reversed, if i.kind == Bet then Debit else Credit, i.correlation, ids, ProcessingTime(received, reading, row));
  }

  /** With a settled reference `x`: a broken rule or an earlier reversal is refused; a refund and the
      rollback of a bet pay back; the rollback of a win or a refund takes back what the wallet holds;
      a win pays. */
  lemma ReferencedOutcome(row: WalletRow, i: Input, hash: string, x: Tx, reversed: bool,
                          id: string, received: Time, reading: Time, ids: Ids)
    requires WalletFits(i, row) && Accepted(i, hash, id, received) && ValidID(i.correlation) && row.version < MAX_INT64
    requires i.reference != "" && x.status.Terminal()
    ensures var r := FreshChanges(row, i, hash, Some(x), reversed, id, received, reading, ids);
            var failure := Resolve(NewTx(i, hash, id, received).ident, Some(x)).failure;
            var back := i.kind == Rollback && x.ident.kind != Bet;
            var rises := InRange(row.balance.minor as int + i.amount.minor as int);
            && r.Ok?
            && (failure.Some? ==> IsRejected(r.value, row, failure.value) && r.value.tx.value.refId == "")
            && (failure.None? ==> r.value.tx.Some? && r.value.tx.value.refId == x.ident.id)
            && (failure.None? && i.kind != Win && reversed ==> IsRejected(r.value, row, AlreadyReversed))
            && (failure.None? && !(i.kind != Win && reversed) ==>
                  && (back && i.amount.minor <= row.balance.minor ==> IsMoved(r.value, row, Debit, i.amount))
                  && (back && row.balance.minor < i.amount.minor ==> IsRejected(r.value, row, ReversalInsufficientFunds))
                  && (!back && rises ==> IsMoved(r.value, row, Credit, i.amount))
                  && (!back && !rises ==> IsRejected(r.value, row, MoneyOverflow)))
  {
    var t, now := NewTx(i, hash, id, received), ProcessingTime(received, reading, row);
    var failure := Resolve(t.ident, Some(x)).failure;
    hide Settle;
    if failure.Some? || (i.kind != Win && reversed) {
      SettleRefuses(row, t, Some(x), failure, reversed, i.correlation, ids, now);
    } else {
      SettleMoves(row, t, Some(x), reversed, if i.kind == Rollback && x.ident.kind != Bet then Debit else Credit, i.correlation, ids, now);
    }
  }

  /** A reference that is missing or waits makes the submission wait a second at first and a day at
      most, and moves nothing. */
  lemma OpenReferenceWaits(row: WalletRow, i: Input, hash: string, found: Option<Tx>, reversed: bool,
                           id: string, received: Time, reading: Time, ids: Ids)
    requires WalletFits(i, row) && Accepted(i, hash, id, received) && ValidID(i.correlation)
    requires i.reference != "" && (found.None? || !found.value.status.Terminal())
    ensures var r := FreshChanges(row, i, hash, found, reversed, id, received, reading, ids);
            && r.Ok? && r.value.tx.Some? && r.value.tx.value.status == PendingReference
            && r.value.account.None? && r.value.entry.None?
            && r.value.schedule == Some(Schedule(0, Some(r.value.tx.value.updatedAt + 1_000_000_000),
                                                 r.value.tx.value.updatedAt + 86_400_000_000_000, None, None))
  {}

  /** The time of processing is the latest of the clock reading, the reception and the wallet's last
      movement. */
  lemma ProcessingTimeIsLatest(received: Time, reading: Time, row: WalletRow)
    ensures var now := ProcessingTime(received, reading, row);
            && now >= reading && now >= received && now >= row.updatedAt
            && now in [reading, received, row.updatedAt]
  {}

  // ----- Labels -----

  /** Everything is dated `now`, every event carries the correlation id, and the drawn ids are used in
      their places; a balance event names the status event as its cause. */
  predicate Labelled(c: Changes, correlation: string, ids: Ids, now: Time) {
    && c.tx.Some? && c.tx.value.updatedAt == now
    && (c.account.Some? ==> c.account.value.updatedAt == now)
    && (c.entry.Some? ==> c.entry.value.id == ids.entry && c.entry.value.createdAt == now)
    && 1 <= |c.events| <= 2 && (|c.events| == 2 <==> c.entry.Some?)
    && (forall k :: 0 <= k < |c.events| ==> c.events[k].correlation == correlation && c.events[k].occurredAt == now)
    && c.events[0].id == ids.status && c.events[0].causation == ""
    && (|c.events| == 2 ==> c.events[1].id == ids.balance && c.events[1].causation == ids.status)
  }

  lemma SettlementIsLabelled(a: WalletRow, t: Tx, reference: Option<Tx>, failure: Option<FailureCode>, reversed: bool,
                             correlation: string, ids: Ids, now: Time)
    requires Ready(a, t, now)
    ensures var r := Settle(a, t, reference, failure, reversed, correlation, ids, now);
            r.Ok? ==> Labelled(r.value, correlation, ids, now)
  {}

  /** A submission is dated by its processing time and labelled with the caller's correlation id. */
  lemma SubmissionIsLabelled(row: WalletRow, i: Input, hash: string, found: Option<Tx>, reversed: bool,
                             id: string, received: Time, reading: Time, ids: Ids)
    requires WalletFits(i, row) && Accepted(i, hash, id, received)
    ensures var r := FreshChanges(row, i, hash, found, reversed, id, received, reading, ids);
            r.Ok? ==> Labelled(r.value, i.correlation, ids, ProcessingTime(received, reading, row))
  {
    var t, now := NewTx(i, hash, id, received), ProcessingTime(received, reading, row);
    hide Settle;
    match Resolve(t.ident, found)
    case Unresolved =>
    case NoReference => SettlementIsLabelled(row, t, None, None, reversed, i.correlation, ids, now);
    case Resolved(r, failure) => SettlementIsLabelled(row, t, Some(r), failure, reversed, i.correlation, ids, now);
  }

  /** A resumed settlement is labelled with the id of its own transaction. */
  lemma ResumptionIsLabelled(a: WalletRow, t: Tx, found: Option<Tx>, reversed: bool, expired: bool, ids: Ids, now: Time)
    requires Ready(a, t, now) && t.status.PendingReference?
    ensures var r := Resume(a, t, found, reversed, expired, ids, now);
            r.Ok? && r.value.Some? ==> Labelled(r.value.value, t.ident.id, ids, now)
  {
    var x := Resolve(t.ident, found);
    ResumeSettles(a, t, found, reversed, expired, ids, now);
    hide Settle, Resume, Resolve;
    SettlementIsLabelled(a, t, ResumeReference(x), ResumeFailure(x), reversed, t.ident.id, ids, now);
  }
}
