/** The use cases that run inside one SQL transaction: submit, process, resume and finish. */
module Engine {
  import opened Text
  import opened Wrappers
  import opened Monetary
  import opened Model
  import opened Settlement
  import opened Records
  import opened Entities
  import Payload

  datatype EngineError =
    | InvalidInput
    | WalletNotFound
    | WalletMismatch
    | IdempotencyConflict
    | ExternalIDConflict
    | WalletFailure
    | TransactionFailure
    | EntryFailure
    | EventFailure

  /** What the database answers to the lookups of one attempt. Under READ COMMITTED every
      statement sees its own snapshot, so the answers need not agree with one another. */
  datatype Answers = Answers(
    key1: Option<Tx>, external1: Option<Tx>,
    wallet: Option<WalletRow>,
    key2: Option<Tx>, external2: Option<Tx>,
    reference: Option<Tx>,
    reversed: bool)

  /** The session of one SQL transaction: lookups answer from the database, writes stay
      uncommitted until the transaction ends. */
  class Session {
    const answers: Answers
    var changes: Changes

    constructor (answers: Answers)
      ensures this.answers == answers && changes == NO_CHANGES
    {
      this.answers := answers;
      changes := NO_CHANGES;
    }

    method WriteTransaction(t: Tx, schedule: Option<Schedule>)
      modifies this`changes
      ensures changes == old(changes).(tx := Some(t), schedule := schedule)
    {
      changes := changes.(tx := Some(t), schedule := schedule);
    }

    method UpdateWallet(row: WalletRow)
      modifies this`changes
      ensures changes == old(changes).(account := Some(row))
    {
      changes := changes.(account := Some(row));
    }

    method InsertLedger(e: Entry)
      modifies this`changes
      ensures changes == old(changes).(entry := Some(e))
    {
      changes := changes.(entry := Some(e));
    }

    method InsertEvent(e: Event)
      modifies this`changes
      ensures changes == old(changes).(events := old(changes).events + [e])
    {
      changes := changes.(events := changes.events + [e]);
    }
  }

  // ----- Identities -----

  datatype Identification = Fresh | Replay(tx: Tx) | Conflict(error: EngineError)

  /** `evaluateIdentities`, given what its two lookups returned. */
  function EvaluateIdentities(i: Input, hash: string, byKey: Option<Tx>, byExternal: Option<Tx>): Identification {
    if byKey.Some? then
      if byKey.value.ident.hash != hash then Conflict(IdempotencyConflict)
      else if byExternal.None? || byExternal.value.ident.id != byKey.value.ident.id then Conflict(ExternalIDConflict)
      else Replay(byKey.value)
    else if byExternal.Some? then
      if byExternal.value.ident.key == i.key then
        if byExternal.value.ident.hash != hash then Conflict(IdempotencyConflict) else Replay(byExternal.value)
      else Conflict(ExternalIDConflict)
    else Fresh
  }

  /** `validateInput`. */
  predicate InputValid(i: Input) {
    && ValidID(i.provider) && ValidID(i.external) && ValidID(i.key) && ValidID(i.round) && ValidID(i.game)
    && i.correlation != ""
    && ValidUuid(i.wallet) && ValidUuid(i.player)
    && i.amount.Valid() && i.amount.minor >= 0
  }

  /** The row `NewExternal` builds for an input and its payload hash. */
  function NewTx(i: Input, hash: string, id: string, received: Time): Tx {
    Tx(Identity(id, External, i.provider, i.external, i.key, hash, i.wallet, i.player, i.round, i.game,
                i.kind, i.amount, i.reference, received),
       "", Pending, None, None, received)
  }

  /** The input passes validation and the domain accepts the new transaction. */
  predicate Accepted(i: Input, hash: string, id: string, received: Time) {
    InputValid(i) && TxValid(NewTx(i, hash, id, received))
  }

  /** A wallet row that the submission may move. */
  predicate WalletFits(i: Input, row: WalletRow) {
    WalletValid(row) && row.id == i.wallet && row.player == i.player && row.balance.currency == i.amount.currency
  }

  /** The time of processing: no earlier than the reception and the wallet's last movement. */
  function ProcessingTime(received: Time, reading: Time, row: WalletRow): Time {
    Max(Max(reading, received), row.updatedAt)
  }

  /** What a fresh identity on a fitting wallet writes; any clock readings will do. */
  function FreshChanges(row: WalletRow, i: Input, hash: string, found: Option<Tx>, reversed: bool,
                        id: string, received: Time, reading: Time, ids: Ids): Result<Changes, SettleError>
    requires WalletFits(i, row) && Accepted(i, hash, id, received)
  {
    Process(row, NewTx(i, hash, id, received), found, reversed, i.correlation, ids, ProcessingTime(received, reading, row))
  }

  function Max(a: Time, b: Time): Time { if a < b then b else a }

  // ----- Settling -----

  /** `persistRejected`. */
  method PersistRejected(session: Session, transaction: Transaction, balance: Money, code: FailureCode,
                         correlation: string, ids: Ids, now: Time) returns (error: Option<EngineError>)
    requires session.changes == NO_CHANGES
    requires TxValid(transaction.Row()) && transaction.ident.origin.External? && !transaction.status.Terminal()
    requires 0 < now && transaction.updatedAt <= now
    requires balance.Valid() && balance.minor >= 0 && balance.currency == transaction.ident.amount.currency
    requires IdsValid(ids)
    modifies session, transaction
    ensures error.None? <==> ValidID(correlation)
    ensures error.None? ==>
              session.changes == Changes(None,
                                         Some(RejectedTx(old(transaction.Row()), old(transaction.refId), code, balance, now)),
                                         None, None,
                                         [RejectedEvent(transaction.ident, code, balance, correlation, ids.status, now)])
  {
    var failed := transaction.Reject(code, balance, now);
    if failed.Some? {
      return Some(TransactionFailure);
    }
    session.WriteTransaction(transaction.Row(), None);
    var i := transaction.ident;
    var built := BuildEvent(Event(ids.status, i.id, correlation, "", now,
                                  RejectedData(i.id, i.provider, i.kind, code, i.amount, balance)));
    if built.Err? {
      return Some(EventFailure);
    }
    session.InsertEvent(built.value);
    error := None;
  }

  /** `insertProcessedEvent`. */
  method InsertProcessedEvent(session: Session, i: Identity, balance: Money, correlation: string, ids: Ids, now: Time)
    returns (error: Option<EngineError>)
    requires ValidID(i.id) && i.origin.External? && ValidID(i.provider) && !i.kind.Opening? && i.amount.Valid()
    requires if i.kind.Loss? then i.amount.IsZero() else i.amount.IsPositive()
    requires balance.Valid() && balance.minor >= 0 && balance.currency == i.amount.currency
    requires IdsValid(ids) && 0 < now
    modifies session
    ensures error.None? <==> ValidID(correlation)
    ensures error.None? ==>
              session.changes == old(session.changes).(
                events := old(session.changes).events + [ProcessedEvent(i, balance, correlation, ids.status, now)])
  {
    var built := BuildEvent(Event(ids.status, i.id, correlation, "", now,
                                  ProcessedData(i.id, i.provider, i.kind, i.amount, balance)));
    if built.Err? {
      return Some(EventFailure);
    }
    session.InsertEvent(built.value);
    error := None;
  }

  /** The moving half of `finish`: wallet, transaction, ledger entry and both events. */
  method Move(session: Session, account: Wallet, transaction: Transaction, direction: Direction,
              correlation: string, ids: Ids, now: Time) returns (error: Option<EngineError>)
    requires session.changes == NO_CHANGES
    requires WalletValid(account.Row())
    requires TxValid(transaction.Row()) && transaction.ident.origin.External? && !transaction.status.Terminal()
    requires !transaction.ident.kind.Loss? && (transaction.ident.reference != "" ==> transaction.refId != "")
    requires 0 < now && account.updatedAt <= now && transaction.updatedAt <= now
    requires account.id == transaction.ident.wallet
    requires account.balance.currency == transaction.ident.amount.currency
    requires IdsValid(ids)
    modifies session, account, transaction
    ensures var i, row := transaction.ident, old(account.Row());
            var poor := direction.Debit? && row.balance.minor < i.amount.minor;
            var rich := direction.Credit? && !InRange(row.balance.minor as int + i.amount.minor as int);
            var code := if rich then MoneyOverflow else if i.kind.Rollback? then ReversalInsufficientFunds else BetInsufficientFunds;
            var t := old(transaction.Row());
            && (error.None? <==> row.version < MAX_INT64 && ValidID(correlation))
            && (error.None? && (poor || rich) ==>
                  session.changes == Changes(None, Some(RejectedTx(t, t.refId, code, row.balance, now)), None, None,
                                             [RejectedEvent(i, code, row.balance, correlation, ids.status, now)]))
            && (error.None? && !poor && !rich ==>
                  var after := Moved(row.balance, direction, i.amount);
                  var entry := Entry(ids.entry, row.id, i.id, direction, i.amount, row.balance, after, row.version + 1, now);
                  session.changes == Changes(Some(row.(balance := after, version := row.version + 1, updatedAt := now)),
                                             Some(ProcessedTx(t, t.refId, after, now)), None, Some(entry),
                                             [ProcessedEvent(i, after, correlation, ids.status, now),
                                              BalanceEvent(entry, correlation, ids.balance, ids.status)]))
  {
    var i := transaction.ident;
    var moved: Result<(Money, Money), WalletError>;
    if direction.Debit? {
      moved := account.DebitBy(i.amount, now);
    } else {
      moved := account.CreditBy(i.amount, now);
    }
    if moved == Err(InsufficientFunds) {
      var code := if i.kind.Rollback? then ReversalInsufficientFunds else BetInsufficientFunds;
      error := PersistRejected(session, transaction, account.balance, code, correlation, ids, now);
      return;
    }
    if moved == Err(BadMoney(Overflow)) {
      error := PersistRejected(session, transaction, account.balance, MoneyOverflow, correlation, ids, now);
      return;
    }
    if moved.Err? {
      return Some(WalletFailure);
    }
    error := Record(session, account, transaction, direction, moved.value.0, moved.value.1, correlation, ids, now);
  }

  /** The writes after the wallet has moved. */
  method Record(session: Session, account: Wallet, transaction: Transaction, direction: Direction,
                before: Money, after: Money, correlation: string, ids: Ids, now: Time)
    returns (error: Option<EngineError>)
    requires session.changes == NO_CHANGES
    requires WalletValid(account.Row()) && account.version > 1
    requires TxValid(transaction.Row()) && transaction.ident.origin.External? && !transaction.status.Terminal()
    requires !transaction.ident.kind.Loss? && (transaction.ident.reference != "" ==> transaction.refId != "")
    requires 0 < now && transaction.updatedAt <= now
    requires account.id == transaction.ident.wallet && account.balance == after
    requires before.Valid() && before.minor >= 0
    requires BalanceEquation(direction, transaction.ident.amount, before, after)
    requires IdsValid(ids)
    modifies session, transaction
    ensures error.None? <==> ValidID(correlation)
    ensures var i := transaction.ident;
            var entry := Entry(ids.entry, account.id, i.id, direction, i.amount, before, after, account.version, now);
            error.None? ==>
              session.changes == Changes(Some(account.Row()),
                                         Some(ProcessedTx(old(transaction.Row()), old(transaction.refId), after, now)),
                                         None, Some(entry),
                                         [ProcessedEvent(i, after, correlation, ids.status, now),
                                          BalanceEvent(entry, correlation, ids.balance, ids.status)])
  {
    var i := transaction.ident;
    var failed := transaction.MarkProcessed(after, now);
    if failed.Some? {
      return Some(TransactionFailure);
    }
    var built := BuildEntry(Entry(ids.entry, account.id, i.id, direction, i.amount, before, after, account.version, now));
    if built.Err? {
      return Some(EntryFailure);
    }
    session.UpdateWallet(account.Row());
    session.WriteTransaction(transaction.Row(), None);
    session.InsertLedger(built.value);
    error := InsertProcessedEvent(session, i, after, correlation, ids, now);
    if error.Some? {
      return;
    }
    var balanceEvent := BuildEvent(Event(ids.balance, i.wallet, correlation, ids.status, now,
                                         BalanceChanged(i.wallet, i.id, direction, i.amount, before, after, account.version)));
    if balanceEvent.Err? {
      return Some(EventFailure);
    }
    session.InsertEvent(balanceEvent.value);
  }

  /** The branch of `finish` that moves nothing. */
  method PersistLoss(session: Session, transaction: Transaction, balance: Money, correlation: string, ids: Ids, now: Time)
    returns (error: Option<EngineError>)
    requires session.changes == NO_CHANGES
    requires TxValid(transaction.Row()) && transaction.ident.origin.External? && !transaction.status.Terminal()
    requires transaction.ident.kind.Loss? && 0 < now && transaction.updatedAt <= now
    requires balance.Valid() && balance.minor >= 0 && balance.currency == transaction.ident.amount.currency
    requires IdsValid(ids)
    modifies session, transaction
    ensures error.None? <==> ValidID(correlation)
    ensures error.None? ==>
              session.changes == Changes(None, Some(ProcessedTx(old(transaction.Row()), old(transaction.refId), balance, now)),
                                         None, None, [ProcessedEvent(transaction.ident, balance, correlation, ids.status, now)])
  {
    var failed := transaction.MarkProcessed(balance, now);
    if failed.Some? {
      return Some(TransactionFailure);
    }
    session.WriteTransaction(transaction.Row(), None);
    error := InsertProcessedEvent(session, transaction.ident, balance, correlation, ids, now);
  }

  /** What a settlement refuses before it looks at funds. */
  lemma SettleRefuses(a: WalletRow, t: Tx, reference: Option<Tx>, failure: Option<FailureCode>, reversed: bool,
                      correlation: string, ids: Ids, now: Time)
    requires Ready(a, t, now) && (failure.Some? || (reference.Some? && t.ident.kind.Reversal() && reversed))
    ensures var r := Settle(a, t, reference, failure, reversed, correlation, ids, now);
            var code := if failure.Some? then failure.value else AlreadyReversed;
            var refId := if failure.None? && reference.Some? then reference.value.ident.id else "";
            && (r.Ok? <==> ValidID(correlation))
            && (r.Ok? ==> r.value == Changes(None, Some(RejectedTx(t, refId, code, a.balance, now)), None, None,
                                             [RejectedEvent(t.ident, code, a.balance, correlation, ids.status, now)]))
  {}

  lemma SettleStays(a: WalletRow, t: Tx, correlation: string, ids: Ids, now: Time, reversed: bool)
    requires Ready(a, t, now) && t.ident.kind.Loss?
    ensures var r := Settle(a, t, None, None, reversed, correlation, ids, now);
            && (r.Ok? <==> ValidID(correlation))
            && (r.Ok? ==> r.value == Changes(None, Some(ProcessedTx(t, "", a.balance, now)), None, None,
                                             [ProcessedEvent(t.ident, a.balance, correlation, ids.status, now)]))
  {}

  /** What a settlement that moves the wallet writes, by direction and funds. */
  lemma SettleMoves(a: WalletRow, t: Tx, reference: Option<Tx>, reversed: bool, direction: Direction,
                    correlation: string, ids: Ids, now: Time)
    requires Ready(a, t, now) && !t.ident.kind.Loss? && !(reference.Some? && t.ident.kind.Reversal() && reversed)
    requires t.ident.kind.Rollback? ==> reference.Some?
    requires direction.Debit? <==> t.ident.kind.Bet? || (t.ident.kind.Rollback? && !reference.value.ident.kind.Bet?)
    ensures var r := Settle(a, t, reference, None, reversed, correlation, ids, now);
            var i, refId := t.ident, if reference.Some? then reference.value.ident.id else "";
            var poor := direction.Debit? && a.balance.minor < i.amount.minor;
            var rich := direction.Credit? && !InRange(a.balance.minor as int + i.amount.minor as int);
            var code := if rich then MoneyOverflow else if i.kind.Rollback? then ReversalInsufficientFunds else BetInsufficientFunds;
            && (r.Ok? <==> a.version < MAX_INT64 && ValidID(correlation))
            && (r.Ok? && (poor || rich) ==>
                  r.value == Changes(None, Some(RejectedTx(t, refId, code, a.balance, now)), None, None,
                                     [RejectedEvent(i, code, a.balance, correlation, ids.status, now)]))
            && (r.Ok? && !poor && !rich ==>
                  var after := Moved(a.balance, direction, i.amount);
                  var entry := Entry(ids.entry, a.id, i.id, direction, i.amount, a.balance, after, a.version + 1, now);
                  r.value == Changes(Some(a.(balance := after, version := a.version + 1, updatedAt := now)),
                                     Some(ProcessedTx(t, refId, after, now)), None, Some(entry),
                                     [ProcessedEvent(i, after, correlation, ids.status, now),
                                      BalanceEvent(entry, correlation, ids.balance, ids.status)]))
  {}

  /** `finish` writes exactly the settlement, and fails exactly when the settlement does: no
      ledger, event or transition check ever fires on a ready wallet and transaction. */
  method Finish(session: Session, account: Wallet, transaction: Transaction, reference: Option<Tx>,
                failure: Option<FailureCode>, correlation: string, ids: Ids, now: Time)
    returns (error: Option<EngineError>)
    requires session.changes == NO_CHANGES
    requires Ready(account.Row(), transaction.Row(), now) && ReferenceFits(transaction.Row(), reference, failure)
    requires IdsValid(ids)
    modifies session, account, transaction
    ensures var settled := Settle(old(account.Row()), old(transaction.Row()), reference, failure,
                                  session.answers.reversed, correlation, ids, now);
            (error.None? <==> settled.Ok?) && (error.None? ==> session.changes == settled.value)
  {
    hide Settle;
    ghost var row, t, reversed := account.Row(), transaction.Row(), session.answers.reversed;
    if failure.Some? {
      SettleRefuses(row, t, reference, failure, reversed, correlation, ids, now);
      error := PersistRejected(session, transaction, account.balance, failure.value, correlation, ids, now);
      return;
    }
    if reference.Some? {
      var unresolved := transaction.ResolveReference(reference.value.ident.id, now);
      if unresolved.Some? {
        return Some(TransactionFailure);
      }
      if transaction.ident.kind.Reversal() {
        if session.answers.reversed {
          SettleRefuses(row, t, reference, failure, reversed, correlation, ids, now);
          error := PersistRejected(session, transaction, account.balance, AlreadyReversed, correlation, ids, now);
          return;
        }
      }
    }
    if transaction.ident.kind.Loss? {
      SettleStays(row, t, correlation, ids, now, reversed);
      error := PersistLoss(session, transaction, account.balance, correlation, ids, now);
      return;
    }
    var direction := Credit;
    if transaction.ident.kind.Bet? || (transaction.ident.kind.Rollback? && !reference.value.ident.kind.Bet?) {
      direction := Debit;
    }
    SettleMoves(row, t, reference, reversed, direction, correlation, ids, now);
    error := Move(session, account, transaction, direction, correlation, ids, now);
  }

  /** `persistPending`. */
  method PersistPending(session: Session, transaction: Transaction, correlation: string, ids: Ids, now: Time)
    returns (error: Option<EngineError>)
    requires session.changes == NO_CHANGES
    requires TxValid(transaction.Row()) && transaction.ident.origin.External? && transaction.status.Pending?
    requires transaction.ident.reference != "" && 0 < now && transaction.updatedAt <= now && IdsValid(ids)
    modifies session, transaction
    ensures var waiting := Wait(old(transaction.Row()), correlation, ids.status, now);
            (error.None? <==> waiting.Ok?) && (error.None? ==> session.changes == waiting.value)
  {
    var i := transaction.ident;
    var failed := transaction.MarkPendingReference(now);
    if failed.Some? {
      return Some(TransactionFailure);
    }
    session.WriteTransaction(transaction.Row(), Some(Schedule(0, Some(now + SECOND), now + TTL, None, None)));
    var built := BuildEvent(Event(ids.status, i.id, correlation, "", now, PendingData(i.id, i.provider, i.kind, i.reference)));
    if built.Err? {
      return Some(EventFailure);
    }
    session.InsertEvent(built.value);
    error := None;
  }

  /** `process`. */
  method ProcessNew(session: Session, account: Wallet, transaction: Transaction, correlation: string, ids: Ids, now: Time)
    returns (error: Option<EngineError>)
    requires session.changes == NO_CHANGES
    requires Ready(account.Row(), transaction.Row(), now) && transaction.status.Pending? && IdsValid(ids)
    requires session.answers.reference.Some? ==> TxValid(session.answers.reference.value)
    modifies session, account, transaction
    ensures var processed := Process(old(account.Row()), old(transaction.Row()), session.answers.reference,
                                     session.answers.reversed, correlation, ids, now);
            (error.None? <==> processed.Ok?) && (error.None? ==> session.changes == processed.value)
  {
    match Resolve(transaction.ident, session.answers.reference)
    case Unresolved =>
      error := PersistPending(session, transaction, correlation, ids, now);
    case NoReference =>
      error := Finish(session, account, transaction, None, None, correlation, ids, now);
    case Resolved(reference, failure) =>
      error := Finish(session, account, transaction, Some(reference), failure, correlation, ids, now);
  }

  /** `ResumePendingInSession`: the clamps accept any clock reading. */
  method ResumePending(session: Session, account: Wallet, transaction: Transaction, expired: bool, reading: Time, ids: Ids)
    returns (r: Result<bool, EngineError>)
    requires session.changes == NO_CHANGES
    requires WalletValid(account.Row()) && TxValid(transaction.Row()) && transaction.ident.origin.External?
    requires transaction.refId == "" && account.balance.currency == transaction.ident.amount.currency && IdsValid(ids)
    requires session.answers.reference.Some? ==> TxValid(session.answers.reference.value)
    modifies session, account, transaction
    ensures !old(transaction.status).PendingReference? || account.id != transaction.ident.wallet ==>
              r == Err(InvalidInput) && session.changes == NO_CHANGES
    ensures old(transaction.status).PendingReference? && account.id == transaction.ident.wallet ==>
              var now := Max(Max(reading, old(transaction.updatedAt)), old(account.updatedAt));
              var resumed := Resume(old(account.Row()), old(transaction.Row()), session.answers.reference,
                                    session.answers.reversed, expired, ids, now);
              && (r.Ok? <==> resumed.Ok?)
              && (r.Ok? ==> r.value == resumed.value.Some?
                            && session.changes == if r.value then resumed.value.value else NO_CHANGES)
  {
    if !transaction.status.PendingReference? || account.id != transaction.ident.wallet {
      return Err(InvalidInput);
    }
    var now := reading;
    if now < transaction.updatedAt {
      now := transaction.updatedAt;
    }
    if now < account.updatedAt {
      now := account.updatedAt;
    }
    var resolution := Resolve(transaction.ident, session.answers.reference);
    if resolution.Unresolved? && !expired {
      return Ok(false);
    }
    var failure: Option<FailureCode> := if resolution.Resolved? then resolution.failure else None;
    if resolution.Unresolved? {
      failure := Some(ReferenceNotFound);
    }
    var reference := if resolution.Resolved? then Some(resolution.reference) else None;
    var error := Finish(session, account, transaction, reference, failure, transaction.ident.id, ids, now);
    r := if error.None? then Ok(true) else Err(error.value);
  }

  datatype Submission = Submission(tx: Tx, replay: bool)

  /** Which answers of the lookups let a submission succeed. */
  predicate SubmissionSucceeds(q: Answers, input: Input, hash: string, id: string, received: Time, reading: Time, ids: Ids) {
    && Accepted(input, hash, id, received)
    && var first := EvaluateIdentities(input, hash, q.key1, q.external1);
    (|| first.Replay?
     || (&& first.Fresh? && q.wallet.Some? && WalletFits(input, q.wallet.value)
         && var second := EvaluateIdentities(input, hash, q.key2, q.external2);
         (|| second.Replay?
          || (second.Fresh?
              && FreshChanges(q.wallet.value, input, hash, q.reference, q.reversed, id, received, reading, ids).Ok?))))
  }

  /** After the lock: the second identity check, the clamps and the processing. */
  method SubmitLocked(session: Session, account: Wallet, transaction: Transaction, input: Input, hash: string,
                      id: string, received: Time, reading: Time, ids: Ids)
    returns (r: Result<Submission, EngineError>)
    requires session.changes == NO_CHANGES && IdsValid(ids)
    requires WalletFits(input, account.Row()) && Accepted(input, hash, id, received)
    requires transaction.Row() == NewTx(input, hash, id, received)
    requires session.answers.reference.Some? ==> TxValid(session.answers.reference.value)
    modifies session, account, transaction
    ensures var q := session.answers;
            var identity := EvaluateIdentities(input, hash, q.key2, q.external2);
            && (identity.Conflict? ==> r == Err(identity.error))
            && (identity.Replay? ==> r == Ok(Submission(identity.tx, true)) && session.changes == NO_CHANGES)
            && (identity.Fresh? ==>
                  var c := FreshChanges(old(account.Row()), input, hash, q.reference, q.reversed, id, received, reading, ids);
                  && (r.Ok? <==> c.Ok?)
                  && (r.Ok? ==> session.changes == c.value && c.value.tx == Some(r.value.tx) && !r.value.replay))
  {
    var identity := EvaluateIdentities(input, hash, session.answers.key2, session.answers.external2);
    if identity.Conflict? {
      return Err(identity.error);
    }
    if identity.Replay? {
      return Ok(Submission(identity.tx, true));
    }
    var now := reading;
    if now < received {
      now := received;
    }
    if now < account.updatedAt {
      now := account.updatedAt;
    }
    var error := ProcessNew(session, account, transaction, input.correlation, ids, now);
    if error.Some? {
      return Err(error.value);
    }
    r := Ok(Submission(session.changes.tx.value, false));
  }

  /** `SubmitInSession`: identities are evaluated before and after the wallet is locked; only a
      fresh identity on a matching wallet is processed; a replay writes nothing. */
  method SubmitInSession(session: Session, input: Input, id: string, received: Time, reading: Time, ids: Ids)
    returns (r: Result<Submission, EngineError>, hash: string)
    requires session.changes == NO_CHANGES && IdsValid(ids)
    requires session.answers.wallet.Some? ==>
               WalletValid(session.answers.wallet.value) && session.answers.wallet.value.id == input.wallet
    requires session.answers.reference.Some? ==> TxValid(session.answers.reference.value)
    modifies session
    ensures hash == Payload.Canonical(input)
    ensures !Accepted(input, hash, id, received) ==> r == Err(InvalidInput)
    ensures var q := session.answers;
            var first, second := EvaluateIdentities(input, hash, q.key1, q.external1), EvaluateIdentities(input, hash, q.key2, q.external2);
            Accepted(input, hash, id, received) ==>
              && (first.Conflict? ==> r == Err(first.error))
              && (first.Replay? ==> r == Ok(Submission(first.tx, true)) && session.changes == NO_CHANGES)
              && (first.Fresh? && q.wallet.None? ==> r == Err(WalletNotFound))
              && (first.Fresh? && q.wallet.Some? && !WalletFits(input, q.wallet.value) ==> r == Err(WalletMismatch))
              && (first.Fresh? && q.wallet.Some? && WalletFits(input, q.wallet.value) ==>
                    && (second.Conflict? ==> r == Err(second.error))
                    && (second.Replay? ==> r == Ok(Submission(second.tx, true)) && session.changes == NO_CHANGES)
                    && (second.Fresh? ==>
                          var c := FreshChanges(q.wallet.value, input, hash, q.reference, q.reversed, id, received, reading, ids);
                          && (r.Ok? <==> c.Ok?)
                          && (r.Ok? ==> session.changes == c.value && c.value.tx == Some(r.value.tx) && !r.value.replay)))
  {
    hash := Payload.CanonicalPayload(input);
    if !InputValid(input) {
      return Err(InvalidInput), hash;
    }
    if !TxValid(NewTx(input, hash, id, received)) {
      return Err(InvalidInput), hash;
    }
    var transaction := new Transaction(NewTx(input, hash, id, received));
    var identity := EvaluateIdentities(input, hash, session.answers.key1, session.answers.external1);
    if identity.Conflict? {
      return Err(identity.error), hash;
    }
    if identity.Replay? {
      return Ok(Submission(identity.tx, true)), hash;
    }
    if session.answers.wallet.None? {
      return Err(WalletNotFound), hash;
    }
    var account := new Wallet(session.answers.wallet.value);
    if account.player != input.player || account.balance.currency != input.amount.currency {
      return Err(WalletMismatch), hash;
    }
    r := SubmitLocked(session, account, transaction, input, hash, id, received, reading, ids);
  }
}
