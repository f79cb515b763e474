/** What settling one wager does to the store: which reference rule applies, which verdict is
    reached, and which rows and events are written together. */
module Settlement {
  import opened Text
  import opened Wrappers
  import opened Monetary
  import opened Model

  /** Schedule columns of a transaction that waits, or once waited, for its reference. */
  datatype Schedule = Schedule(
    attempts: nat,
    nextAt: Option<Time>,
    expiresAt: Time,
    token: Option<string>,
    lockedUntil: Option<Time>)

  /** The uncommitted writes of one SQL transaction. */
  datatype Changes = Changes(
    account: Option<WalletRow>,
    tx: Option<Tx>,
    schedule: Option<Schedule>,
    entry: Option<Entry>,
    events: seq<Event>)

  const NO_CHANGES := Changes(None, None, None, None, [])

  /** Identifiers drawn for one settlement. */
  datatype Ids = Ids(entry: string, status: string, balance: string)

  predicate IdsValid(ids: Ids) {
    ValidID(ids.entry) && ValidID(ids.status) && ValidID(ids.balance)
  }

  // ----- References -----

  datatype Resolution = NoReference | Unresolved | Resolved(reference: Tx, failure: Option<FailureCode>)

  /** The reference belongs to the same provider, player, wallet, round and currency. */
  predicate SameContext(i: Identity, r: Identity) {
    && r.provider == i.provider && r.player == i.player && r.wallet == i.wallet && r.round == i.round
    && r.amount.currency == i.amount.currency
  }

  /** A refund or a win may refer to a bet; a rollback to a bet, a win or a refund. */
  predicate KindAllowed(kind: Kind, reference: Kind) {
    match kind
    case Refund => reference.Bet?
    case Win => reference.Bet?
    case Rollback => reference.Bet? || reference.Win? || reference.Refund?
    case _ => true
  }

  /** `resolveReference`, given the row the lookup returned. */
  function Resolve(i: Identity, found: Option<Tx>): Resolution {
    if i.reference == "" then NoReference
    else if found.None? || found.value.status.Pending? || found.value.status.PendingReference? then Unresolved
    else
      var r := found.value;
      Resolved(r,
               if !r.status.Processed? then Some(ReferenceNotProcessed)
               else if !SameContext(i, r.ident) then Some(ReferenceMismatch)
               else if !KindAllowed(i.kind, r.ident.kind) then Some(ReferenceTypeNotAllowed)
               else if i.kind.Reversal() && !r.ident.amount.Equal(i.amount) then Some(InvalidOperationAmount)
               else None)
  }

  /** `HasProcessedReversal` is asked for this reference. */
  predicate AsksReversal(i: Identity, found: Option<Tx>) {
    var r := Resolve(i, found);
    r.Resolved? && r.failure.None? && i.kind.Reversal()
  }

  // ----- Verdicts -----

  /** +1 credits, -1 debits, 0 does not move: a rollback does the opposite of what it undoes. */
  function Effect(kind: Kind, reference: Option<Kind>): (e: int)
    ensures -1 <= e <= 1
  {
    match kind
    case Opening => 1
    case Bet => -1
    case Win => 1
    case Loss => 0
    case Refund => 1
    case Rollback =>
      match reference
      case Some(Bet) => 1
      case _ => -1
  }

  datatype Verdict = Post(direction: Direction) | Stay | Refuse(code: FailureCode)

  function Judge(i: Identity, balance: Money, reference: Option<Tx>, failure: Option<FailureCode>, reversed: bool): Verdict
  {
    var effect := Effect(i.kind, if reference.Some? then Some(reference.value.ident.kind) else None);
    if failure.Some? then Refuse(failure.value)
    else if reference.Some? && i.kind.Reversal() && reversed then Refuse(AlreadyReversed)
    else if effect == 0 then Stay
    else if effect < 0 then
      if balance.minor < i.amount.minor
      then Refuse(if i.kind.Rollback? then ReversalInsufficientFunds else BetInsufficientFunds)
      else Post(Debit)
    else if InRange(balance.minor as int + i.amount.minor as int) then Post(Credit)
    else Refuse(MoneyOverflow)
  }

  /** The movement that a settlement attempts on the wallet, before funds are looked at. */
  predicate Moves(i: Identity, reference: Option<Tx>, failure: Option<FailureCode>, reversed: bool) {
    failure.None? && !(reference.Some? && i.kind.Reversal() && reversed) && !i.kind.Loss?
  }

  function Moved(balance: Money, direction: Direction, amount: Money): Money
    requires InRange(balance.minor as int + (if direction.Credit? then amount.minor as int else -(amount.minor as int)))
  {
    balance.(minor := if direction.Credit? then balance.minor + amount.minor else balance.minor - amount.minor)
  }

  // ----- Rows and events -----

  function RejectedTx(t: Tx, refId: string, code: FailureCode, balance: Money, now: Time): Tx {
    t.(refId := refId, status := Rejected, failure := Some(code), result := Some(balance), updatedAt := now)
  }

  function ProcessedTx(t: Tx, refId: string, balance: Money, now: Time): Tx {
    t.(refId := refId, status := Processed, failure := None, result := Some(balance), updatedAt := now)
  }

  function RejectedEvent(i: Identity, code: FailureCode, balance: Money, correlation: string, id: string, now: Time): Event {
    Event(id, i.id, correlation, "", now, RejectedData(i.id, i.provider, i.kind, code, i.amount, balance))
  }

  function ProcessedEvent(i: Identity, balance: Money, correlation: string, id: string, now: Time): Event {
    Event(id, i.id, correlation, "", now, ProcessedData(i.id, i.provider, i.kind, i.amount, balance))
  }

  function PendingEvent(i: Identity, correlation: string, id: string, now: Time): Event {
    Event(id, i.id, correlation, "", now, PendingData(i.id, i.provider, i.kind, i.reference))
  }

  function BalanceEvent(e: Entry, correlation: string, id: string, cause: string): Event {
    Event(id, e.wallet, correlation, cause, e.createdAt,
          BalanceChanged(e.wallet, e.tx, e.direction, e.amount, e.before, e.after, e.version))
  }

  /** The wallet and transaction that a settlement starts from. */
  predicate Ready(a: WalletRow, t: Tx, now: Time) {
    && WalletValid(a) && TxValid(t) && t.ident.origin.External? && !t.status.Terminal()
    && t.refId == ""
    && a.id == t.ident.wallet && a.balance.currency == t.ident.amount.currency
    && a.updatedAt <= now && t.updatedAt <= now
  }

  /** The reference handed to `finish` fits the transaction. */
  predicate ReferenceFits(t: Tx, reference: Option<Tx>, failure: Option<FailureCode>) {
    && (failure.None? ==> (t.ident.reference == "" <==> reference.None?))
    && (reference.Some? ==> ValidID(reference.value.ident.id))
    && (failure.None? && reference.Some? ==> KindAllowed(t.ident.kind, reference.value.ident.kind))
  }

  datatype SettleError = VersionOverflow | InvalidEvent

  /** Everything one settlement writes. It fails only when the wallet would need a version past
      the 64-bit maximum or when the correlation id cannot label an event. */
  function Settle(a: WalletRow, t: Tx, reference: Option<Tx>, failure: Option<FailureCode>, reversed: bool,
                  correlation: string, ids: Ids, now: Time): (r: Result<Changes, SettleError>)
    requires Ready(a, t, now)
    ensures r.Ok? <==> ValidID(correlation) && (Moves(t.ident, reference, failure, reversed) ==> a.version < MAX_INT64)
    ensures r.Ok? ==> r.value.tx.Some? && r.value.tx.value.ident == t.ident && r.value.tx.value.status.Terminal()
    ensures r.Ok? ==> (r.value.entry.Some? <==> r.value.account.Some?) && r.value.schedule.None?
  {
    var i := t.ident;
    var refId := if failure.None? && reference.Some? then reference.value.ident.id else "";
    if Moves(i, reference, failure, reversed) && a.version == MAX_INT64 then Err(VersionOverflow)
    else if !ValidID(correlation) then Err(InvalidEvent)
    else
      match Judge(i, a.balance, reference, failure, reversed)
      case Refuse(code) =>
        Ok(Changes(None, Some(RejectedTx(t, refId, code, a.balance, now)), None, None,
                   [RejectedEvent(i, code, a.balance, correlation, ids.status, now)]))
      case Stay =>
        Ok(Changes(None, Some(ProcessedTx(t, refId, a.balance, now)), None, None,
                   [ProcessedEvent(i, a.balance, correlation, ids.status, now)]))
      case Post(direction) =>
        var after := Moved(a.balance, direction, i.amount);
        var a' := a.(balance := after, version := a.version + 1, updatedAt := now);
        var entry := Entry(ids.entry, a.id, i.id, direction, i.amount, a.balance, after, a'.version, now);
        Ok(Changes(Some(a'), Some(ProcessedTx(t, refId, after, now)), None, Some(entry),
                   [ProcessedEvent(i, after, correlation, ids.status, now),
                    BalanceEvent(entry, correlation, ids.balance, ids.status)]))
  }

  const TTL: nat := 24 * 3600 * SECOND

  /** `persistPending`. */
  function Wait(t: Tx, correlation: string, id: string, now: Time): Result<Changes, SettleError> {
    if !ValidID(correlation) then Err(InvalidEvent)
    else
      Ok(Changes(None, Some(t.(status := PendingReference, updatedAt := now)),
                 Some(Schedule(0, Some(now + SECOND), now + TTL, None, None)), None,
                 [PendingEvent(t.ident, correlation, id, now)]))
  }

  /** `process`: what a first submission writes, given the answers of its lookups. */
  function Process(a: WalletRow, t: Tx, found: Option<Tx>, reversed: bool, correlation: string, ids: Ids, now: Time)
    : Result<Changes, SettleError>
    requires Ready(a, t, now) && t.status.Pending?
  {
    match Resolve(t.ident, found)
    case Unresolved => Wait(t, correlation, ids.status, now)
    case NoReference => Settle(a, t, None, None, reversed, correlation, ids, now)
    case Resolved(r, failure) => Settle(a, t, Some(r), failure, reversed, correlation, ids, now)
  }

  /** `ResumePendingInSession`: no changes while the reference is missing and time remains. */
  function Resume(a: WalletRow, t: Tx, found: Option<Tx>, reversed: bool, expired: bool, ids: Ids, now: Time)
    : Result<Option<Changes>, SettleError>
    requires Ready(a, t, now) && t.status.PendingReference?
  {
    var resolution := Resolve(t.ident, found);
    if resolution.Unresolved? && !expired then Ok(None)
    else
      var reference := if resolution.Resolved? then Some(resolution.reference) else None;
      var failure :=
        match resolution
        case Unresolved => Some(ReferenceNotFound)
        case NoReference => None
        case Resolved(_, failure) => failure;
      match Settle(a, t, reference, failure, reversed, t.ident.id, ids, now)
      case Ok(changes) => Ok(Some(changes))
      case Err(e) => Err(e)
  }
}
