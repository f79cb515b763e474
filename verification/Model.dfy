/** The rows of the store: wallets, wager transactions, ledger entries and integration events. */
module Model {
  import opened Text
  import opened Wrappers
  import opened Monetary

  /** Nanoseconds; 0 is Go's zero time, which every constructor refuses. */
  type Time = nat

  const SECOND: nat := 1_000_000_000

  datatype Kind = Opening | Bet | Win | Loss | Refund | Rollback {
    /** Kinds that undo another transaction. */
    predicate Reversal() { Refund? || Rollback? }
  }

  function KindName(k: Kind): string {
    match k
    case Opening => "OPENING"
    case Bet => "BET"
    case Win => "WIN"
    case Loss => "LOSS"
    case Refund => "REFUND"
    case Rollback => "ROLLBACK"
  }

  datatype Origin = Internal | External

  datatype Status = Pending | PendingReference | Processed | Rejected | Failed {
    predicate Terminal() { Processed? || Rejected? || Failed? }
  }

  datatype FailureCode =
    | BetInsufficientFunds
    | ReversalInsufficientFunds
    | ReferenceNotFound
    | ReferenceNotProcessed
    | ReferenceMismatch
    | ReferenceTypeNotAllowed
    | AlreadyReversed
    | CurrencyMismatchFailure
    | InvalidOperationAmount
    | WalletPlayerMismatch
    | InvalidReferenceFailure
    | MoneyOverflow
    | InfrastructurePermanent

  datatype Direction = Debit | Credit

  /** `SubmitInput`: one operation as a transport delivers it. */
  datatype Input = Input(
    provider: string,
    external: string,
    key: string,
    wallet: string,
    player: string,
    round: string,
    game: string,
    kind: Kind,
    amount: Money,
    reference: string,
    correlation: string)

  /** The columns of a wager transaction that never change. */
  datatype Identity = Identity(
    id: string,
    origin: Origin,
    provider: string,
    external: string,
    key: string,
    hash: string,
    wallet: string,
    player: string,
    round: string,
    game: string,
    kind: Kind,
    amount: Money,
    reference: string,
    createdAt: Time)

  datatype Tx = Tx(
    ident: Identity,
    refId: string,
    status: Status,
    failure: Option<FailureCode>,
    result: Option<Money>,
    updatedAt: Time)

  datatype WalletRow = WalletRow(
    id: string,
    player: string,
    balance: Money,
    version: int64,
    createdAt: Time,
    updatedAt: Time)

  datatype Entry = Entry(
    id: string,
    wallet: string,
    tx: string,
    direction: Direction,
    amount: Money,
    before: Money,
    after: Money,
    version: int64,
    createdAt: Time)

  datatype EventData =
    | ProcessedData(tx: string, provider: string, kind: Kind, money: Money, balance: Money)
    | RejectedData(tx: string, provider: string, kind: Kind, failure: FailureCode, money: Money, balance: Money)
    | PendingData(tx: string, provider: string, kind: Kind, reference: string)
    | BalanceChanged(wallet: string, tx: string, direction: Direction, money: Money,
                     before: Money, after: Money, version: int64)

  datatype Event = Event(
    id: string,
    aggregate: string,
    correlation: string,
    causation: string,
    occurredAt: Time,
    data: EventData)

  // ----- The checks of the rehydrating constructors -----

  /** `wallet.build` accepts the row. */
  predicate WalletValid(w: WalletRow) {
    && ValidID(w.id) && ValidID(w.player)
    && w.balance.Valid() && w.balance.minor >= 0
    && w.version >= 1
    && 0 < w.createdAt <= w.updatedAt
  }

  predicate OriginValid(t: Tx) {
    var i := t.ident;
    if i.origin.Internal? then
      && i.kind.Opening? && t.status.Processed? && i.amount.IsPositive()
      && i.provider == "" && i.external == "" && i.key == "" && i.hash == "" && i.round == "" && i.game == ""
      && i.reference == "" && t.refId == ""
    else
      && !i.kind.Opening?
      && ValidID(i.provider) && ValidID(i.external) && ValidID(i.key) && ValidID(i.round) && ValidID(i.game)
      && i.hash != ""
  }

  predicate KindAndReferenceValid(t: Tx) {
    var i := t.ident;
    && (if i.kind.Loss? then i.amount.IsZero() else i.amount.IsPositive())
    && (match i.kind
        case Refund => ValidID(i.reference)
        case Rollback => ValidID(i.reference)
        case Win => i.reference != "" ==> ValidID(i.reference)
        case Bet => i.reference == ""
        case Loss => i.reference == ""
        case Opening => i.reference == "")
    && (i.reference != "" ==> i.reference != i.external)
    && (t.refId != "" ==> i.reference != "" && ValidID(t.refId))
    && (t.status.PendingReference? ==> i.reference != "")
  }

  predicate ResultValid(t: Tx) {
    && (match t.status
        case Pending => t.failure.None? && t.result.None?
        case PendingReference => t.failure.None? && t.result.None?
        case Processed => t.failure.None? && t.result.Some?
        case Rejected => t.failure.Some? && t.result.Some?
        case Failed => t.failure.Some? && t.result.None?)
    && (t.result.Some? ==>
          && t.result.value.Valid() && t.result.value.minor >= 0
          && t.result.value.currency == t.ident.amount.currency
          && (t.ident.origin.Internal? ==> t.result.value == t.ident.amount))
    && (t.status.Processed? && t.ident.reference != "" ==> t.refId != "")
  }

  /** `wagering.build` accepts the row. */
  predicate TxValid(t: Tx) {
    && ValidID(t.ident.id) && ValidID(t.ident.wallet) && ValidID(t.ident.player)
    && t.ident.amount.Valid()
    && 0 < t.ident.createdAt <= t.updatedAt
    && OriginValid(t) && KindAndReferenceValid(t) && ResultValid(t)
  }

  /** `before` moved by `amount` in `direction` gives `after`, in unbounded integers. */
  predicate BalanceEquation(direction: Direction, amount: Money, before: Money, after: Money) {
    && amount.currency == before.currency == after.currency
    && after.minor as int ==
       before.minor as int + (if direction.Credit? then amount.minor as int else -(amount.minor as int))
  }
}
