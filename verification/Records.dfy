/** Constructors of immutable records: ledger entries and integration events. */
module Records {
  import opened Text
  import opened Wrappers
  import opened Monetary
  import opened Model

  datatype EntryError = InvalidEntry | EquationFails

  /** What a ledger entry must be, with the balance equation over unbounded integers. */
  predicate EntryValid(e: Entry) {
    && ValidID(e.id) && ValidID(e.wallet) && ValidID(e.tx)
    && e.amount.IsPositive()
    && e.before.Valid() && e.after.Valid() && e.before.minor >= 0 && e.after.minor >= 0
    && e.version >= 1 && e.createdAt > 0
    && BalanceEquation(e.direction, e.amount, e.before, e.after)
  }

  /** `ledger.build`: the checked 64-bit arithmetic accepts exactly the valid entries. */
  function BuildEntry(e: Entry): (r: Result<Entry, EntryError>)
    ensures r.Ok? <==> EntryValid(e)
    ensures r.Ok? <==>
            && ValidID(e.id) && ValidID(e.wallet) && ValidID(e.tx) && e.version >= 1 && e.createdAt > 0
            && e.amount.Valid() && e.amount.minor > 0 && e.before.minor >= 0 && e.after.minor >= 0
            && e.before.currency == e.amount.currency == e.after.currency
            && (e.direction == Credit ==> e.after.minor as int == e.before.minor as int + e.amount.minor as int)
            && (e.direction == Debit ==> e.after.minor as int == e.before.minor as int - e.amount.minor as int)
    ensures r.Ok? ==> r.value == e
  {
    if !ValidID(e.id) || !ValidID(e.wallet) || !ValidID(e.tx) then Err(InvalidEntry)
    else if !e.amount.IsPositive() then Err(InvalidEntry)
    else if !e.before.Valid() || !e.after.Valid() || e.before.IsNegative() || e.after.IsNegative() then Err(InvalidEntry)
    else if e.version < 1 || e.createdAt == 0 then Err(InvalidEntry)
    else
      var expected := if e.direction.Credit? then e.before.Add(e.amount) else e.before.Subtract(e.amount);
      if expected.Err? || !expected.value.Equal(e.after) then Err(EquationFails) else Ok(e)
  }

  datatype EventError = InvalidEvent

  /** `newEnvelope`. */
  predicate MetadataValid(e: Event) {
    && ValidID(e.id) && ValidID(e.aggregate) && ValidID(e.correlation)
    && (e.causation != "" ==> ValidID(e.causation))
    && e.occurredAt > 0
  }

  /** `validateTransactionEvent`. */
  predicate TransactionDataValid(aggregate: string, tx: string, provider: string, kind: Kind,
                                 amount: Money, balance: Money, allowOpening: bool)
  {
    && aggregate == tx && ValidID(tx)
    && (if kind.Opening? then allowOpening && provider == "" && amount.IsPositive() else ValidID(provider))
    && amount.Valid() && balance.Valid() && !balance.IsNegative()
    && amount.currency == balance.currency
    && (if kind.Loss? then amount.IsZero() else amount.IsPositive())
  }

  /** The four event constructors; each accepts exactly what its checks allow. */
  function BuildEvent(e: Event): (r: Result<Event, EventError>)
    ensures r.Ok? ==> r.value == e && MetadataValid(e)
    ensures r.Ok? ==> ValidID(e.id) && ValidID(e.correlation) && (e.causation == "" || ValidID(e.causation)) && e.occurredAt > 0
    ensures e.data.ProcessedData? || e.data.RejectedData? ==>
              (r.Ok? <==>
               && MetadataValid(e) && e.aggregate == e.data.tx && e.data.money.Valid()
               && (if e.data.kind.Opening? then e.data.ProcessedData? && e.data.provider == "" else ValidID(e.data.provider))
               && e.data.money.minor >= 0 && (e.data.money.minor == 0 <==> e.data.kind.Loss?)
               && e.data.balance.minor >= 0 && e.data.balance.currency == e.data.money.currency)
    ensures e.data.PendingData? ==>
              (r.Ok? <==>
               && MetadataValid(e) && e.aggregate == e.data.tx && ValidID(e.data.provider) && ValidID(e.data.reference)
               && !e.data.kind.Opening? && !e.data.kind.Bet? && !e.data.kind.Loss?)
    ensures e.data.BalanceChanged? ==>
              (r.Ok? <==>
               && MetadataValid(e) && e.aggregate == e.data.wallet && ValidID(e.data.tx) && e.data.version >= 1
               && e.data.money.IsPositive() && e.data.before.minor >= 0 && e.data.after.minor >= 0
               && BalanceEquation(e.data.direction, e.data.money, e.data.before, e.data.after))
  {
    var accepted :=
      match e.data
      case ProcessedData(tx, provider, kind, amount, balance) =>
        TransactionDataValid(e.aggregate, tx, provider, kind, amount, balance, true)
      case RejectedData(tx, provider, kind, _, amount, balance) =>
        !kind.Opening? && TransactionDataValid(e.aggregate, tx, provider, kind, amount, balance, false)
      case PendingData(tx, provider, kind, reference) =>
        && e.aggregate == tx && ValidID(tx) && ValidID(provider) && ValidID(reference)
        && (kind.Win? || kind.Refund? || kind.Rollback?)
      case BalanceChanged(wallet, tx, direction, amount, before, after, version) =>
        && e.aggregate == wallet && ValidID(wallet) && ValidID(tx) && amount.IsPositive() && version >= 1
        && before.Valid() && !before.IsNegative() && after.Valid() && !after.IsNegative()
        && (var expected := if direction.Credit? then before.Add(amount) else before.Subtract(amount);
            expected.Ok? && expected.value.Equal(after));
    if accepted && MetadataValid(e) then Ok(e) else Err(InvalidEvent)
  }
}
