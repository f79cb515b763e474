/** The two objects a settlement updates in place: the wallet and the wager transaction. */
module Entities {
  import opened Text
  import opened Wrappers
  import opened Monetary
  import opened Model
  import opened Settlement

  datatype WalletError = NonPositiveAmount | MovementTime | VersionLimit | InsufficientFunds | BadMoney(error: MoneyError)

  class Wallet {
    const id: string
    const player: string
    var balance: Money
    var version: int64
    const createdAt: Time
    var updatedAt: Time

    function Row(): WalletRow
      reads this
    {
      WalletRow(id, player, balance, version, createdAt, updatedAt)
    }

    constructor (row: WalletRow)
      ensures Row() == row
    {
      id, player, balance, version := row.id, row.player, row.balance, row.version;
      createdAt, updatedAt := row.createdAt, row.updatedAt;
    }

    /** `validateMovement`. */
    method ValidateMovement(amount: Money, now: Time) returns (error: Option<WalletError>)
      ensures error.None? <==> amount.IsPositive() && 0 < now && updatedAt <= now
                               && version < MAX_INT64 && balance.Compatible(amount)
      ensures balance.Compatible(amount) && amount.IsPositive() && 0 < now && updatedAt <= now && error.Some? ==>
                error == Some(VersionLimit)
      ensures error != Some(InsufficientFunds) && error != Some(BadMoney(Overflow))
    {
      if !amount.IsPositive() {
        if !amount.Valid() {
          return Some(BadMoney(InvalidCurrency));
        }
        return Some(NonPositiveAmount);
      }
      if now == 0 || now < updatedAt {
        return Some(MovementTime);
      }
      if version == MAX_INT64 {
        return Some(VersionLimit);
      }
      var comparison := balance.Compare(amount);
      error := if comparison.Ok? then None else Some(BadMoney(comparison.error));
    }

    /** `apply`. */
    method Apply(result: Money, now: Time) returns (before: Money, after: Money)
      requires version < MAX_INT64
      modifies this
      ensures before == old(balance) && after == result
      ensures Row() == old(Row()).(balance := result, version := old(version) + 1, updatedAt := now)
    {
      before := balance;
      balance := result;
      version := version + 1;
      updatedAt := now;
      after := result;
    }

    /** A movement either fails and changes nothing, or moves the balance by exactly the amount,
        advances the version once and keeps the wallet valid. Overflow of the balance is reported
        exactly when the sum leaves 64 bits. */
    method CreditBy(amount: Money, now: Time) returns (r: Result<(Money, Money), WalletError>)
      modifies this
      ensures r.Ok? <==> amount.IsPositive() && 0 < now && old(updatedAt) <= now && old(version) < MAX_INT64
                         && old(balance).Compatible(amount) && InRange(old(balance).minor as int + amount.minor as int)
      ensures r.Ok? ==> r.value == (old(balance), balance)
                        && BalanceEquation(Credit, amount, old(balance), balance)
                        && Row() == old(Row()).(balance := balance, version := old(version) + 1, updatedAt := now)
      ensures r.Err? ==> Row() == old(Row())
      ensures r == Err(BadMoney(Overflow)) <==>
              amount.IsPositive() && 0 < now && old(updatedAt) <= now && old(version) < MAX_INT64
              && old(balance).Compatible(amount) && !InRange(old(balance).minor as int + amount.minor as int)
      ensures r != Err(InsufficientFunds)
      ensures r.Ok? && old(WalletValid(Row())) ==> WalletValid(Row())
    {
      var error := ValidateMovement(amount, now);
      if error.Some? {
        return Err(error.value);
      }
      var result := balance.Add(amount);
      if result.Err? {
        return Err(BadMoney(result.error));
      }
      var before, after := Apply(result.value, now);
      r := Ok((before, after));
    }

    /** Funds are insufficient exactly when the movement is otherwise acceptable and the balance is
        smaller than the amount; the balance never becomes negative. */
    method DebitBy(amount: Money, now: Time) returns (r: Result<(Money, Money), WalletError>)
      requires balance.minor >= 0
      modifies this
      ensures r.Ok? <==> amount.IsPositive() && 0 < now && old(updatedAt) <= now && old(version) < MAX_INT64
                         && old(balance).Compatible(amount) && amount.minor <= old(balance).minor
      ensures r.Ok? ==> r.value == (old(balance), balance)
                        && BalanceEquation(Debit, amount, old(balance), balance)
                        && Row() == old(Row()).(balance := balance, version := old(version) + 1, updatedAt := now)
      ensures r.Err? ==> Row() == old(Row())
      ensures r == Err(InsufficientFunds) <==>
              amount.IsPositive() && 0 < now && old(updatedAt) <= now && old(version) < MAX_INT64
              && old(balance).Compatible(amount) && old(balance).minor < amount.minor
      ensures r != Err(BadMoney(Overflow))
      ensures r.Ok? && old(WalletValid(Row())) ==> WalletValid(Row())
    {
      var error := ValidateMovement(amount, now);
      if error.Some? {
        return Err(error.value);
      }
      var comparison := balance.Compare(amount);
      if comparison.Err? {
        return Err(BadMoney(CurrencyMismatch));
      }
      if comparison.value < 0 {
        return Err(InsufficientFunds);
      }
      var result := balance.Subtract(amount);
      if result.Err? {
        return Err(BadMoney(Overflow));
      }
      var before, after := Apply(result.value, now);
      r := Ok((before, after));
    }
  }

  datatype TxError = InvalidTransition | InvalidReference | InvalidTransaction | InvalidFailureCode | CurrencyDiffers

  class Transaction {
    const ident: Identity
    var refId: string
    var status: Status
    var failure: Option<FailureCode>
    var result: Option<Money>
    var updatedAt: Time

    function Row(): Tx
      reads this
    {
      Tx(ident, refId, status, failure, result, updatedAt)
    }

    constructor (row: Tx)
      ensures Row() == row
    {
      ident, refId, status, failure := row.ident, row.refId, row.status, row.failure;
      result, updatedAt := row.result, row.updatedAt;
    }

    /** `MarkPendingReference`: only from PENDING and only with a reference to wait for. */
    method MarkPendingReference(now: Time) returns (error: Option<TxError>)
      modifies this`status, this`updatedAt
      ensures error.None? <==> old(status).Pending? && ident.reference != "" && 0 < now && old(updatedAt) <= now
      ensures error.None? ==> Row() == old(Row()).(status := PendingReference, updatedAt := now)
      ensures error.Some? ==> Row() == old(Row())
      ensures error.None? && old(TxValid(Row())) ==> TxValid(Row())
    {
      if !status.Pending? || ident.reference == "" {
        return Some(InvalidTransition);
      }
      if now == 0 || now < updatedAt {
        return Some(InvalidTransaction);
      }
      status := PendingReference;
      updatedAt := now;
      error := None;
    }

    /** `ResolveReference`: a reference is resolved once and never to another transaction. */
    method ResolveReference(id: string, now: Time) returns (error: Option<TxError>)
      modifies this`refId, this`updatedAt
      ensures error.None? <==> (old(status).Pending? || old(status).PendingReference?) && ident.reference != ""
                               && ValidID(id) && (old(refId) == "" || old(refId) == id) && 0 < now && old(updatedAt) <= now
      ensures error.None? ==> Row() == old(Row()).(refId := id, updatedAt := now)
      ensures error.Some? ==> Row() == old(Row())
      ensures error.None? && old(TxValid(Row())) ==> TxValid(Row())
    {
      if !status.Pending? && !status.PendingReference? {
        return Some(InvalidTransition);
      }
      if ident.reference == "" || !ValidID(id) {
        return Some(InvalidReference);
      }
      if refId != "" && refId != id {
        return Some(InvalidReference);
      }
      if now == 0 || now < updatedAt {
        return Some(InvalidTransaction);
      }
      refId := id;
      updatedAt := now;
      error := None;
    }

    /** `prepareTerminal`. */
    method PrepareTerminal(balance: Money, now: Time) returns (error: Option<TxError>)
      ensures error.None? <==> !status.Terminal() && 0 < now && updatedAt <= now
                               && balance.Valid() && balance.minor >= 0 && balance.currency == ident.amount.currency
    {
      if status.Terminal() {
        return Some(InvalidTransition);
      }
      if now == 0 || now < updatedAt {
        return Some(InvalidTransaction);
      }
      if !balance.Valid() || balance.IsNegative() {
        return Some(InvalidTransaction);
      }
      if balance.currency != ident.amount.currency {
        return Some(CurrencyDiffers);
      }
      error := None;
    }

    /** `MarkProcessed`: never with an unresolved reference, and every accepted call leaves a row
        that the rehydrating constructor accepts. */
    method MarkProcessed(balance: Money, now: Time) returns (error: Option<TxError>)
      modifies this`status, this`failure, this`result, this`updatedAt
      ensures error.None? <==> (ident.reference != "" ==> refId != "") && !old(status).Terminal()
                               && 0 < now && old(updatedAt) <= now
                               && balance.Valid() && balance.minor >= 0 && balance.currency == ident.amount.currency
      ensures error.None? ==> Row() == ProcessedTx(old(Row()), refId, balance, now)
      ensures error.None? ==> status == Processed && failure == None && result == Some(balance) && updatedAt == now
      ensures error.Some? ==> Row() == old(Row())
      ensures error.None? && old(TxValid(Row())) ==> TxValid(Row())
    {
      if ident.reference != "" && refId == "" {
        return Some(InvalidReference);
      }
      error := PrepareTerminal(balance, now);
      if error.Some? {
        return;
      }
      status := Processed;
      failure := None;
      result := Some(balance);
      updatedAt := now;
    }

    /** `Reject`. */
    method Reject(code: FailureCode, balance: Money, now: Time) returns (error: Option<TxError>)
      modifies this`status, this`failure, this`result, this`updatedAt
      ensures error.None? <==> !old(status).Terminal() && 0 < now && old(updatedAt) <= now
                               && balance.Valid() && balance.minor >= 0 && balance.currency == ident.amount.currency
      ensures error.None? ==> Row() == RejectedTx(old(Row()), refId, code, balance, now)
      ensures error.None? ==> status == Rejected && failure == Some(code) && result == Some(balance) && updatedAt == now
      ensures error.Some? ==> Row() == old(Row())
      ensures error.None? && old(TxValid(Row())) && ident.origin.External? ==> TxValid(Row())
    {
      error := PrepareTerminal(balance, now);
      if error.Some? {
        return;
      }
      status := Rejected;
      failure := Some(code);
      result := Some(balance);
      updatedAt := now;
    }

    /** `Fail`: only for a permanent infrastructure failure and only from a non-terminal state. */
    method Fail(code: FailureCode, now: Time) returns (error: Option<TxError>)
      modifies this`status, this`failure, this`result, this`updatedAt
      ensures error.None? <==> !old(status).Terminal() && code.InfrastructurePermanent? && 0 < now && old(updatedAt) <= now
      ensures error.None? ==>
                Row() == old(Row()).(status := Failed, failure := Some(code), result := None, updatedAt := now)
      ensures error.Some? ==> Row() == old(Row())
      ensures error.None? && old(TxValid(Row())) ==> TxValid(Row())
    {
      if status.Terminal() {
        return Some(InvalidTransition);
      }
      if !code.InfrastructurePermanent? {
        return Some(InvalidFailureCode);
      }
      if now == 0 || now < updatedAt {
        return Some(InvalidTransaction);
      }
      status := Failed;
      failure := Some(code);
      result := None;
      updatedAt := now;
      error := None;
    }
  }
}
