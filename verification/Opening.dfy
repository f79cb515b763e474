/** Opening a wallet, with its opening movement when the initial balance is positive. */
module Opening {
  import opened Text
  import opened Wrappers
  import opened Monetary
  import opened Model
  import opened Settlement
  import opened Records
  import opened Store

  datatype OpenIds = OpenIds(wallet: string, opening: string, entry: string, status: string, balance: string)

  predicate OpenIdsValid(ids: OpenIds) {
    ValidID(ids.wallet) && ValidID(ids.opening) && ValidID(ids.entry) && ValidID(ids.status) && ValidID(ids.balance)
  }

  function OpeningTx(player: string, initial: Money, ids: OpenIds, now: Time): Tx {
    Tx(Identity(ids.opening, Internal, "", "", "", "", ids.wallet, player, "", "", Kind.Opening, initial, "", now),
       "", Processed, None, Some(initial), now)
  }

  /** Everything that opening a wallet writes. */
  function Opened(player: string, initial: Money, correlation: string, ids: OpenIds, now: Time): Changes {
    var account := WalletRow(ids.wallet, player, initial, 1, now, now);
    if initial.minor <= 0 then NO_CHANGES.(account := Some(account))
    else
      var t := OpeningTx(player, initial, ids, now);
      var e := Entry(ids.entry, ids.wallet, ids.opening, Credit, initial, initial.(minor := 0), initial, 1, now);
      Changes(Some(account), Some(t), None, Some(e),
              [ProcessedEvent(t.ident, initial, correlation, ids.status, now),
               BalanceEvent(e, correlation, ids.balance, ids.status)])
  }

  /** The opening of `initial` is recorded in full: a processed internal transaction, a credit from
      zero, and two events under the caller's correlation id. */
  predicate RecordsOpening(c: Changes, player: string, initial: Money, correlation: string, ids: OpenIds, now: Time) {
    && c.tx == Some(Tx(Identity(ids.opening, Internal, "", "", "", "", ids.wallet, player, "", "", Kind.Opening, initial, "", now),
                       "", Processed, None, Some(initial), now))
    && c.entry == Some(Entry(ids.entry, ids.wallet, ids.opening, Credit, initial, Money(0, initial.currency), initial, 1, now))
    && c.events == [Event(ids.status, ids.opening, correlation, "", now,
                          ProcessedData(ids.opening, "", Kind.Opening, initial, initial)),
                    Event(ids.balance, ids.wallet, correlation, ids.status, now,
                          BalanceChanged(ids.wallet, ids.opening, Credit, initial, Money(0, initial.currency), initial, 1))]
  }

  /** What opening writes, column by column. */
  lemma OpenedExactly(player: string, initial: Money, correlation: string, ids: OpenIds, now: Time)
    ensures var c := Opened(player, initial, correlation, ids, now);
            && c.account == Some(WalletRow(ids.wallet, player, initial, 1, now, now)) && c.schedule.None?
            && (initial.minor <= 0 ==> c.tx.None? && c.entry.None? && c.events == [])
            && (initial.minor > 0 ==> RecordsOpening(c, player, initial, correlation, ids, now))
  {}

  datatype OpenError = InvalidInput | InvalidWallet | InvalidOpening

  /** The input is acceptable; an opening movement also needs a correlation id that can label its
      events. */
  predicate OpenAccepted(player: string, initial: Money, correlation: string, now: Time) {
    && ValidUuid(player) && correlation != "" && initial.Valid() && initial.minor >= 0 && now > 0
    && (initial.minor > 0 ==> ValidID(correlation))
  }

  /** `addOpening`: fills in the opening transaction, its entry and its two events. */
  method AddOpening(creation: Changes, player: string, initial: Money, correlation: string, ids: OpenIds, now: Time)
    returns (r: Result<Changes, OpenError>)
    requires OpenIdsValid(ids) && ValidUuid(player) && initial.IsPositive() && now > 0
    ensures r.Ok? <==> ValidID(correlation)
    ensures r.Ok? ==> r.value == Opened(player, initial, correlation, ids, now).(account := creation.account, schedule := creation.schedule)
    ensures r.Ok? ==>
              && r.value.account == creation.account && r.value.schedule == creation.schedule
              && RecordsOpening(r.value, player, initial, correlation, ids, now)
  {
    UuidIsValidID(player);
    var opening := OpeningTx(player, initial, ids, now);
    if !TxValid(opening) {
      return Err(InvalidOpening);
    }
    var entry := BuildEntry(Entry(ids.entry, ids.wallet, ids.opening, Credit, initial, Money(0, initial.currency), initial, 1, now));
    if entry.Err? {
      return Err(InvalidOpening);
    }
    var processed := BuildEvent(Event(ids.status, ids.opening, correlation, "", now,
                                      ProcessedData(ids.opening, "", Kind.Opening, initial, initial)));
    if processed.Err? {
      return Err(InvalidOpening);
    }
    var changed := BuildEvent(Event(ids.balance, ids.wallet, correlation, ids.status, now,
                                    BalanceChanged(ids.wallet, ids.opening, Credit, initial, Money(0, initial.currency), initial, 1)));
    if changed.Err? {
      return Err(InvalidOpening);
    }
    r := Ok(creation.(tx := Some(opening), entry := Some(entry.value), events := [processed.value, changed.value]));
  }

  /** `Open`. */
  method Open(player: string, initial: Money, correlation: string, ids: OpenIds, now: Time)
    returns (r: Result<Changes, OpenError>)
    requires OpenIdsValid(ids)
    ensures r.Ok? <==> OpenAccepted(player, initial, correlation, now)
    ensures r.Ok? <==>
            && ValidUuid(player) && correlation != "" && initial.currency.code in ["BRL", "EUR", "USD"] && initial.minor >= 0 && now > 0
            && (initial.minor == 0 || ValidID(correlation))
    ensures r.Ok? ==> r.value == Opened(player, initial, correlation, ids, now)
    ensures r.Ok? ==>
              && r.value.account == Some(WalletRow(ids.wallet, player, initial, 1, now, now)) && r.value.schedule.None?
              && (initial.minor == 0 ==> r.value.tx.None? && r.value.entry.None? && r.value.events == [])
              && (initial.minor > 0 ==> RecordsOpening(r.value, player, initial, correlation, ids, now))
  {
    if !ValidUuid(player) || correlation == "" || !initial.Valid() || initial.IsNegative() {
      return Err(InvalidInput);
    }
    UuidIsValidID(player);
    var account := WalletRow(ids.wallet, player, initial, 1, now, now);
    if !WalletValid(account) {
      return Err(InvalidWallet);
    }
    var creation := NO_CHANGES.(account := Some(account));
    if initial.IsPositive() {
      r := AddOpening(creation, player, initial, correlation, ids, now);
      return;
    }
    r := Ok(creation);
  }

  /** What opening writes is a sound opening of a wallet with a new id. */
  lemma OpenedOpens(db: Store, player: string, initial: Money, correlation: string, ids: OpenIds, now: Time)
    requires OpenIdsValid(ids) && OpenAccepted(player, initial, correlation, now)
    requires ids.wallet !in db.wallets && ids.opening !in db.txs && PlayerFree(db.wallets, player, initial.currency)
    ensures Opens(db, Opened(player, initial, correlation, ids, now))
  {
    UuidIsValidID(player);
    hide PlayerFree;
    if initial.minor > 0 {
      var t := OpeningTx(player, initial, ids, now);
      assert TxValid(t);
      assert BalanceEquation(Credit, initial, initial.(minor := 0), initial);
    }
  }
}
