/** The committed tables and what a legitimate commit may do to them. */
module Store {
  import opened Text
  import opened Wrappers
  import opened Monetary
  import opened Model
  import opened Settlement
  import opened Records

  /** Committed rows. Schedules are columns of the wager table, kept for transactions that wait or
      once waited; the ledger and the events are in commit order. */
  datatype Store = Store(
    wallets: map<string, WalletRow>,
    txs: map<string, Tx>,
    sched: map<string, Schedule>,
    ledger: seq<Entry>,
    events: seq<Event>)

  const EMPTY_STORE := Store(map[], map[], map[], [], [])

  /** `CompletePending` clears the schedule columns except the attempts and the deadline. */
  function Cleared(s: Schedule): Schedule {
    s.(nextAt := None, token := None, lockedUntil := None)
  }

  function ScheduleAfter(sched: map<string, Schedule>, c: Changes): map<string, Schedule> {
    if c.tx.None? then sched
    else
      var id := c.tx.value.ident.id;
      if c.schedule.Some? then sched[id := c.schedule.value]
      else if id in sched then sched[id := Cleared(sched[id])]
      else sched
  }

  /** All writes of a transaction become visible together. */
  function Commit(db: Store, c: Changes): Store {
    Store(if c.account.Some? then db.wallets[c.account.value.id := c.account.value] else db.wallets,
          if c.tx.Some? then db.txs[c.tx.value.ident.id := c.tx.value] else db.txs,
          ScheduleAfter(db.sched, c),
          if c.entry.Some? then db.ledger + [c.entry.value] else db.ledger,
          db.events + c.events)
  }

  // ----- References and reversals -----

  /** `t` is a processed direct reversal of the transaction `id`. */
  predicate ReversalOf(t: Tx, id: string) {
    t.status.Processed? && t.ident.kind.Reversal() && t.refId == id
  }

  /** `HasProcessedReversal`. */
  predicate HasReversal(txs: map<string, Tx>, id: string) {
    exists r :: r in txs && ReversalOf(txs[r], id)
  }

  function RefKind(txs: map<string, Tx>, t: Tx): Option<Kind> {
    if t.refId in txs then Some(txs[t.refId].ident.kind) else None
  }

  function EffectOf(txs: map<string, Tx>, t: Tx): int {
    Effect(t.ident.kind, RefKind(txs, t))
  }

  /** The rules a resolved reference obeys. */
  predicate ReferenceHolds(txs: map<string, Tx>, t: Tx) {
    t.refId != "" ==>
      && t.refId in txs
      && (t.status.Processed? ==>
            var r := txs[t.refId];
            && r.status.Processed? && SameContext(t.ident, r.ident)
            && r.ident.external == t.ident.reference
            && KindAllowed(t.ident.kind, r.ident.kind)
            && (t.ident.kind.Reversal() ==> r.ident.amount == t.ident.amount))
  }

  // ----- Identities -----

  predicate SameKey(a: Identity, provider: string, key: string) {
    a.origin.External? && a.provider == provider && a.key == key
  }

  predicate SameExternal(a: Identity, provider: string, external: string) {
    a.origin.External? && a.provider == provider && a.external == external
  }

  predicate Clashes(a: Identity, b: Identity) {
    SameKey(a, b.provider, b.key) || SameExternal(a, b.provider, b.external)
  }

  /** The unique indexes accept a new row with this identity. */
  predicate IdentityFree(txs: map<string, Tx>, i: Identity) {
    forall k :: k in txs ==> !Clashes(txs[k].ident, i)
  }

  // ----- Legitimate commits -----

  predicate WalletMatches(wallets: map<string, WalletRow>, i: Identity) {
    i.wallet in wallets && wallets[i.wallet].player == i.player
    && wallets[i.wallet].balance.currency == i.amount.currency
  }

  /** The transaction row is new with a free identity, or completes a waiting one. */
  predicate RowWrite(db: Store, t: Tx) {
    && TxValid(t) && t.ident.origin.External? && WalletMatches(db.wallets, t.ident)
    && (if t.ident.id in db.txs
        then db.txs[t.ident.id].status.PendingReference? && db.txs[t.ident.id].ident == t.ident && t.status.Terminal()
             && t.ident.id in db.sched
        else IdentityFree(db.txs, t.ident))
    && ReferenceHolds(db.txs, t)
    && (t.status.Processed? && t.ident.kind.Reversal() ==> !HasReversal(db.txs, t.refId))
    && db.wallets[t.ident.wallet].updatedAt <= t.updatedAt
  }

  predicate StatusMatches(e: Event, t: Tx) {
    && e.aggregate == t.ident.id
    && t.result.Some?
    && match t.status
       case Processed => e.data == ProcessedData(t.ident.id, t.ident.provider, t.ident.kind, t.ident.amount, t.result.value)
       case Rejected => t.failure.Some? && e.data == RejectedData(t.ident.id, t.ident.provider, t.ident.kind,
                                                                  t.failure.value, t.ident.amount, t.result.value)
       case _ => false
  }

  predicate BalanceMatches(ev: Event, e: Entry) {
    && ev.aggregate == e.wallet
    && ev.data == BalanceChanged(e.wallet, e.tx, e.direction, e.amount, e.before, e.after, e.version)
  }

  /** The wallet moves by the transaction's effect, with one entry and two events. */
  predicate Posts(db: Store, c: Changes, t: Tx) {
    && t.ident.wallet in db.wallets && c.account.Some? && c.entry.Some? && c.schedule.None? && |c.events| == 2
    && var a, a', e := db.wallets[t.ident.wallet], c.account.value, c.entry.value;
    && t.status.Processed? && !t.ident.kind.Loss?
    && WalletValid(a') && a.version < MAX_INT64
    && a' == a.(balance := a'.balance, version := a.version + 1, updatedAt := t.updatedAt)
    && EntryValid(e)
    && e == Entry(e.id, a.id, t.ident.id, e.direction, t.ident.amount, a.balance, a'.balance, a'.version, t.updatedAt)
    && (e.direction.Credit? <==> EffectOf(db.txs, t) > 0)
    && t.result == Some(a'.balance)
    && StatusMatches(c.events[0], t) && BalanceMatches(c.events[1], e) && c.events[1].causation == c.events[0].id
  }

  /** Nothing moves: a loss or a rejection shows the wallet's balance. */
  predicate Shows(db: Store, c: Changes, t: Tx) {
    && t.ident.wallet in db.wallets && c.account.None? && c.entry.None? && c.schedule.None? && |c.events| == 1
    && (t.status.Rejected? || (t.status.Processed? && t.ident.kind.Loss?))
    && t.result == Some(db.wallets[t.ident.wallet].balance)
    && StatusMatches(c.events[0], t)
  }

  /** The transaction starts to wait. */
  predicate Waits(db: Store, c: Changes, t: Tx) {
    && c.account.None? && c.entry.None? && c.schedule.Some? && |c.events| == 1
    && t.ident.id !in db.txs && t.status.PendingReference? && t.refId == ""
    && c.events[0].aggregate == t.ident.id
    && c.events[0].data == PendingData(t.ident.id, t.ident.provider, t.ident.kind, t.ident.reference)
    && c.schedule.value == Schedule(0, Some(t.updatedAt + SECOND), t.updatedAt + TTL, None, None)
  }

  ghost predicate Legit(db: Store, c: Changes) {
    && c.tx.Some? && RowWrite(db, c.tx.value)
    && (Posts(db, c, c.tx.value) || Shows(db, c, c.tx.value) || Waits(db, c, c.tx.value))
  }

  /** The player holds no wallet in the currency. */
  predicate PlayerFree(wallets: map<string, WalletRow>, player: string, currency: Currency) {
    forall k :: k in wallets ==> !(wallets[k].player == player && wallets[k].balance.currency == currency)
  }

  /** Opening a wallet: alone when empty, with its opening movement when it holds money. */
  ghost predicate Opens(db: Store, c: Changes) {
    && c.account.Some? && c.schedule.None?
    && var a := c.account.value;
    && a.id !in db.wallets && WalletValid(a) && a.version == 1 && a.updatedAt == a.createdAt
    && PlayerFree(db.wallets, a.player, a.balance.currency)
    && (a.balance.minor == 0 ==> c.tx.None? && c.entry.None? && c.events == [])
    && (a.balance.minor > 0 ==>
          && c.tx.Some? && c.entry.Some? && |c.events| == 2
          && var t, e := c.tx.value, c.entry.value;
          && t.ident.id !in db.txs && TxValid(t) && t.ident.origin.Internal?
          && t.ident.wallet == a.id && t.ident.player == a.player && t.ident.amount == a.balance
          && EntryValid(e)
          && e == Entry(e.id, a.id, t.ident.id, Credit, a.balance, a.balance.(minor := 0), a.balance, 1, a.createdAt)
          && StatusMatches(c.events[0], t) && BalanceMatches(c.events[1], e) && c.events[1].causation == c.events[0].id)
  }
}
