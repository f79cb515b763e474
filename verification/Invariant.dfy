/** What holds of the committed tables, and that every legitimate commit keeps it. */
module Invariant {
  import opened Text
  import opened Wrappers
  import opened Monetary
  import opened Model
  import opened Settlement
  import opened Records
  import opened Store
  import opened Sums
  import opened Accounting

  // ----- Ledger -----

  /** The entries of one wallet, in commit order. */
  function EntriesOf(ledger: seq<Entry>, w: string): seq<Entry> {
    if ledger == [] then []
    else
      var n := |ledger| - 1;
      EntriesOf(ledger[..n], w) + if ledger[n].wallet == w then [ledger[n]] else []
  }

  /** Consecutive versions from 1 or 2, each balance continuing the previous one from zero, times
      that never decrease, and an end that agrees with the wallet row. */
  predicate Chain(es: seq<Entry>, row: WalletRow) {
    if es == [] then row.balance.minor == 0 && row.version == 1
    else
      && (forall i :: 0 <= i < |es| ==> EntryValid(es[i]) && es[i].wallet == row.id && es[i].amount.currency == row.balance.currency)
      && (es[0].version == 1 || es[0].version == 2) && es[0].before.minor == 0
      && (forall i :: 0 < i < |es| ==> Continues(es[i - 1], es[i]))
      && var last := es[|es| - 1];
      last.after == row.balance && last.version == row.version && last.createdAt == row.updatedAt
  }

  predicate Continues(e: Entry, f: Entry) {
    f.version as int == e.version as int + 1 && f.before == e.after && e.createdAt <= f.createdAt
  }

  lemma ChainGrows(es: seq<Entry>, row: WalletRow, e: Entry, row': WalletRow)
    requires Chain(es, row) && WalletValid(row) && EntryValid(e)
    requires e.wallet == row.id == row'.id && e.before == row.balance && e.version as int == row.version as int + 1
    requires row.updatedAt <= e.createdAt
    requires row'.balance == e.after && row'.version == e.version && row'.updatedAt == e.createdAt
    ensures Chain(es + [e], row')
  {}

  lemma EntriesAfter(ledger: seq<Entry>, e: Entry, w: string)
    ensures EntriesOf(ledger + [e], w) == EntriesOf(ledger, w) + if e.wallet == w then [e] else []
    ensures e.wallet != w ==> EntriesOf(ledger + [e], w) == EntriesOf(ledger, w)
  {
    assert (ledger + [e])[..|ledger|] == ledger;
  }

  /** An entry records the movement of its processed transaction. */
  predicate Explained(txs: map<string, Tx>, e: Entry) {
    && e.tx in txs
    && var t := txs[e.tx];
    && t.status.Processed? && !t.ident.kind.Loss? && t.ident.wallet == e.wallet && t.ident.amount == e.amount
    && t.result == Some(e.after)
    && (e.direction.Credit? <==> EffectOf(txs, t) > 0)
    && (e.version == 1 <==> t.ident.kind.Opening?)
  }

  // ----- Events -----

  datatype Topic = StatusOf(tx: string) | WaitOf(tx: string) | Balances

  predicate About(e: Event, topic: Topic) {
    match topic
    case StatusOf(tx) => (e.data.ProcessedData? || e.data.RejectedData?) && e.aggregate == tx
    case WaitOf(tx) => e.data.PendingData? && e.aggregate == tx
    case Balances => e.data.BalanceChanged?
  }

  function Select(events: seq<Event>, topic: Topic): seq<Event> {
    if events == [] then []
    else
      var n := |events| - 1;
      Select(events[..n], topic) + if About(events[n], topic) then [events[n]] else []
  }

  lemma SelectAfterOne(events: seq<Event>, e: Event, topic: Topic)
    ensures Select(events + [e], topic) == Select(events, topic) + if About(e, topic) then [e] else []
  {
    assert (events + [e])[..|events|] == events;
  }

  lemma SelectAfterTwo(events: seq<Event>, e: Event, f: Event, topic: Topic)
    ensures Select(events + [e, f], topic)
            == Select(events, topic) + (if About(e, topic) then [e] else []) + if About(f, topic) then [f] else []
  {
    SelectAfterOne(events, e, topic);
    SelectAfterOne(events + [e], f, topic);
    assert events + [e, f] == events + [e] + [f];
  }

  /** Exactly one outcome event for a settled transaction, none before. */
  predicate StatusTold(events: seq<Event>, t: Tx) {
    var told := Select(events, StatusOf(t.ident.id));
    if t.status.Terminal() then |told| == 1 && StatusMatches(told[0], t) else told == []
  }

  predicate WaitTold(events: seq<Event>, sched: map<string, Schedule>, id: string) {
    |Select(events, WaitOf(id))| == if id in sched then 1 else 0
  }

  /** The balance event of an entry, caused by the processed event of the entry's transaction. */
  predicate MovementTold(events: seq<Event>, ev: Event, e: Entry) {
    && BalanceMatches(ev, e)
    && var told := Select(events, StatusOf(e.tx));
    |told| == 1 && told[0].data.ProcessedData? && told[0].id == ev.causation
  }

  // ----- The invariant -----

  ghost predicate WalletsOk(db: Store) {
    forall w :: w in db.wallets ==> db.wallets[w].id == w && WalletValid(db.wallets[w])
  }

  /** A stored transaction: valid, waiting or settled, and owned by an existing wallet. */
  predicate RowOk(wallets: map<string, WalletRow>, t: Tx) {
    && TxValid(t) && WalletMatches(wallets, t.ident)
    && !t.status.Pending? && !t.status.Failed?
    && (t.status.PendingReference? ==> t.refId == "")
  }

  ghost predicate RowsOk(db: Store) {
    forall k :: k in db.txs ==> RowOk(db.wallets, db.txs[k])
  }

  ghost predicate TxsOk(db: Store) {
    ReferencesOk(db.txs) && OneReversal(db.txs) && RowsOk(db)
  }

  ghost predicate IdentitiesUnique(txs: map<string, Tx>) {
    forall a, b :: a in txs && b in txs && txs[b].ident.origin.External? && Clashes(txs[a].ident, txs[b].ident) ==> a == b
  }

  predicate ScheduleFits(t: Tx, s: Schedule) {
    if t.status.PendingReference? then
      && s.nextAt.Some? && s.nextAt.value <= s.expiresAt && (s.token.Some? <==> s.lockedUntil.Some?)
    else s.nextAt.None? && s.token.None? && s.lockedUntil.None?
  }

  ghost predicate SchedulesOk(db: Store) {
    && (forall k :: k in db.sched ==> k in db.txs && ScheduleFits(db.txs[k], db.sched[k]))
    && (forall k :: k in db.txs && db.txs[k].status.PendingReference? ==> k in db.sched)
  }

  ghost predicate ChainsOk(db: Store) {
    forall w :: w in db.wallets ==> Chain(EntriesOf(db.ledger, w), db.wallets[w])
  }

  ghost predicate EntriesExplained(db: Store) {
    forall i :: 0 <= i < |db.ledger| ==> Explained(db.txs, db.ledger[i])
  }

  ghost predicate EntriesDistinct(ledger: seq<Entry>) {
    forall i, j :: 0 <= i < j < |ledger| ==> ledger[i].tx != ledger[j].tx
  }

  /** Every processed transaction that moves money has its entry. */
  ghost predicate Posted(ledger: seq<Entry>, t: Tx) {
    t.status.Processed? && !t.ident.kind.Loss? ==> exists i :: 0 <= i < |ledger| && ledger[i].tx == t.ident.id
  }

  ghost predicate LedgerOk(db: Store) {
    && EntriesExplained(db) && EntriesDistinct(db.ledger)
    && forall k :: k in db.txs ==> Posted(db.ledger, db.txs[k])
  }

  ghost predicate Silent(db: Store, id: string) {
    id !in db.txs ==> Select(db.events, StatusOf(id)) == [] && Select(db.events, WaitOf(id)) == []
  }

  ghost predicate EventsOk(db: Store) {
    && (forall k :: k in db.txs ==> StatusTold(db.events, db.txs[k]) && WaitTold(db.events, db.sched, k))
    && (forall id :: Silent(db, id))
    && MovementsTold(db)
  }

  ghost predicate BalancesOk(db: Store) {
    && (forall w :: w in db.wallets ==> NetInForce(db.txs, w) == db.wallets[w].balance.minor as int)
    && (forall w :: w !in db.wallets ==> EntriesOf(db.ledger, w) == [])
  }

  ghost predicate Inv(db: Store) {
    && WalletsOk(db) && TxsOk(db) && IdentitiesUnique(db.txs) && SchedulesOk(db)
    && ChainsOk(db) && LedgerOk(db) && EventsOk(db) && BalancesOk(db)
  }

  lemma EmptyInv()
    ensures Inv(EMPTY_STORE)
  {}

  // ----- What the parts need to know of a commit -----

  /** The wallet write, if any, keeps the wallet's identity. */
  ghost predicate WalletWrite(wallets: map<string, WalletRow>, c: Changes) {
    c.account.Some? ==>
      var a := c.account.value;
      && a.id in wallets && WalletValid(a)
      && a.player == wallets[a.id].player && a.balance.currency == wallets[a.id].balance.currency
  }

  /** The entry, if any, continues its wallet's chain. */
  ghost predicate EntryWrite(wallets: map<string, WalletRow>, c: Changes) {
    if c.entry.None? then c.account.None?
    else
      && c.account.Some?
      && var a', e := c.account.value, c.entry.value;
      && a'.id in wallets && EntryValid(e)
      && var a := wallets[a'.id];
      && WalletValid(a) && e.wallet == a.id == a'.id && e.before == a.balance && a.updatedAt <= e.createdAt
      && e.version as int == a.version as int + 1
      && a'.balance == e.after && a'.version == e.version && a'.updatedAt == e.createdAt
  }

  lemma LegitIsWritable(db: Store, c: Changes)
    requires TxsOk(db) && Legit(db, c)
    ensures Writable(db.txs, c.tx.value) && RowOk(db.wallets, c.tx.value) && !c.tx.value.ident.kind.Opening?
  {
    RowIsWritable(db, c.tx.value);
  }

  lemma RowIsWritable(db: Store, t: Tx)
    requires ReferencesOk(db.txs) && RowWrite(db, t)
    ensures Writable(db.txs, t)
  {}

  lemma LegitWrites(db: Store, c: Changes)
    requires WalletsOk(db) && Legit(db, c)
    ensures WalletWrite(db.wallets, c) && EntryWrite(db.wallets, c)
    ensures c.account.Some? ==> c.account.value.id == c.tx.value.ident.wallet
  {}

  // ----- One wager commit keeps each part -----

  lemma WalletsKept(db: Store, c: Changes)
    requires WalletsOk(db) && WalletWrite(db.wallets, c)
    ensures WalletsOk(Commit(db, c))
  {}

  lemma RowsKept(db: Store, c: Changes)
    requires RowsOk(db) && WalletWrite(db.wallets, c) && c.tx.Some? && RowOk(db.wallets, c.tx.value)
    ensures RowsOk(Commit(db, c))
  {
    var db' := Commit(db, c);
    forall k | k in db'.txs ensures RowOk(db'.wallets, db'.txs[k]) {
      assert RowOk(db.wallets, db'.txs[k]);
    }
  }

  lemma ReferenceStillHolds(txs: map<string, Tx>, t: Tx, x: Tx)
    requires Writable(txs, t) && ReferenceHolds(txs, x)
    ensures ReferenceHolds(txs[t.ident.id := t], x)
  {}

  lemma ReferencesKept(txs: map<string, Tx>, t: Tx)
    requires Writable(txs, t)
    ensures ReferencesOk(txs[t.ident.id := t])
  {
    var txs' := txs[t.ident.id := t];
    forall k | k in txs' ensures ReferenceHolds(txs', txs'[k]) {
      ReferenceStillHolds(txs, t, txs'[k]);
    }
  }

  lemma OneReversalKept(txs: map<string, Tx>, t: Tx)
    requires Writable(txs, t) && OneReversal(txs)
    ensures OneReversal(txs[t.ident.id := t])
  {
    var txs' := txs[t.ident.id := t];
    forall a, b, id | a in txs' && b in txs' && ReversalOf(txs'[a], id) && ReversalOf(txs'[b], id) ensures a == b {
      if a != t.ident.id && b != t.ident.id {
        assert ReversalOf(txs[a], id) && ReversalOf(txs[b], id);
      }
    }
  }

  lemma TxsKept(db: Store, c: Changes)
    requires WalletsOk(db) && TxsOk(db) && Legit(db, c)
    ensures TxsOk(Commit(db, c))
  {
    LegitIsWritable(db, c);
    LegitWrites(db, c);
    ReferencesKept(db.txs, c.tx.value);
    OneReversalKept(db.txs, c.tx.value);
    RowsKept(db, c);
  }

  /** The identity is new and free, or already stored under the same id. */
  ghost predicate IdentityWrite(txs: map<string, Tx>, t: Tx) {
    if t.ident.id in txs then txs[t.ident.id].ident == t.ident else IdentityFree(txs, t.ident)
  }

  lemma IdentitiesKept(txs: map<string, Tx>, t: Tx)
    requires IdentitiesUnique(txs) && IdentityWrite(txs, t) && t.ident.origin.External?
    ensures IdentitiesUnique(txs[t.ident.id := t])
  {
    var txs' := txs[t.ident.id := t];
    forall a, b | a in txs' && b in txs' && txs'[b].ident.origin.External? && Clashes(txs'[a].ident, txs'[b].ident)
      ensures a == b
    {
      if t.ident.id in txs {
        assert Clashes(txs[a].ident, txs[b].ident);
      } else if a == t.ident.id && b != t.ident.id {
        assert Clashes(txs'[b].ident, txs'[a].ident);
      }
    }
  }

  /** The schedule columns follow the status of the written row. */
  ghost predicate ScheduleWrite(db: Store, c: Changes) {
    && c.tx.Some?
    && var t := c.tx.value;
    if c.schedule.Some? then t.status.PendingReference? && ScheduleFits(t, c.schedule.value)
    else !t.status.PendingReference?
  }

  lemma SchedulesKept(db: Store, c: Changes)
    requires SchedulesOk(db) && ScheduleWrite(db, c)
    ensures SchedulesOk(Commit(db, c))
  {
    var id, db' := c.tx.value.ident.id, Commit(db, c);
    forall k | k in db'.sched ensures k in db'.txs && ScheduleFits(db'.txs[k], db'.sched[k]) {
      assert k != id ==> k in db.sched && db'.txs[k] == db.txs[k];
    }
  }

  lemma ChainsKept(db: Store, c: Changes)
    requires ChainsOk(db) && EntryWrite(db.wallets, c)
    ensures ChainsOk(Commit(db, c))
  {
    hide Chain;
    var db' := Commit(db, c);
    if c.entry.Some? {
      forall v | v in db'.wallets ensures Chain(EntriesOf(db'.ledger, v), db'.wallets[v]) {
        EntriesAfter(db.ledger, c.entry.value, v);
        if v == c.account.value.id {
          ChainGrows(EntriesOf(db.ledger, v), db.wallets[v], c.entry.value, c.account.value);
        }
      }
    }
  }

  lemma EffectStays(txs: map<string, Tx>, t: Tx, x: Tx)
    requires Writable(txs, t) && ReferenceHolds(txs, x) && x.refId != ""
    ensures EffectOf(txs[t.ident.id := t], x) == EffectOf(txs, x)
  {}

  lemma ExplainedStays(txs: map<string, Tx>, t: Tx, e: Entry)
    requires Writable(txs, t) && Explained(txs, e) && TxValid(txs[e.tx])
    ensures Explained(txs[t.ident.id := t], e) && e.tx != t.ident.id
  {
    var x := txs[e.tx];
    if x.refId != "" { EffectStays(txs, t, x); }
  }

  lemma OwnEffect(txs: map<string, Tx>, t: Tx)
    requires Writable(txs, t)
    ensures EffectOf(txs[t.ident.id := t], t) == EffectOf(txs, t)
  {}

  /** An entry that fits its transaction, beside the transaction's own row. */
  predicate Fits(txs: map<string, Tx>, t: Tx, e: Entry) {
    && e.tx == t.ident.id && t.status.Processed? && !t.ident.kind.Loss? && !t.ident.kind.Opening? && e.version > 1
    && t.ident.wallet == e.wallet && t.ident.amount == e.amount && t.result == Some(e.after)
    && (e.direction.Credit? <==> EffectOf(txs, t) > 0)
  }

  lemma PostedFits(db: Store, c: Changes)
    requires WalletsOk(db) && Legit(db, c) && c.entry.Some? && !c.tx.value.ident.kind.Opening?
    ensures Fits(db.txs, c.tx.value, c.entry.value)
  {
    hide RowWrite, EffectOf, TxValid;
  }

  lemma NewEntryExplained(db: Store, c: Changes)
    requires WalletsOk(db) && TxsOk(db) && Legit(db, c) && c.entry.Some?
    ensures Explained(Commit(db, c).txs, c.entry.value) && c.entry.value.tx == c.tx.value.ident.id
  {
    LegitIsWritable(db, c);
    hide WalletsOk, TxsOk, RowWrite, Posts, Shows, Waits, RowOk, EffectOf;
    PostedFits(db, c);
    OwnEffect(db.txs, c.tx.value);
  }

  lemma ExplainedKept(db: Store, c: Changes)
    requires RowsOk(db) && EntriesExplained(db) && EntriesDistinct(db.ledger)
    requires c.tx.Some? && Writable(db.txs, c.tx.value)
    requires c.entry.Some? ==> Explained(Commit(db, c).txs, c.entry.value) && c.entry.value.tx == c.tx.value.ident.id
    ensures EntriesExplained(Commit(db, c)) && EntriesDistinct(Commit(db, c).ledger)
  {
    var t, db' := c.tx.value, Commit(db, c);
    forall i | 0 <= i < |db.ledger| ensures Explained(db'.txs, db.ledger[i]) && db.ledger[i].tx != t.ident.id {
      ExplainedStays(db.txs, t, db.ledger[i]);
    }
  }

  lemma StillPosted(ledger: seq<Entry>, more: seq<Entry>, t: Tx)
    requires Posted(ledger, t)
    ensures Posted(ledger + more, t)
  {
    if t.status.Processed? && !t.ident.kind.Loss? {
      var i :| 0 <= i < |ledger| && ledger[i].tx == t.ident.id;
      assert (ledger + more)[i].tx == t.ident.id;
    }
  }

  lemma PostedKept(db: Store, c: Changes)
    requires LedgerOk(db) && c.tx.Some? && Posted(Commit(db, c).ledger, c.tx.value)
    ensures forall k :: k in Commit(db, c).txs ==> Posted(Commit(db, c).ledger, Commit(db, c).txs[k])
  {
    var t, db' := c.tx.value, Commit(db, c);
    var more := if c.entry.Some? then [c.entry.value] else [];
    assert db'.ledger == db.ledger + more;
    forall k | k in db'.txs ensures Posted(db'.ledger, db'.txs[k]) {
      if k != t.ident.id {
        StillPosted(db.ledger, more, db.txs[k]);
      }
    }
  }

  lemma LedgerKept(db: Store, c: Changes)
    requires WalletsOk(db) && TxsOk(db) && LedgerOk(db) && Legit(db, c)
    ensures LedgerOk(Commit(db, c))
  {
    LegitIsWritable(db, c);
    if c.entry.Some? {
      NewEntryExplained(db, c);
      assert Commit(db, c).ledger[|db.ledger|].tx == c.tx.value.ident.id;
    }
    ExplainedKept(db, c);
    PostedKept(db, c);
  }

  /** A commit moves the wallet of its transaction by the transaction's effect, and no other. */
  lemma BalanceShift(db: Store, c: Changes, w: string)
    requires WalletsOk(db) && Legit(db, c) && w in db.wallets
    ensures var t, db' := c.tx.value, Commit(db, c);
            w in db'.wallets && db'.wallets[w].balance.minor as int == db.wallets[w].balance.minor as int
            + if t.ident.wallet == w && t.status.Processed? then Shift(db.txs, t) else 0
  {
    if Posts(db, c, c.tx.value) {
      assert EntryValid(c.entry.value);
    }
  }

  lemma NoStrayEntries(db: Store, c: Changes)
    requires EntryWrite(db.wallets, c) && (forall w :: w !in db.wallets ==> EntriesOf(db.ledger, w) == [])
    ensures forall w :: w !in db.wallets ==> EntriesOf(Commit(db, c).ledger, w) == []
  {
    if c.entry.Some? {
      forall w | w !in db.wallets ensures EntriesOf(Commit(db, c).ledger, w) == [] {
        EntriesAfter(db.ledger, c.entry.value, w);
      }
    }
  }

  lemma BalancesKept(db: Store, c: Changes)
    requires WalletsOk(db) && TxsOk(db) && BalancesOk(db) && Legit(db, c)
    ensures BalancesOk(Commit(db, c))
  {
    LegitIsWritable(db, c);
    LegitWrites(db, c);
    NoStrayEntries(db, c);
    hide NetInForce, Shift, RowWrite, Posts, Shows, Waits, TxsOk, Writable, RowOk, EntryWrite;
    forall w | w in db.wallets ensures NetInForce(Commit(db, c).txs, w) == Commit(db, c).wallets[w].balance.minor as int {
      BalanceKept(db, c, w);
    }
  }

  lemma BalanceKept(db: Store, c: Changes, w: string)
    requires WalletsOk(db) && TxsOk(db) && Legit(db, c) && w in db.wallets
    requires NetInForce(db.txs, w) == db.wallets[w].balance.minor as int
    ensures w in Commit(db, c).wallets && NetInForce(Commit(db, c).txs, w) == Commit(db, c).wallets[w].balance.minor as int
  {
    hide NetInForce, Shift;
    LegitIsWritable(db, c);
    NetAfter(db.txs, c.tx.value, w);
    BalanceShift(db, c, w);
  }

  // ----- Events -----

  /** The events of a commit tell the outcome of its transaction, or that it waits, and the
      movement of its entry. */
  ghost predicate EventWrite(c: Changes) {
    && c.tx.Some?
    && var t := c.tx.value;
    if c.entry.Some? then
      && |c.events| == 2 && t.status.Processed? && StatusMatches(c.events[0], t)
      && BalanceMatches(c.events[1], c.entry.value) && c.events[1].causation == c.events[0].id
      && c.entry.value.tx == t.ident.id && c.schedule.None?
    else if t.status.Terminal() then |c.events| == 1 && StatusMatches(c.events[0], t) && c.schedule.None?
    else
      |c.events| == 1 && c.events[0].data.PendingData? && c.events[0].aggregate == t.ident.id && c.schedule.Some?
  }

  lemma SelectAfter(events: seq<Event>, c: Changes, topic: Topic)
    requires EventWrite(c)
    ensures var t := c.tx.value;
            Select(events + c.events, topic) == Select(events, topic) +
              match topic
              case StatusOf(id) => if id == t.ident.id && t.status.Terminal() then [c.events[0]] else []
              case WaitOf(id) => if id == t.ident.id && !t.status.Terminal() then [c.events[0]] else []
              case Balances => if c.entry.Some? then [c.events[1]] else []
  {
    if c.entry.Some? {
      assert c.events == [c.events[0], c.events[1]];
      SelectAfterTwo(events, c.events[0], c.events[1], topic);
    } else {
      assert c.events == [c.events[0]];
      SelectAfterOne(events, c.events[0], topic);
    }
  }

  /** Nothing has been told yet about the outcome of a transaction that is not settled. */
  ghost predicate Untold(db: Store, c: Changes) {
    && c.tx.Some?
    && var id := c.tx.value.ident.id;
    && Select(db.events, StatusOf(id)) == []
    && (c.schedule.Some? ==> id !in db.txs && Select(db.events, WaitOf(id)) == [])
    && (c.schedule.None? && id !in db.txs ==> id !in db.sched && Select(db.events, WaitOf(id)) == [])
  }

  lemma TellingKept(db: Store, c: Changes)
    requires EventsOk(db) && EventWrite(c) && Untold(db, c)
    ensures var db' := Commit(db, c);
            && (forall k :: k in db'.txs ==> StatusTold(db'.events, db'.txs[k]))
            && (forall k :: k in db'.txs ==> WaitTold(db'.events, db'.sched, k))
            && (forall id :: Silent(db', id))
    requires forall k :: k in db.txs ==> db.txs[k].ident.id == k
  {
    var db' := Commit(db, c);
    forall k | k in db'.txs ensures StatusTold(db'.events, db'.txs[k]) {
      SelectAfter(db.events, c, StatusOf(k));
      assert k != c.tx.value.ident.id ==> StatusTold(db.events, db.txs[k]);
    }
    forall k | k in db'.txs ensures WaitTold(db'.events, db'.sched, k) {
      SelectAfter(db.events, c, WaitOf(k));
      assert k in db.txs ==> WaitTold(db.events, db.sched, k);
    }
    forall id ensures Silent(db', id) {
      SelectAfter(db.events, c, StatusOf(id));
      SelectAfter(db.events, c, WaitOf(id));
      assert Silent(db, id);
    }
  }

  lemma MovementStays(events: seq<Event>, c: Changes, ev: Event, e: Entry)
    requires EventWrite(c) && MovementTold(events, ev, e) && e.tx != c.tx.value.ident.id
    ensures MovementTold(events + c.events, ev, e)
  {
    SelectAfter(events, c, StatusOf(e.tx));
  }

  lemma NewMovementTold(events: seq<Event>, c: Changes)
    requires EventWrite(c) && c.entry.Some? && Select(events, StatusOf(c.tx.value.ident.id)) == []
    ensures MovementTold(events + c.events, c.events[1], c.entry.value)
  {
    SelectAfter(events, c, StatusOf(c.tx.value.ident.id));
  }

  ghost predicate MovementsTold(db: Store) {
    && |Select(db.events, Balances)| == |db.ledger|
    && (forall i :: 0 <= i < |db.ledger| ==> MovementTold(db.events, Select(db.events, Balances)[i], db.ledger[i]))
  }

  lemma MovementsKept(db: Store, c: Changes)
    requires MovementsTold(db) && EventWrite(c) && Select(db.events, StatusOf(c.tx.value.ident.id)) == []
    requires forall i :: 0 <= i < |db.ledger| ==> db.ledger[i].tx != c.tx.value.ident.id
    ensures MovementsTold(Commit(db, c))
  {
    var told := Select(db.events, Balances);
    SelectAfter(db.events, c, Balances);
    forall i | 0 <= i < |db.ledger| ensures MovementTold(db.events + c.events, told[i], db.ledger[i]) {
      MovementStays(db.events, c, told[i], db.ledger[i]);
    }
    if c.entry.Some? {
      NewMovementTold(db.events, c);
    }
  }

  lemma LegitTells(db: Store, c: Changes)
    requires WalletsOk(db) && TxsOk(db) && SchedulesOk(db) && EventsOk(db) && Legit(db, c)
    ensures EventWrite(c) && Untold(db, c) && ScheduleWrite(db, c) && IdentityWrite(db.txs, c.tx.value)
  {
    var id := c.tx.value.ident.id;
    if id in db.txs {
      assert StatusTold(db.events, db.txs[id]);
    } else {
      assert Silent(db, id);
    }
  }

  lemma EventsKept(db: Store, c: Changes)
    requires WalletsOk(db) && TxsOk(db) && SchedulesOk(db) && LedgerOk(db) && EventsOk(db) && Legit(db, c)
    ensures EventsOk(Commit(db, c))
  {
    LegitIsWritable(db, c);
    LegitTells(db, c);
    TellingKept(db, c);
    forall i | 0 <= i < |db.ledger| ensures db.ledger[i].tx != c.tx.value.ident.id {
      ExplainedStays(db.txs, c.tx.value, db.ledger[i]);
    }
    MovementsKept(db, c);
  }

  /** Every legitimate commit keeps the whole invariant. */
  lemma LegitKeepsInv(db: Store, c: Changes)
    requires Inv(db) && Legit(db, c)
    ensures Inv(Commit(db, c))
  {
    LegitWrites(db, c);
    LegitTells(db, c);
    WalletsKept(db, c);
    TxsKept(db, c);
    IdentitiesKept(db.txs, c.tx.value);
    SchedulesKept(db, c);
    ChainsKept(db, c);
    LedgerKept(db, c);
    EventsKept(db, c);
    BalancesKept(db, c);
  }

  // ----- Opening a wallet -----

  lemma {:induction false} NoContribution(txs: map<string, Tx>, w: string)
    requires forall k :: k in txs ==> txs[k].ident.wallet != w
    ensures NetInForce(txs, w) == 0
  {
    SumOfZeros(Contributions(txs, w));
  }

  /** An opening adds its amount to its own wallet and nothing to the others. */
  lemma NetAfterOpening(txs: map<string, Tx>, t: Tx, w: string)
    requires Writable(txs, t) && t.ident.id !in txs && t.ident.kind.Opening? && t.status.Processed?
    ensures NetInForce(txs[t.ident.id := t], w) == NetInForce(txs, w) + if t.ident.wallet == w then t.ident.amount.minor as int else 0
  {
    var id, txs' := t.ident.id, txs[t.ident.id := t];
    var v := Contribution(txs', w, id);
    forall x | x in txs && x != id ensures Contribution(txs', w, x) == Contribution(txs, w, x) {
      ContributionKept(txs, t, w, x);
    }
    assert Contributions(txs', w) == Contributions(txs, w)[id := v];
    SumAfterUpdate(Contributions(txs, w), id, v);
  }

  lemma RowOkGrows(wallets: map<string, WalletRow>, a: WalletRow, t: Tx)
    requires a.id !in wallets && RowOk(wallets, t)
    ensures RowOk(wallets[a.id := a], t)
  {}

  lemma OpenedRowOk(db: Store, c: Changes)
    requires Opens(db, c) && c.tx.Some?
    ensures RowOk(Commit(db, c).wallets, c.tx.value)
  {}

  lemma OpenKeepsRows(db: Store, c: Changes)
    requires RowsOk(db) && Opens(db, c)
    ensures RowsOk(Commit(db, c))
  {
    var db' := Commit(db, c);
    if c.tx.Some? { OpenedRowOk(db, c); }
    forall k | k in db.txs ensures RowOk(db'.wallets, db.txs[k]) {
      RowOkGrows(db.wallets, c.account.value, db.txs[k]);
    }
  }

  lemma OpenKeepsWallets(db: Store, c: Changes)
    requires WalletsOk(db) && Opens(db, c)
    ensures WalletsOk(Commit(db, c))
  {}

  lemma InternalIdentity(txs: map<string, Tx>, t: Tx)
    requires IdentitiesUnique(txs) && t.ident.id !in txs && t.ident.origin.Internal?
    ensures IdentitiesUnique(txs[t.ident.id := t])
  {}

  lemma OpenIsWritable(db: Store, c: Changes)
    requires TxsOk(db) && Opens(db, c) && c.tx.Some?
    ensures Writable(db.txs, c.tx.value) && EventWrite(c)
    ensures c.entry.Some? && Explained(Commit(db, c).txs, c.entry.value) && c.entry.value.tx == c.tx.value.ident.id
  {}

  lemma OpenKeepsTxs(db: Store, c: Changes)
    requires TxsOk(db) && IdentitiesUnique(db.txs) && SchedulesOk(db) && Opens(db, c)
    ensures TxsOk(Commit(db, c)) && IdentitiesUnique(Commit(db, c).txs) && SchedulesOk(Commit(db, c))
  {
    OpenKeepsRows(db, c);
    if c.tx.Some? {
      OpenIsWritable(db, c);
      ReferencesKept(db.txs, c.tx.value);
      OneReversalKept(db.txs, c.tx.value);
      InternalIdentity(db.txs, c.tx.value);
      SchedulesKept(db, c);
    }
  }

  lemma OpeningChain(db: Store, c: Changes)
    requires Opens(db, c)
    ensures var a := c.account.value;
            if c.entry.Some? then c.entry.value.wallet == a.id && Chain([c.entry.value], a) else Chain([], a)
  {}

  lemma OpenKeepsChains(db: Store, c: Changes)
    requires ChainsOk(db) && BalancesOk(db) && Opens(db, c)
    ensures ChainsOk(Commit(db, c))
  {
    OpeningChain(db, c);
    hide Chain;
    var db' := Commit(db, c);
    forall v | v in db'.wallets ensures Chain(EntriesOf(db'.ledger, v), db'.wallets[v]) {
      if c.entry.Some? {
        EntriesAfter(db.ledger, c.entry.value, v);
      }
    }
  }

  lemma OpenKeepsLedger(db: Store, c: Changes)
    requires TxsOk(db) && LedgerOk(db) && Opens(db, c)
    ensures LedgerOk(Commit(db, c))
  {
    if c.tx.Some? {
      OpenIsWritable(db, c);
      ExplainedKept(db, c);
      assert Commit(db, c).ledger[|db.ledger|].tx == c.tx.value.ident.id;
      PostedKept(db, c);
    }
  }

  lemma OpenKeepsEvents(db: Store, c: Changes)
    requires TxsOk(db) && SchedulesOk(db) && LedgerOk(db) && EventsOk(db) && Opens(db, c)
    ensures EventsOk(Commit(db, c))
  {
    if c.tx.Some? {
      OpenIsWritable(db, c);
      assert Silent(db, c.tx.value.ident.id);
      TellingKept(db, c);
      forall i | 0 <= i < |db.ledger| ensures db.ledger[i].tx != c.tx.value.ident.id {
        ExplainedStays(db.txs, c.tx.value, db.ledger[i]);
      }
      MovementsKept(db, c);
    } else {
      var db' := Commit(db, c);
      assert db'.events == db.events;
      forall id ensures Silent(db', id) {
        assert Silent(db, id);
      }
    }
  }

  lemma OpenKeepsBalances(db: Store, c: Changes)
    requires TxsOk(db) && BalancesOk(db) && Opens(db, c)
    ensures BalancesOk(Commit(db, c))
  {
    var a, db' := c.account.value, Commit(db, c);
    NoContribution(db.txs, a.id) by {
      forall k | k in db.txs ensures db.txs[k].ident.wallet != a.id {
        assert RowOk(db.wallets, db.txs[k]);
      }
    }
    if c.tx.Some? {
      OpenIsWritable(db, c);
      forall w | w in db'.wallets ensures NetInForce(db'.txs, w) == db'.wallets[w].balance.minor as int {
        NetAfterOpening(db.txs, c.tx.value, w);
      }
      forall w | w !in db'.wallets ensures EntriesOf(db'.ledger, w) == [] {
        EntriesAfter(db.ledger, c.entry.value, w);
      }
    }
  }

  /** Opening a wallet keeps the whole invariant. */
  lemma OpenKeepsInv(db: Store, c: Changes)
    requires Inv(db) && Opens(db, c)
    ensures Inv(Commit(db, c))
  {
    OpenKeepsWallets(db, c);
    OpenKeepsTxs(db, c);
    OpenKeepsChains(db, c);
    OpenKeepsLedger(db, c);
    OpenKeepsEvents(db, c);
    OpenKeepsBalances(db, c);
  }
}
