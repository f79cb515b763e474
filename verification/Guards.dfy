/** The database's own statement of the rules: CHECK constraints, unique indexes, foreign keys and
    deferred triggers. No commit of the application ever violates one of them. */
module Guards {
  import opened Text
  import opened Wrappers
  import opened Monetary
  import opened Model
  import opened Settlement
  import opened Records
  import opened Store
  import opened Accounting
  import opened Invariant

  // ----- CHECK constraints; an absent text column is the empty string -----

  predicate WalletChecks(a: WalletRow) {
    a.balance.currency.Valid() && a.balance.minor >= 0 && a.version >= 1 && a.createdAt <= a.updatedAt
  }

  predicate WagerChecks(t: Tx, schedule: Option<Schedule>) {
    var i := t.ident;
    && i.amount.currency.Valid() && i.amount.minor >= 0 && i.createdAt <= t.updatedAt
    && (t.result.Some? ==> t.result.value.minor >= 0)
    && (i.kind.Loss? <==> i.amount.minor == 0)
    && (i.kind.Reversal() ==> i.reference != "")
    && (i.kind.Opening? || i.kind.Bet? || i.kind.Loss? ==> i.reference == "")
    && (i.origin.Internal? ==>
          && i.kind.Opening? && t.status.Processed? && i.reference == ""
          && i.provider == i.external == i.key == i.hash == i.round == i.game == "")
    && (i.origin.External? ==>
          && !i.kind.Opening?
          && i.provider != "" && i.external != "" && i.key != "" && i.hash != "" && i.round != "" && i.game != "")
    && (t.status.Pending? || t.status.PendingReference? ==> t.failure.None? && t.result.None?)
    && (t.status.Processed? ==> t.failure.None? && t.result.Some?)
    && (t.status.Rejected? ==> t.failure.Some? && t.result.Some?)
    && (t.status.Failed? ==> t.failure.Some? && t.result.None?)
    && (t.status.PendingReference? ==>
          i.reference != "" && schedule.Some? && schedule.value.nextAt.Some?
          && schedule.value.nextAt.value <= schedule.value.expiresAt)
    && (i.reference != "" ==> i.reference != i.external)
    && (t.status.Processed? && i.reference != "" ==> t.refId != "")
  }

  predicate EntryChecks(e: Entry) {
    && e.amount.minor > 0 && e.amount.currency.Valid() && e.before.minor >= 0 && e.after.minor >= 0 && e.version >= 1
    && BalanceEquation(e.direction, e.amount, e.before, e.after)
  }

  // ----- Triggers -----

  /** `validate_wallet_financial_change`, on insert (`prior` absent) or update. */
  ghost predicate WalletTrigger(prior: Option<WalletRow>, a: WalletRow, ledger: seq<Entry>) {
    && (prior.Some? ==>
          && (a.id, a.player, a.balance.currency, a.createdAt)
             == (prior.value.id, prior.value.player, prior.value.balance.currency, prior.value.createdAt)
          && (a.balance.minor == prior.value.balance.minor ==> a.version == prior.value.version)
          && (a.balance.minor != prior.value.balance.minor ==> a.version as int == prior.value.version as int + 1))
    && var before := if prior.Some? then prior.value.balance.minor else 0;
    (a.balance.minor != before ==>
       exists i :: 0 <= i < |ledger| && ledger[i].wallet == a.id && ledger[i].version == a.version
                   && ledger[i].before.minor == before && ledger[i].after == a.balance)
  }

  predicate DirectionAllowed(t: Tx, reference: Option<Kind>, e: Entry) {
    match t.ident.kind
    case Opening => e.direction.Credit? && e.before.minor == 0
    case Bet => e.direction.Debit?
    case Win => e.direction.Credit?
    case Refund => e.direction.Credit?
    case Rollback =>
      || (reference == Some(Bet) && e.direction.Credit?)
      || ((reference == Some(Win) || reference == Some(Refund)) && e.direction.Debit?)
    case Loss => false
  }

  predicate ReferenceAllowed(t: Tx, r: Tx) {
    && r.status.Processed? && r.ident.provider == t.ident.provider && r.ident.external == t.ident.reference
    && r.ident.wallet == t.ident.wallet && r.ident.player == t.ident.player
    && r.ident.amount.currency == t.ident.amount.currency && r.ident.round == t.ident.round
    && (t.ident.kind.Win? || t.ident.amount == r.ident.amount)
    && (|| (t.ident.kind.Refund? && r.ident.kind.Bet?)
        || (t.ident.kind.Rollback? && (r.ident.kind.Bet? || r.ident.kind.Win? || r.ident.kind.Refund?))
        || (t.ident.kind.Win? && r.ident.kind.Bet?))
  }

  /** `validate_ledger_financial_state`, on the tables at commit. */
  predicate LedgerTrigger(db: Store, e: Entry) {
    && e.wallet in db.wallets && e.tx in db.txs
    && var a, t := db.wallets[e.wallet], db.txs[e.tx];
    && a.balance.currency == e.amount.currency && a.version == e.version && a.balance == e.after
    && t.ident.wallet == e.wallet && t.ident.amount == e.amount && t.result == Some(e.after) && t.status.Processed?
    && DirectionAllowed(t, RefKind(db.txs, t), e)
    && (t.refId == "" || (t.refId in db.txs && ReferenceAllowed(t, db.txs[t.refId])))
  }

  /** `validate_wager_financial_result`, on the tables at commit. */
  ghost predicate WagerTrigger(db: Store, t: Tx) {
    && (t.status.Processed? && !t.ident.kind.Loss? ==>
          exists i :: 0 <= i < |db.ledger| && db.ledger[i].tx == t.ident.id && db.ledger[i].wallet == t.ident.wallet
                      && t.result == Some(db.ledger[i].after))
    && ((t.status.Processed? && t.ident.kind.Loss?) || t.status.Rejected? ==>
          t.ident.wallet in db.wallets && t.result == Some(db.wallets[t.ident.wallet].balance))
  }

  /** `protect_terminal_wager`. */
  predicate TerminalTrigger(old_: Tx, new_: Tx) {
    (old_.status.Terminal() ==> new_ == old_) && new_.ident == old_.ident
  }

  // ----- Indexes and foreign keys, for the rows of one commit -----

  ghost predicate IndexesAccept(db: Store, t: Tx) {
    && (t.ident.origin.External? ==> forall k :: k in db.txs && k != t.ident.id ==> !Clashes(db.txs[k].ident, t.ident))
    && (t.ident.kind.Opening? ==> forall k :: k in db.txs && db.txs[k].ident.kind.Opening? ==> db.txs[k].ident.wallet != t.ident.wallet)
    && (t.status.Processed? && t.ident.kind.Reversal() ==>
          forall k :: k in db.txs && k != t.ident.id ==> !ReversalOf(db.txs[k], t.refId))
    && (t.refId != "" ==> t.refId in db.txs)
  }

  ghost predicate LedgerIndexesAccept(ledger: seq<Entry>, e: Entry) {
    forall i :: 0 <= i < |ledger| && ledger[i].wallet == e.wallet ==> ledger[i].tx != e.tx && ledger[i].version != e.version
  }

  /** The update of a waiting row's schedule columns: settled rows are protected, and the deadline
      is never passed. */
  predicate ScheduleUpdateAccepted(t: Tx, s: Schedule) {
    !t.status.Terminal() && WagerChecks(t, Some(s))
  }

  lemma ScheduleUpdateFits(db: Store, id: string)
    requires SchedulesOk(db) && RowsOk(db) && id in db.txs && id in db.sched && db.txs[id].status.PendingReference?
    ensures ScheduleUpdateAccepted(db.txs[id], db.sched[id])
  {
    assert RowOk(db.wallets, db.txs[id]);
  }

  /** Everything the database checks when the changes commit, except that drawn ids are new. */
  ghost predicate GuardsAccept(db: Store, c: Changes) {
    var db' := Commit(db, c);
    && (c.account.Some? ==>
          var a := c.account.value;
          && WalletChecks(a) && (a.id !in db.wallets ==> PlayerFree(db.wallets, a.player, a.balance.currency))
          && WalletTrigger(if a.id in db.wallets then Some(db.wallets[a.id]) else None, a, db'.ledger))
    && (c.tx.Some? ==>
          var t := c.tx.value;
          && WagerChecks(t, if t.ident.id in db'.sched then Some(db'.sched[t.ident.id]) else None)
          && WalletMatches(db'.wallets, t.ident) && WagerTrigger(db', t) && IndexesAccept(db, t)
          && (t.ident.id in db.txs ==> TerminalTrigger(db.txs[t.ident.id], t)))
    && (c.entry.Some? ==>
          EntryChecks(c.entry.value) && LedgerTrigger(db', c.entry.value) && LedgerIndexesAccept(db.ledger, c.entry.value))
  }

  // ----- Lemmas -----

  lemma {:induction false} EntryIsInChain(ledger: seq<Entry>, i: nat, w: string)
    requires i < |ledger| && ledger[i].wallet == w
    ensures ledger[i] in EntriesOf(ledger, w)
  {
    var n := |ledger| - 1;
    if i < n {
      EntryIsInChain(ledger[..n], i, w);
    }
  }

  lemma {:induction false} ChainVersions(es: seq<Entry>, row: WalletRow, i: nat, j: nat)
    requires Chain(es, row) && i <= j < |es|
    ensures es[j].version as int == es[i].version as int + (j - i)
  {
    if i < j {
      ChainVersions(es, row, i, j - 1);
      assert Continues(es[j - 1], es[j]);
    }
  }

  lemma VersionsBelow(ledger: seq<Entry>, row: WalletRow, i: nat)
    requires Chain(EntriesOf(ledger, row.id), row) && i < |ledger| && ledger[i].wallet == row.id
    ensures ledger[i].version <= row.version
  {
    var es := EntriesOf(ledger, row.id);
    EntryIsInChain(ledger, i, row.id);
    var j :| 0 <= j < |es| && es[j] == ledger[i];
    ChainVersions(es, row, j, |es| - 1);
  }

  /** The kinds that the trigger accepts for a reference. */
  predicate PairListed(kind: Kind, reference: Kind) {
    || (kind == Refund && reference == Bet)
    || (kind == Rollback && reference in [Bet, Win, Refund])
    || (kind == Win && reference == Bet)
  }

  /** Same provider, player, wallet, round and currency. */
  predicate ColumnsAgree(a: Identity, b: Identity) {
    && a.provider == b.provider && a.player == b.player && a.wallet == b.wallet && a.round == b.round
    && a.amount.currency.code == b.amount.currency.code
  }

  /** What the reference lookup decides, column by column: a missing or waiting reference is open;
      a settled one is refused for the first rule that it breaks, in the order processed, columns,
      kinds, amount. */
  lemma ResolutionIsExact(i: Identity, found: Option<Tx>)
    requires i.kind in [Win, Refund, Rollback] || i.reference == ""
    requires i.amount.Valid()
    ensures var x := Resolve(i, found);
            && (x.NoReference? <==> i.reference == "")
            && (x.Unresolved? <==> i.reference != "" && (found.None? || found.value.status in [Pending, PendingReference]))
            && (x.Resolved? ==>
                  && found == Some(x.reference)
                  && var r := found.value;
                  var agree, listed := ColumnsAgree(i, r.ident), PairListed(i.kind, r.ident.kind);
                  var differs := i.kind in [Refund, Rollback] && r.ident.amount != i.amount;
                  && (x.failure == Some(ReferenceNotProcessed) <==> r.status != Processed)
                  && (x.failure == Some(ReferenceMismatch) <==> r.status == Processed && !agree)
                  && (x.failure == Some(ReferenceTypeNotAllowed) <==> r.status == Processed && agree && !listed)
                  && (x.failure == Some(InvalidOperationAmount) <==> r.status == Processed && agree && listed && differs)
                  && (x.failure.None? <==> r.status == Processed && agree && listed && !differs))
  {}

  /** The application and the trigger judge a settled reference alike. */
  lemma ReferenceRulesAgree(t: Tx, r: Tx)
    requires t.ident.reference != "" && r.ident.external == t.ident.reference && r.status.Terminal()
    requires t.ident.kind.Win? || t.ident.kind.Reversal()
    requires t.ident.amount.Valid() && r.ident.amount.Valid()
    ensures Resolve(t.ident, Some(r)).Resolved? && Resolve(t.ident, Some(r)).reference == r
    ensures Resolve(t.ident, Some(r)).failure.None? <==> ReferenceAllowed(t, r)
  {
    ResolutionIsExact(t.ident, Some(r));
  }

  lemma ChecksHold(db: Store, c: Changes)
    requires SchedulesOk(Commit(db, c)) && RowsOk(Commit(db, c)) && c.tx.Some?
    ensures var db', t := Commit(db, c), c.tx.value;
            WagerChecks(t, if t.ident.id in db'.sched then Some(db'.sched[t.ident.id]) else None)
  {
    var t, db' := c.tx.value, Commit(db, c);
    assert db'.txs[t.ident.id] == t;
    assert RowOk(db'.wallets, t);
  }

  /** The rules of the application imply those of the trigger. */
  lemma RulesFit(txs: map<string, Tx>, t: Tx, e: Entry)
    requires ReferenceHolds(txs, t) && t.status.Processed? && !t.ident.kind.Loss? && !t.ident.kind.Opening? && TxValid(t)
    requires e.direction.Credit? <==> EffectOf(txs, t) > 0
    ensures DirectionAllowed(t, RefKind(txs, t), e)
    ensures t.refId == "" || (t.refId in txs && ReferenceAllowed(t, txs[t.refId]))
  {}

  lemma PostedWallet(db: Store, c: Changes)
    requires WalletsOk(db) && Legit(db, c) && c.entry.Some?
    ensures var e, db' := c.entry.value, Commit(db, c);
            && e.wallet in db'.wallets
            && var a := db'.wallets[e.wallet];
            a.balance.currency == e.amount.currency && a.version == e.version && a.balance == e.after
  {
    hide RowWrite, EffectOf, TxValid;
  }

  lemma LedgerTriggerAccepts(db: Store, c: Changes)
    requires WalletsOk(db) && TxsOk(db) && Legit(db, c) && c.entry.Some?
    ensures LedgerTrigger(Commit(db, c), c.entry.value)
  {
    var t, db' := c.tx.value, Commit(db, c);
    LegitIsWritable(db, c);
    PostedWallet(db, c);
    PostedFits(db, c);
    hide RowWrite, Posts, Shows, Waits, WalletsOk, EffectOf, DirectionAllowed, ReferenceAllowed;
    assert TxValid(t) && t.refId != t.ident.id && "" !in db.txs && t.ident.id != "";
    RulesFit(db.txs, t, c.entry.value);
    hide TxsOk, RowOk, TxValid, Writable;
    assert t.refId != "" ==> db'.txs[t.refId] == db.txs[t.refId];
    assert RefKind(db'.txs, t) == RefKind(db.txs, t);
  }

  lemma WalletTriggerAccepts(db: Store, c: Changes)
    requires WalletsOk(db) && Legit(db, c) && c.account.Some?
    ensures var a := c.account.value;
            WalletChecks(a) && a.id in db.wallets && WalletTrigger(Some(db.wallets[a.id]), a, Commit(db, c).ledger)
  {
    LegitWrites(db, c);
    assert Commit(db, c).ledger[|db.ledger|] == c.entry.value;
  }

  lemma WagerTriggerAccepts(db: Store, c: Changes)
    requires WalletsOk(db) && Legit(db, c)
    ensures WagerTrigger(Commit(db, c), c.tx.value)
  {
    if c.entry.Some? {
      assert Commit(db, c).ledger[|db.ledger|] == c.entry.value;
    }
  }

  lemma LedgerIndexAccepts(db: Store, c: Changes)
    requires ChainsOk(db) && EntryWrite(db.wallets, c) && c.entry.Some?
    requires forall i :: 0 <= i < |db.ledger| ==> db.ledger[i].tx != c.entry.value.tx
    ensures LedgerIndexesAccept(db.ledger, c.entry.value)
  {
    var e, a := c.entry.value, db.wallets[c.account.value.id];
    forall i | 0 <= i < |db.ledger| && db.ledger[i].wallet == e.wallet ensures db.ledger[i].version != e.version {
      VersionsBelow(db.ledger, a, i);
    }
  }

  lemma RowGuardsAccept(db: Store, t: Tx)
    requires TxsOk(db) && IdentitiesUnique(db.txs) && RowWrite(db, t)
    ensures IndexesAccept(db, t) && (t.ident.id in db.txs ==> TerminalTrigger(db.txs[t.ident.id], t))
  {
    forall k | k in db.txs && k != t.ident.id ensures !Clashes(db.txs[k].ident, t.ident) {
      assert t.ident.id in db.txs ==> db.txs[t.ident.id].ident == t.ident;
    }
  }

  /** No constraint, index or deferred trigger fires on a wager commit. */
  lemma GuardsNeverFire(db: Store, c: Changes)
    requires Inv(db) && Legit(db, c)
    ensures GuardsAccept(db, c)
  {
    LegitKeepsInv(db, c);
    ChecksHold(db, c);
    hide WalletsOk, TxsOk, SchedulesOk, ChainsOk, LedgerOk, EventsOk, BalancesOk, IdentitiesUnique;
    RowGuardsAccept(db, c.tx.value);
    WagerTriggerAccepts(db, c);
    StillMatches(db, c);
    if c.account.Some? { WalletTriggerAccepts(db, c); }
    if c.entry.Some? {
      LedgerTriggerAccepts(db, c);
      LedgerGuards(db, c);
    }
    hide RowWrite, Posts, Shows, Waits, WagerChecks, WagerTrigger, WalletTrigger, LedgerTrigger, WalletChecks, EntryChecks,
         IndexesAccept, LedgerIndexesAccept, TerminalTrigger, WalletMatches;
  }

  lemma StillMatches(db: Store, c: Changes)
    requires WalletsOk(db) && Legit(db, c)
    ensures WalletMatches(Commit(db, c).wallets, c.tx.value.ident)
  {
    LegitWrites(db, c);
    hide Posts, Shows, Waits, EntryWrite;
  }

  lemma LedgerGuards(db: Store, c: Changes)
    requires Inv(db) && Legit(db, c) && c.entry.Some?
    ensures EntryChecks(c.entry.value) && LedgerIndexesAccept(db.ledger, c.entry.value)
  {
    LegitWrites(db, c);
    LegitIsWritable(db, c);
    LegitTells(db, c);
    forall i | 0 <= i < |db.ledger| ensures db.ledger[i].tx != c.tx.value.ident.id {
      ExplainedStays(db.txs, c.tx.value, db.ledger[i]);
    }
    LedgerIndexAccepts(db, c);
  }

  lemma NoOpeningYet(db: Store, c: Changes)
    requires TxsOk(db) && Opens(db, c) && c.tx.Some?
    ensures IndexesAccept(db, c.tx.value)
  {
    forall k | k in db.txs ensures db.txs[k].ident.wallet != c.account.value.id {
      assert RowOk(db.wallets, db.txs[k]);
    }
  }

  lemma OpeningEntryAccepted(db: Store, c: Changes)
    requires TxsOk(db) && BalancesOk(db) && Opens(db, c) && c.entry.Some?
    ensures EntryChecks(c.entry.value) && LedgerTrigger(Commit(db, c), c.entry.value)
    ensures LedgerIndexesAccept(db.ledger, c.entry.value)
  {
    forall i | 0 <= i < |db.ledger| ensures db.ledger[i].wallet != c.entry.value.wallet {
      if db.ledger[i].wallet == c.entry.value.wallet {
        EntryIsInChain(db.ledger, i, c.entry.value.wallet);
      }
    }
  }

  lemma OpeningRowsAccepted(db: Store, c: Changes)
    requires Opens(db, c)
    ensures WalletChecks(c.account.value) && WalletTrigger(None, c.account.value, Commit(db, c).ledger)
    ensures c.tx.Some? ==> WagerTrigger(Commit(db, c), c.tx.value) && WalletMatches(Commit(db, c).wallets, c.tx.value.ident)
  {
    if c.entry.Some? {
      assert Commit(db, c).ledger[|db.ledger|] == c.entry.value;
    }
  }

  /** Nor on an opening of a wallet that the player does not hold yet. */
  lemma GuardsNeverFireOnOpening(db: Store, c: Changes)
    requires Inv(db) && Opens(db, c)
    ensures GuardsAccept(db, c)
  {
    hide WalletsOk, ReferencesOk, OneReversal, SchedulesOk, ChainsOk, LedgerOk, EventsOk, BalancesOk, IdentitiesUnique, WagerChecks, WagerTrigger,
         WalletTrigger, LedgerTrigger, WalletChecks, EntryChecks, IndexesAccept, LedgerIndexesAccept, TerminalTrigger, PlayerFree;
    OpenKeepsInv(db, c);
    OpeningRowsAccepted(db, c);
    if c.tx.Some? {
      ChecksHold(db, c);
      NoOpeningYet(db, c);
    }
    if c.entry.Some? {
      OpeningEntryAccepted(db, c);
    }
  }
}
