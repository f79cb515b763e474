/** The promises of the service, over every run. */
module Theorems {
  import opened Text
  import opened Wrappers
  import opened Monetary
  import opened Model
  import opened Settlement
  import opened Store
  import opened Accounting
  import opened Invariant
  import opened Soundness
  import opened Guards
  import opened Engine
  import opened Opening
  import opened Machine
  import opened Safety
  import opened Runs
  import opened Leases
  import opened Reconciliation
  import Pagination
  import Inbox
  import Outbox

  /** The tables of every reachable state satisfy the invariant. */
  lemma TablesOk(ws: seq<World>, acts: seq<Action>, i: nat)
    requires Run(ws, acts) && i < |ws|
    ensures Invariant.Inv(ws[i].db) && FlightsOk(ws[i]) && InboxOk(ws[i])
  {
    hide Step, Init;
    Reachable(ws, acts, i);
  }

  // ----- Money -----

  /** Balance = opening amount + wins in force - bets in force. */
  lemma AccountingIdentity(ws: seq<World>, acts: seq<Action>, i: nat, wallet: string)
    requires Run(ws, acts) && i < |ws| && wallet in ws[i].db.wallets
    ensures NetInForce(ws[i].db.txs, wallet) == ws[i].db.wallets[wallet].balance.minor as int >= 0
  {
    hide Run, FlightsOk, InboxOk, NetInForce;
    TablesOk(ws, acts, i);
  }

  /** The ledger of a wallet counts its versions up to the wallet's, continues its balances from
      zero, keeps its times in order and sums up to the wallet's balance. */
  ghost predicate LedgerExplains(txs: map<string, Tx>, row: WalletRow, es: seq<Entry>) {
    && (forall k :: 0 <= k < |es| ==> es[k].version as int == row.version as int - (|es| - 1 - k))
    && (forall k :: 0 < k < |es| ==> es[k].before == es[k - 1].after && es[k - 1].createdAt <= es[k].createdAt)
    && (es == [] ==> row.version == 1 && row.balance.minor == 0)
    && (es != [] ==>
          && es[0].before.minor == 0 && es[|es| - 1].after == row.balance
          && es[0].tx in txs
          && (es[0].version == if txs[es[0].tx].ident.kind.Opening? then 1 else 2))
    && SignedSum(es) == row.balance.minor as int >= 0
  }

  lemma {:induction false} ChainEntryIsStored(ledger: seq<Entry>, k: nat, w: string)
    requires k < |EntriesOf(ledger, w)|
    ensures exists i :: 0 <= i < |ledger| && ledger[i] == EntriesOf(ledger, w)[k]
  {
    var n := |ledger| - 1;
    if k < |EntriesOf(ledger[..n], w)| {
      ChainEntryIsStored(ledger[..n], k, w);
      var i :| 0 <= i < n && ledger[..n][i] == EntriesOf(ledger[..n], w)[k];
      assert ledger[i] == EntriesOf(ledger, w)[k];
    } else {
      assert ledger[n] == EntriesOf(ledger, w)[k];
    }
  }

  lemma FirstEntry(db: Store, wallet: string)
    requires EntriesExplained(db) && wallet in db.wallets && Chain(EntriesOf(db.ledger, wallet), db.wallets[wallet])
    requires EntriesOf(db.ledger, wallet) != []
    ensures var e := EntriesOf(db.ledger, wallet)[0];
            e.before.minor == 0 && e.tx in db.txs && e.version == if db.txs[e.tx].ident.kind.Opening? then 1 else 2
  {
    ChainEntryIsStored(db.ledger, 0, wallet);
  }

  lemma ChainCounts(es: seq<Entry>, row: WalletRow)
    requires Chain(es, row)
    ensures forall k :: 0 <= k < |es| ==> es[k].version as int == row.version as int - (|es| - 1 - k)
  {
    if es != [] {
      assert es[|es| - 1].version == row.version;
    }
    forall k | 0 <= k < |es| ensures es[k].version as int == row.version as int - (|es| - 1 - k) {
      ChainVersions(es, row, k, |es| - 1);
      hide Chain;
    }
  }

  lemma ChainContinues(es: seq<Entry>, row: WalletRow)
    requires Chain(es, row)
    ensures forall k :: 0 < k < |es| ==> es[k].before == es[k - 1].after && es[k - 1].createdAt <= es[k].createdAt
    ensures es == [] ==> row.version == 1 && row.balance.minor == 0
    ensures es != [] ==> es[|es| - 1].after == row.balance
  {
    forall k | 0 < k < |es| ensures es[k].before == es[k - 1].after && es[k - 1].createdAt <= es[k].createdAt {
      assert Continues(es[k - 1], es[k]);
    }
  }

  lemma ChainExplains(txs: map<string, Tx>, row: WalletRow, es: seq<Entry>)
    requires Chain(es, row) && WalletValid(row)
    requires es != [] ==>
               es[0].before.minor == 0 && es[0].tx in txs && es[0].version == if txs[es[0].tx].ident.kind.Opening? then 1 else 2
    ensures LedgerExplains(txs, row, es)
  {
    hide Chain, SignedSum;
    ChainSum(es, row);
    ChainCounts(es, row);
    ChainContinues(es, row);
  }

  lemma LedgerChain(ws: seq<World>, acts: seq<Action>, i: nat, wallet: string)
    requires Run(ws, acts) && i < |ws| && wallet in ws[i].db.wallets
    ensures LedgerExplains(ws[i].db.txs, ws[i].db.wallets[wallet], EntriesOf(ws[i].db.ledger, wallet))
  {
    hide Run, FlightsOk, InboxOk, LedgerExplains, Chain, EntriesExplained, EntriesOf;
    TablesOk(ws, acts, i);
    if EntriesOf(ws[i].db.ledger, wallet) != [] {
      FirstEntry(ws[i].db, wallet);
    }
    ChainExplains(ws[i].db.txs, ws[i].db.wallets[wallet], EntriesOf(ws[i].db.ledger, wallet));
  }

  /** Reconciliation never finds a difference and never overflows. */
  lemma AlwaysReconciled(ws: seq<World>, acts: seq<Action>, i: nat, wallet: string)
    requires Run(ws, acts) && i < |ws|
    ensures var r := Reconcile(ws[i].db, wallet);
            if !ValidUuid(wallet) then r == Err(InvalidWalletID)
            else if wallet in ws[i].db.wallets
            then r.Ok? && r.value.consistent && r.value.difference.minor == 0
                 && r.value.stored == r.value.calculated == ws[i].db.wallets[wallet].balance
            else r == Err(NotFound)
  {
    hide Run, FlightsOk, InboxOk, ChainsOk, WalletsOk;
    TablesOk(ws, acts, i);
    if ValidUuid(wallet) && wallet in ws[i].db.wallets {
      hide Reconcile;
      AlwaysConsistent(ws[i].db, wallet);
    }
  }

  /** The wallet of the requested balance is added, its opening movement is recorded when there is
      one, and nothing else changes. */
  ghost predicate OpenedBy(db: Store, a: Action, db': Store)
    requires a.Open?
  {
    && a.openIds.wallet !in db.wallets
    && db'.wallets == db.wallets[a.openIds.wallet := WalletRow(a.openIds.wallet, a.player, a.initial, 1, a.now, a.now)]
    && db'.sched == db.sched
    && (a.initial.minor == 0 ==> db'.txs == db.txs && db'.ledger == db.ledger && db'.events == db.events)
    && (a.initial.minor > 0 ==>
          && a.openIds.opening !in db.txs && db'.txs.Keys == db.txs.Keys + {a.openIds.opening}
          && (forall k :: k in db.txs ==> db'.txs[k] == db.txs[k])
          && db'.txs[a.openIds.opening].ident.amount == a.initial && db'.txs[a.openIds.opening].result == Some(a.initial)
          && db'.ledger == db.ledger + [Entry(a.openIds.entry, a.openIds.wallet, a.openIds.opening, Credit, a.initial,
                                              Money(0, a.initial.currency), a.initial, 1, a.now)]
          && |db'.events| == |db.events| + 2)
  }

  /** An opening stores a wallet with exactly the requested balance, records it in the ledger when it
      is positive, and touches nothing else. */
  lemma OpensExactly(ws: seq<World>, acts: seq<Action>, i: nat)
    requires Run(ws, acts) && i < |acts| && acts[i].Open?
    ensures OpenedBy(ws[i].db, acts[i], ws[i + 1].db)
  {
    hide WorldInv, Init, Step, WalletsOk, TxsOk, FlightsOk, SchedulesOk;
    Reachable(ws, acts, i);
    Parts(ws[i]);
    assert Step(ws[i], acts[i], ws[i + 1]);
    OpeningIsExact(ws[i], acts[i], ws[i + 1]);
  }

  lemma OpeningIsExact(w: World, a: Action, w': World)
    requires SchedulesOk(w.db) && a.Open? && Step(w, a, w')
    ensures OpenedBy(w.db, a, w'.db)
  {
    OpenedExactly(a.player, a.initial, a.correlation, a.openIds, a.now);
    hide Opened, Outbox.EventsFresh, PlayerFree, ValidUuid, OpenIdsValid;
  }

  // ----- Exactly once -----

  /** Two external submissions with the same provider and the same key or external id. */
  predicate SharesIdentity(a: Tx, b: Tx) {
    a.ident.origin.External? && b.ident.origin.External? && a.ident.provider == b.ident.provider
    && (a.ident.key == b.ident.key || a.ident.external == b.ident.external)
  }

  /** An external id and an idempotency key each own at most one transaction and at most one
      ledger entry. */
  ghost predicate OwnsAtMostOne(db: Store) {
    && (forall a, b :: a in db.txs && b in db.txs && SharesIdentity(db.txs[a], db.txs[b]) ==> a == b)
    && (forall p :: 0 <= p < |db.ledger| ==> db.ledger[p].tx in db.txs)
    && (forall p, q :: 0 <= p < |db.ledger| && 0 <= q < |db.ledger| ==>
          SharesIdentity(db.txs[db.ledger[p].tx], db.txs[db.ledger[q].tx]) ==> p == q)
  }

  lemma InvOwns(db: Store)
    requires IdentitiesUnique(db.txs) && LedgerOk(db)
    ensures OwnsAtMostOne(db)
  {
    forall a, b | a in db.txs && b in db.txs && SharesIdentity(db.txs[a], db.txs[b]) ensures a == b {
      assert Clashes(db.txs[a].ident, db.txs[b].ident);
    }
    forall p | 0 <= p < |db.ledger| ensures db.ledger[p].tx in db.txs {
      assert Explained(db.txs, db.ledger[p]);
    }
  }

  lemma ExactlyOnce(ws: seq<World>, acts: seq<Action>, i: nat)
    requires Run(ws, acts) && i < |ws|
    ensures OwnsAtMostOne(ws[i].db)
  {
    hide Run, FlightsOk, InboxOk, OwnsAtMostOne;
    TablesOk(ws, acts, i);
    InvOwns(ws[i].db);
  }

  /** The transaction answered by a replay carries the very identity that was submitted. */
  ghost predicate AnswersFor(t: Tx, op: Op)
    requires op.Submit?
  {
    SameKey(t.ident, op.input.provider, op.input.key) && SameExternal(t.ident, op.input.provider, op.input.external)
    && t.ident.hash == op.hash
  }

  lemma ReplayAnswers(db: Store, f: Flight)
    requires f.op.Submit? && IdentitiesOk(db, f) && f.byKey.Some? && f.byExternal.Some?
    requires EvaluateIdentities(f.op.input, f.op.hash, f.byKey.value, f.byExternal.value).Replay?
    ensures Known(db.txs, Replayed(f)) && AnswersFor(Replayed(f), f.op)
  {}

  lemma ReplayFlight(w: World, a: Action, w': World)
    requires FlightsOk(w) && a.CommitReplay? && Step(w, a, w')
    ensures w'.db == w.db && w'.outbox == w.outbox
    ensures a.f in w.flights && CanCommitReplay(w, a.f, a.completedAt)
    ensures Known(w.db.txs, Replayed(w.flights[a.f])) && AnswersFor(Replayed(w.flights[a.f]), w.flights[a.f].op)
  {
    hide EvaluateIdentities, FlightsOk;
    FlightIsOk(w, a.f);
    hide Known, AnswersFor, Carries, AccountOk, AwaitingOk, ReadsOk, IdentitiesOk;
    ReplayAnswers(w.db, w.flights[a.f]);
  }

  /** A replay writes no row, entry or event. Its answer is the one transaction that owns the key
      and the external id, with the same content, now and in every later state. */
  lemma ReplayChangesNothing(ws: seq<World>, acts: seq<Action>, i: nat, j: nat)
    requires Run(ws, acts) && i < |acts| && acts[i].CommitReplay? && i <= j < |ws|
    ensures ws[i + 1].db == ws[i].db && ws[i + 1].outbox == ws[i].outbox
    ensures acts[i].f in ws[i].flights && CanCommitReplay(ws[i], acts[i].f, acts[i].completedAt)
    ensures Known(ws[j].db.txs, Replayed(ws[i].flights[acts[i].f])) && AnswersFor(Replayed(ws[i].flights[acts[i].f]), ws[i].flights[acts[i].f].op)
  {
    hide Step, Init, CanCommitReplay, Replayed, AnswersFor, WalletsGrow, SchedulesGrow, FlightsOk, InboxOk;
    TablesOk(ws, acts, i);
    ReplayFlight(ws[i], acts[i], ws[i + 1]);
    RunGrows(ws, acts, i, j);
  }

  /** Two landings never complete the same message, and its inbox row is final once written. */
  lemma MessageLandsOnce(ws: seq<World>, acts: seq<Action>, i: nat, j: nat)
    requires Run(ws, acts) && i < j < |acts|
    requires acts[i].CommitNew? || acts[i].CommitReplay?
    requires acts[j].CommitNew? || acts[j].CommitReplay? || acts[j].Begin?
    ensures acts[i].f in ws[i].flights
    ensures var key := Holding(ws[i].flights[acts[i].f]);
            key.Some? ==>
              && key.value in ws[j].inbox && key.value in ws[i + 1].inbox
              && ws[j].inbox[key.value] == ws[i + 1].inbox[key.value]
              && (acts[j].Begin? ==> Holding(NewFlight(acts[j].op)) != key)
              && (!acts[j].Begin? ==> acts[j].f in ws[j].flights && Holding(ws[j].flights[acts[j].f]) != key)
  {
    hide WorldInv, Step, Init, InboxOk;
    assert Step(ws[i], acts[i], ws[i + 1]) && Step(ws[j], acts[j], ws[j + 1]);
    LandingWrites(ws[i], acts[i], ws[i + 1]);
    RunInbox(ws, acts, i + 1, j);
    Reachable(ws, acts, j);
    InboxPart(ws[j]);
    MessageIsNew(ws[j], acts[j], ws[j + 1]);
  }

  lemma LandingWrites(w: World, a: Action, w': World)
    requires Step(w, a, w') && (a.CommitNew? || a.CommitReplay?)
    ensures a.f in w.flights && (Holding(w.flights[a.f]).Some? ==> Holding(w.flights[a.f]).value in w'.inbox)
  {
    hide NewChanges, EvaluateIdentities, Replayed;
  }

  /** Work begins and ends only with messages that are not in the inbox. */
  lemma MessageIsNew(w: World, a: Action, w': World)
    requires InboxOk(w) && Step(w, a, w') && (a.CommitNew? || a.CommitReplay? || a.Begin?)
    ensures a.Begin? ==> Holding(NewFlight(a.op)).Some? ==> Holding(NewFlight(a.op)).value !in w.inbox
    ensures !a.Begin? ==> a.f in w.flights && (Holding(w.flights[a.f]).Some? ==> Holding(w.flights[a.f]).value !in w.inbox)
  {
    hide NewChanges, EvaluateIdentities, Replayed;
  }

  // ----- Settled is final -----

  /** A settled transaction is the same row in every later state, and a row once stored keeps its
      identity: no transaction is completed twice. */
  lemma SettledIsFinal(ws: seq<World>, acts: seq<Action>, i: nat, j: nat, id: string)
    requires Run(ws, acts) && i <= j < |ws| && id in ws[i].db.txs
    ensures id in ws[j].db.txs && ws[j].db.txs[id].ident == ws[i].db.txs[id].ident
    ensures ws[i].db.txs[id].status.Terminal() ==> ws[j].db.txs[id] == ws[i].db.txs[id]
    ensures ws[i].db.ledger <= ws[j].db.ledger && ws[i].db.events <= ws[j].db.events
  {
    hide Run, WalletsGrow, SchedulesGrow;
    RunGrows(ws, acts, i, j);
  }

  // ----- Events -----

  /** Balance events and ledger entries pair off in order with equal fields; every balance event
      is caused by the processed event of its transaction. */
  lemma EventsMatchLedger(ws: seq<World>, acts: seq<Action>, i: nat)
    requires Run(ws, acts) && i < |ws|
    ensures var db := ws[i].db;
            var told := Select(db.events, Balances);
            && |told| == |db.ledger|
            && (forall p :: 0 <= p < |told| ==>
                  && MovementTold(db.events, told[p], db.ledger[p])
                  && db.ledger[p].tx in db.txs && db.txs[db.ledger[p].tx].status.Processed?
                  && !db.txs[db.ledger[p].tx].ident.kind.Loss?)
  {
    hide Run, FlightsOk, InboxOk, MovementTold, Select;
    TablesOk(ws, acts, i);
    var db := ws[i].db;
    forall p | 0 <= p < |db.ledger|
      ensures db.ledger[p].tx in db.txs && db.txs[db.ledger[p].tx].status.Processed? && !db.txs[db.ledger[p].tx].ident.kind.Loss?
    {
      assert Explained(db.txs, db.ledger[p]);
    }
  }

  /** Exactly one outcome event for a settled transaction and none for a waiting one; one pending
      event exactly when the transaction has ever waited. */
  lemma OutcomesTold(ws: seq<World>, acts: seq<Action>, i: nat, id: string)
    requires Run(ws, acts) && i < |ws| && id in ws[i].db.txs
    ensures var db := ws[i].db;
            var told, waits := Select(db.events, StatusOf(id)), Select(db.events, WaitOf(id));
            && db.txs[id].ident.id == id
            && (if db.txs[id].status.Terminal() then |told| == 1 && StatusMatches(told[0], db.txs[id]) else told == [])
            && |waits| == (if id in db.sched then 1 else 0)
            && (db.txs[id].status.PendingReference? ==> |waits| == 1)
  {
    hide Run, FlightsOk, InboxOk, Select, StatusMatches;
    TablesOk(ws, acts, i);
    var db := ws[i].db;
    assert StatusTold(db.events, db.txs[id]) && WaitTold(db.events, db.sched, id);
  }

  // ----- The database's guards -----

  /** No CHECK, foreign key or deferred trigger ever rejects a commit of the application, and no
      unique index does beyond what the machine's commits consult: a new submission asks the two
      identity indexes, where a lost race shows, and an opening asks the player's. The unique
      reversal index, the single opening and the ledger's indexes are consulted by nobody. */
  lemma GuardsNeverFireInRuns(ws: seq<World>, acts: seq<Action>, i: nat)
    requires Run(ws, acts) && i < |acts| && (acts[i].Open? || acts[i].CommitNew? || acts[i].CommitWake?)
    ensures Step(ws[i], acts[i], ws[i + 1]) && GuardsAccept(ws[i].db, Written(ws[i], acts[i], ws[i + 1]))
  {
    hide WorldInv, Init, Step, GuardsAccept, Legit, Opens, Written, Invariant.Inv, FlightsOk, InboxOk;
    Reachable(ws, acts, i);
    TablesOk(ws, acts, i);
    WrittenIsSound(ws[i], acts[i], ws[i + 1]);
    if acts[i].Open? {
      GuardsNeverFireOnOpening(ws[i].db, Written(ws[i], acts[i], ws[i + 1]));
    } else {
      GuardsNeverFire(ws[i].db, Written(ws[i], acts[i], ws[i + 1]));
    }
  }

  /** Claims and reschedules pass the guards as well: they touch only waiting rows and keep the next
      attempt within the deadline. */
  lemma UpdatesPassGuards(ws: seq<World>, acts: seq<Action>, i: nat, id: string)
    requires Run(ws, acts) && i < |acts| && (acts[i].Reschedule? || acts[i].ClaimReference?)
    requires id in ws[i].db.txs && id in ws[i].db.sched && !SameRow(ws[i].db, ws[i + 1].db, id)
    ensures id in ws[i + 1].db.txs && ws[i + 1].db.txs[id] == ws[i].db.txs[id] && id in ws[i + 1].db.sched
    ensures ScheduleUpdateAccepted(ws[i].db.txs[id], ws[i + 1].db.sched[id])
  {
    hide Step, Init, WorldInv, SameRow, ScheduleUpdateAccepted, FlightsOk, InboxOk;
    FencedRow(ws, acts, i, id);
    TablesOk(ws, acts, i + 1);
    ScheduleUpdateFits(ws[i + 1].db, id);
  }

  lemma DistinctReferences(txs: map<string, Tx>, a: string, b: string)
    requires OneReversal(txs) && a in txs && b in txs && a != b
    requires txs[a].status.Processed? && txs[a].ident.kind.Reversal() && txs[b].status.Processed? && txs[b].ident.kind.Reversal()
    ensures txs[a].refId != txs[b].refId
  {
    assert ReversalOf(txs[a], txs[a].refId);
  }

  /** Two processed direct reversals never name the same reference. */
  lemma ReversedAtMostOnce(ws: seq<World>, acts: seq<Action>, i: nat, a: string, b: string)
    requires Run(ws, acts) && i < |ws| && a in ws[i].db.txs && b in ws[i].db.txs && a != b
    requires ws[i].db.txs[a].status.Processed? && ws[i].db.txs[a].ident.kind.Reversal()
    requires ws[i].db.txs[b].status.Processed? && ws[i].db.txs[b].ident.kind.Reversal()
    ensures ws[i].db.txs[a].refId != ws[i].db.txs[b].refId
  {
    hide Run, FlightsOk, InboxOk, OneReversal;
    TablesOk(ws, acts, i);
    DistinctReferences(ws[i].db.txs, a, b);
  }

  /** The compare-and-set on the wallet's version finds the version it expects. */
  lemma NoMovementIsLost(ws: seq<World>, acts: seq<Action>, i: nat)
    requires Run(ws, acts) && i < |acts| && (acts[i].CommitNew? || acts[i].CommitWake?)
    ensures Step(ws[i], acts[i], ws[i + 1])
    ensures var c := Written(ws[i], acts[i], ws[i + 1]);
            c.account.Some? ==>
              && c.account.value.id in ws[i].db.wallets
              && c.account.value.version as int == ws[i].db.wallets[c.account.value.id].version as int + 1
              && c.account.value.id in ws[i + 1].db.wallets && ws[i + 1].db.wallets[c.account.value.id] == c.account.value
  {
    hide WorldInv, Init, Step, Written, RowWrite, TxsOk, FlightsOk, SchedulesOk;
    Reachable(ws, acts, i);
    Parts(ws[i]);
    WrittenIsSound(ws[i], acts[i], ws[i + 1]);
  }

  // ----- Pages -----

  /** The ledgers that requests at the given moments of a run see. */
  ghost function LedgersAt(ws: seq<World>, moments: seq<nat>): seq<seq<Entry>>
    requires forall k :: 0 <= k < |moments| ==> moments[k] < |ws|
  {
    seq(|moments|, k requires 0 <= k < |moments| => ws[moments[k]].db.ledger)
  }

  lemma RunRises(ws: seq<World>, acts: seq<Action>, i: nat, wallet: string)
    requires Run(ws, acts) && i < |ws|
    ensures Pagination.Rising(EntriesOf(ws[i].db.ledger, wallet))
  {
    hide Run, FlightsOk, InboxOk, Chain;
    TablesOk(ws, acts, i);
    if wallet in ws[i].db.wallets {
      Pagination.ChainRises(EntriesOf(ws[i].db.ledger, wallet), ws[i].db.wallets[wallet]);
    }
  }

  /** Pages requested at successive moments of any run, with any limits, list exactly the entries
      present at the first request, newest first, whatever commits in between. */
  lemma PagesOverRun(ws: seq<World>, acts: seq<Action>, moments: seq<nat>, limits: seq<nat>, wallet: string)
    requires Run(ws, acts) && |moments| == |limits| > 0
    requires forall k :: 0 <= k < |moments| ==> moments[0] <= moments[k] < |ws| && limits[k] >= 1
    ensures var es := EntriesOf(ws[moments[0]].db.ledger, wallet);
            var walk := Pagination.Follow(LedgersAt(ws, moments), limits, wallet, None);
            && walk.entries == Pagination.Take(Pagination.Reversed(es), Pagination.Total(limits))
            && (walk.next.None? <==> |es| <= Pagination.Total(limits))
            && (forall p, q :: 0 <= p < q < |walk.entries| ==> Pagination.Newer(walk.entries[p], walk.entries[q]))
  {
    hide Run, RowsGrow, WalletsGrow, SchedulesGrow, Pagination.Rising;
    var ledgers, es := LedgersAt(ws, moments), EntriesOf(ws[moments[0]].db.ledger, wallet);
    forall k | 0 <= k < |ledgers| ensures Pagination.Rising(EntriesOf(ledgers[k], wallet)) && es <= EntriesOf(ledgers[k], wallet) {
      RunRises(ws, acts, moments[k], wallet);
      RunGrows(ws, acts, moments[0], moments[k]);
      Pagination.EntriesGrow(ws[moments[0]].db.ledger, ws[moments[k]].db.ledger, wallet);
    }
    Pagination.PagesAreComplete(ledgers, limits, wallet);
  }

  // ----- Cursors -----

  /** Every entry has a drawn id and counts a version. */
  ghost predicate EntriesNumbered(ledger: seq<Entry>) {
    forall i :: 0 <= i < |ledger| ==> ledger[i].version >= 1 && ValidUuid(ledger[i].id)
  }

  lemma SettledEntryId(a: WalletRow, t: Tx, reference: Option<Tx>, failure: Option<FailureCode>, reversed: bool,
                       correlation: string, ids: Ids, now: Time)
    requires Ready(a, t, now)
    ensures var r := Settle(a, t, reference, failure, reversed, correlation, ids, now);
            r.Ok? && r.value.entry.Some? ==> r.value.entry.value.id == ids.entry
  {}

  lemma SubmittedEntryId(f: Flight, reading: Time, ids: Ids)
    requires f.op.Submit? && Complete(f) && WalletFits(f.op.input, f.account.value)
    requires Accepted(f.op.input, f.op.hash, f.op.id, f.op.received)
    ensures var r := NewChanges(f, reading, ids); r.Ok? && r.value.entry.Some? ==> r.value.entry.value.id == ids.entry
  {
    var a, t := f.account.value, Subject(f);
    var now := ProcessingTime(f.op.received, reading, a);
    hide Settle;
    match Resolve(t.ident, f.reference.value)
    case Unresolved =>
    case NoReference => SettledEntryId(a, t, None, None, ReversedAnswer(f), f.op.input.correlation, ids, now);
    case Resolved(r, failure) => SettledEntryId(a, t, Some(r), failure, ReversedAnswer(f), f.op.input.correlation, ids, now);
  }

  lemma ResumedEntryId(f: Flight, ids: Ids)
    requires f.op.Wake? && Complete(f) && Ready(f.account.value, f.awaiting.value.tx, WakeTime(f))
    requires f.awaiting.value.tx.status.PendingReference?
    ensures var r := WakeChanges(f, ids);
            r.Ok? && r.value.Some? && r.value.value.entry.Some? ==> r.value.value.entry.value.id == ids.entry
  {
    var a, t, x := f.account.value, f.awaiting.value.tx, Resolve(f.awaiting.value.tx.ident, f.reference.value);
    ResumeSettles(a, t, f.reference.value, ReversedAnswer(f), Expired(f), ids, WakeTime(f));
    hide Settle, Resume, Resolve;
    SettledEntryId(a, t, ResumeReference(x), ResumeFailure(x), ReversedAnswer(f), t.ident.id, ids, WakeTime(f));
  }

  lemma EntryId(w: World, a: Action, w': World)
    requires (a.Open? || a.CommitNew? || a.CommitWake?) && Step(w, a, w')
    ensures Written(w, a, w').entry.Some? ==> ValidUuid(Written(w, a, w').entry.value.id)
  {
    hide ValidUuid, Outbox.EventsFresh, Ready, Accepted, NewChanges, WakeChanges, Complete, WalletFits, IdentityFree, IdsValid;
    if a.CommitNew? {
      SubmittedEntryId(w.flights[a.f], a.reading, a.ids);
    } else if a.CommitWake? {
      ResumedEntryId(w.flights[a.f], a.ids);
    }
  }

  lemma EntryVersion(db: Store, c: Changes)
    requires Legit(db, c) || Opens(db, c)
    ensures c.entry.Some? ==> c.entry.value.version >= 1
    ensures Commit(db, c).ledger == db.ledger + if c.entry.Some? then [c.entry.value] else []
  {}

  lemma NumberedStep(w: World, a: Action, w': World)
    requires WorldInv(w) && Step(w, a, w') && EntriesNumbered(w.db.ledger)
    ensures EntriesNumbered(w'.db.ledger)
  {
    hide WorldInv, Step, Legit, Opens, Written, ValidUuid;
    if a.Open? || a.CommitNew? || a.CommitWake? {
      WrittenIsSound(w, a, w');
      EntryId(w, a, w');
      EntryVersion(w.db, Written(w, a, w'));
    } else if a.Reschedule? || a.ClaimReference? {
      ScheduleWrites(w, a, w');
    } else {
      OtherWrites(w, a, w');
    }
  }

  lemma InitNumbered(w: World)
    requires Init(w)
    ensures EntriesNumbered(w.db.ledger)
  {}

  lemma {:induction false} NumberedRun(ws: seq<World>, acts: seq<Action>, i: nat)
    requires Run(ws, acts) && i < |ws|
    ensures EntriesNumbered(ws[i].db.ledger)
  {
    hide WorldInv, Step, Init, EntriesNumbered;
    if i == 0 {
      InitNumbered(ws[0]);
    } else {
      NumberedRun(ws, acts, i - 1);
      Reachable(ws, acts, i - 1);
      NumberedStep(ws[i - 1], acts[i - 1], ws[i]);
    }
  }

  /** In every reachable state the cursor that a page hands out is accepted by the next request. */
  lemma CursorsAreAccepted(ws: seq<World>, acts: seq<Action>, i: nat, wallet: string, after: Option<Pagination.Cursor>, limit: nat)
    requires Run(ws, acts) && i < |ws| && limit >= 1
    ensures var next := Pagination.PageOf(ws[i].db.ledger, wallet, after, limit).next;
            next.Some? ==> Pagination.CursorValid(next.value, wallet)
  {
    hide Run, ValidUuid, Pagination.PageOf;
    NumberedRun(ws, acts, i);
    Pagination.NextCursorIsAccepted(ws[i].db.ledger, wallet, after, limit);
  }
}
