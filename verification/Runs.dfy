/** What runs do to the committed tables: rows are added, settled rows never change, ledger and
    events only grow. */
module Runs {
  import opened Wrappers
  import opened Monetary
  import opened Model
  import opened Settlement
  import opened Store
  import opened Accounting
  import opened Invariant
  import opened Engine
  import opened Opening
  import opened Machine
  import opened Safety
  import Backoff
  import Payload
  import Inbox
  import Outbox

  // ----- One step, seen from the tables -----

  ghost predicate Settles(db: Store, db': Store) {
    exists c :: Legit(db, c) && db' == Commit(db, c)
  }

  ghost predicate OpensOne(db: Store, db': Store) {
    exists c :: Opens(db, c) && db' == Commit(db, c)
  }

  /** Only the schedule columns of one waiting row move on. */
  ghost predicate Schedules(db: Store, db': Store) {
    exists id ::
      && id in db.sched && id in db'.sched && db' == db.(sched := db.sched[id := db'.sched[id]])
      && db'.sched[id].expiresAt == db.sched[id].expiresAt && db.sched[id].attempts <= db'.sched[id].attempts
  }

  ghost predicate DbStep(db: Store, db': Store) {
    db' == db || Settles(db, db') || OpensOne(db, db') || Schedules(db, db')
  }

  /** The changes that a committing action writes. */
  ghost function Written(w: World, a: Action, w': World): Changes
    requires Step(w, a, w') && (a.Open? || a.CommitNew? || a.CommitWake?)
  {
    match a
    case Open(player, initial, correlation, ids, now) => Opened(player, initial, correlation, ids, now)
    case CommitNew(f, reading, ids, _) => NewChanges(w.flights[f], reading, ids).value
    case CommitWake(f, ids) => WakeChanges(w.flights[f], ids).value.value
  }

  lemma FlightIsOk(w: World, f: nat)
    requires FlightsOk(w) && f in w.flights
    ensures FlightOk(w.db, w.flights[f])
  {}

  lemma CommitNewWrites(w: World, a: Action, w': World)
    requires WorldInv(w) && a.CommitNew? && Step(w, a, w')
    ensures w'.db == Commit(w.db, Written(w, a, w')) && Legit(w.db, Written(w, a, w'))
  {
    hide WorldInv, FlightsOk, Legit;
    Parts(w);
    FlightIsOk(w, a.f);
    NewIsLegit(w, a.f, a.reading, a.ids, a.completedAt);
  }

  lemma CommitWakeWrites(w: World, a: Action, w': World)
    requires WorldInv(w) && a.CommitWake? && Step(w, a, w')
    ensures w'.db == Commit(w.db, Written(w, a, w')) && Legit(w.db, Written(w, a, w'))
  {
    hide WorldInv, FlightsOk, Legit;
    Parts(w);
    FlightIsOk(w, a.f);
    WakeIsLegit(w, a.f, a.ids);
  }

  lemma OpenWrites(w: World, a: Action, w': World)
    requires a.Open? && Step(w, a, w')
    ensures w'.db == Commit(w.db, Written(w, a, w')) && Opens(w.db, Written(w, a, w'))
  {
    hide Opens;
    OpenedOpens(w.db, a.player, a.initial, a.correlation, a.openIds, a.now);
  }

  /** Every commit is a legitimate settlement or a sound opening. */
  lemma WrittenIsSound(w: World, a: Action, w': World)
    requires WorldInv(w) && Step(w, a, w') && (a.Open? || a.CommitNew? || a.CommitWake?)
    ensures w'.db == Commit(w.db, Written(w, a, w'))
    ensures if a.Open? then Opens(w.db, Written(w, a, w')) else Legit(w.db, Written(w, a, w'))
  {
    hide WorldInv, Step, Legit, Opens, Written;
    if a.Open? {
      OpenWrites(w, a, w');
    } else if a.CommitNew? {
      CommitNewWrites(w, a, w');
    } else {
      CommitWakeWrites(w, a, w');
    }
  }

  lemma ScheduleWrites(w: World, a: Action, w': World)
    requires (a.Reschedule? || a.ClaimReference?) && Step(w, a, w')
    ensures Schedules(w.db, w'.db)
  {
    var id := if a.Reschedule? then w.flights[a.f].op.tx else a.tx;
    assert id in w.db.sched && w'.db == w.db.(sched := w.db.sched[id := w'.db.sched[id]]);
  }

  /** The steps of a flight before it lands, and its abort. */
  predicate Flies(a: Action) {
    a.Begin? || a.ReadKey? || a.ReadExternal? || a.Lock? || a.LockRow? || a.ReadReference? || a.ReadReversal? || a.Abort?
  }

  lemma OnlyFlies(w: World, a: Action, w': World)
    requires Flies(a) && Step(w, a, w')
    ensures w' == w.(flights := w'.flights)
  {
    hide CanBegin, CanLock, CanLockRow, Prepared, Decoded, KeyAnswer, ExternalAnswer, HasReversal, Subject, Payload.Canonical;
  }

  /** Every other step that leaves the tables alone. */
  lemma OnlyAround(w: World, a: Action, w': World)
    requires a.Publish? || a.Tick? || a.Recognise? || a.Answer? || a.Acknowledge? || a.Forget?
    requires Step(w, a, w')
    ensures w' == w.(consumers := w'.consumers, acked := w'.acked, outbox := w'.outbox, clock := w'.clock) && w.acked <= w'.acked
  {
    hide Outbox.Step, Decoded;
  }

  lemma ReplayWrites(w: World, a: Action, w': World)
    requires a.CommitReplay? && Step(w, a, w')
    ensures w'.db == w.db && w'.outbox == w.outbox
  {
    hide CanCommitReplay, EvaluateIdentities;
  }

  lemma OtherWrites(w: World, a: Action, w': World)
    requires Step(w, a, w')
    requires !(a.CommitNew? || a.CommitWake? || a.Open? || a.Reschedule? || a.ClaimReference?)
    ensures w'.db == w.db
  {
    hide Step;
    if a.CommitReplay? {
      ReplayWrites(w, a, w');
    } else if Flies(a) {
      OnlyFlies(w, a, w');
    } else {
      OnlyAround(w, a, w');
    }
  }

  /** A submission stores the row that its flight carried. */
  lemma SubmissionIdentity(w: World, a: Action, w': World)
    requires WorldInv(w) && a.CommitNew? && Step(w, a, w')
    ensures a.f in w.flights && w.flights[a.f].op.Submit? && w.flights[a.f].op.input.amount.Valid()
    ensures var c := Written(w, a, w'); c.tx.Some? && c.tx.value.ident == Subject(w.flights[a.f]).ident
  {
    hide WorldInv, FlightsOk, Legit, WalletsOk, TxsOk, SchedulesOk;
    Parts(w);
    FlightIsOk(w, a.f);
    NewIsLegit(w, a.f, a.reading, a.ids, a.completedAt);
    hide FlightOk, NewChanges, EvaluateIdentities, IdentityFree, Outbox.EventsFresh, WalletFits, TxValid, Complete;
  }

  /** Every step settles one transaction, opens one wallet, reschedules one row, or leaves the
      tables alone. */
  lemma StepWrites(w: World, a: Action, w': World)
    requires WorldInv(w) && Step(w, a, w')
    ensures DbStep(w.db, w'.db)
  {
    hide WorldInv, Step, Legit, Opens, Schedules, Written;
    if a.CommitNew? || a.CommitWake? || a.Open? {
      WrittenIsSound(w, a, w');
    } else if a.Reschedule? || a.ClaimReference? {
      ScheduleWrites(w, a, w');
    } else {
      OtherWrites(w, a, w');
    }
  }

  // ----- Growth -----

  /** Rows stay, their identities are permanent and settled rows are final. */
  ghost predicate RowsGrow(txs: map<string, Tx>, txs': map<string, Tx>) {
    forall k :: k in txs ==>
      && k in txs' && txs'[k].ident == txs[k].ident
      && (txs[k].status.Terminal() ==> txs'[k] == txs[k])
  }

  ghost predicate WalletsGrow(wallets: map<string, WalletRow>, wallets': map<string, WalletRow>) {
    forall k :: k in wallets ==>
      && k in wallets'
      && var a, a' := wallets[k], wallets'[k];
      && a'.id == a.id && a'.player == a.player && a'.balance.currency == a.balance.currency && a'.createdAt == a.createdAt
      && a.version <= a'.version && a.updatedAt <= a'.updatedAt
  }

  ghost predicate SchedulesGrow(sched: map<string, Schedule>, sched': map<string, Schedule>) {
    forall k :: k in sched ==>
      k in sched' && sched'[k].expiresAt == sched[k].expiresAt && sched[k].attempts <= sched'[k].attempts
  }

  ghost predicate Grows(db: Store, db': Store) {
    && RowsGrow(db.txs, db'.txs) && WalletsGrow(db.wallets, db'.wallets) && SchedulesGrow(db.sched, db'.sched)
    && db.ledger <= db'.ledger && db.events <= db'.events
  }

  lemma SettlingSchedules(db: Store, c: Changes)
    requires SchedulesOk(db) && c.tx.Some? && (c.schedule.Some? ==> c.tx.value.ident.id !in db.txs)
    ensures SchedulesGrow(db.sched, Commit(db, c).sched)
  {}

  lemma SettlingRows(db: Store, t: Tx)
    requires RowWrite(db, t)
    ensures RowsGrow(db.txs, db.txs[t.ident.id := t])
  {}

  lemma SettlingWallets(db: Store, c: Changes)
    requires WalletsOk(db) && Legit(db, c)
    ensures WalletsGrow(db.wallets, Commit(db, c).wallets) && (c.schedule.Some? ==> c.tx.value.ident.id !in db.txs)
  {}

  lemma SettlingGrows(db: Store, c: Changes)
    requires WalletsOk(db) && SchedulesOk(db) && Legit(db, c)
    ensures Grows(db, Commit(db, c))
  {
    SettlingWallets(db, c);
    hide RowsGrow, WalletsGrow, SchedulesGrow, RowWrite, Posts, Shows, Waits;
    SettlingSchedules(db, c);
    SettlingRows(db, c.tx.value);
  }

  lemma OpeningGrows(db: Store, c: Changes)
    requires SchedulesOk(db) && Opens(db, c)
    ensures Grows(db, Commit(db, c))
  {}

  lemma DbStepGrows(db: Store, db': Store)
    requires WalletsOk(db) && SchedulesOk(db) && DbStep(db, db')
    ensures Grows(db, db')
  {
    hide Legit, Opens;
    if Settles(db, db') {
      var c :| Legit(db, c) && db' == Commit(db, c);
      SettlingGrows(db, c);
    } else if OpensOne(db, db') {
      var c :| Opens(db, c) && db' == Commit(db, c);
      OpeningGrows(db, c);
    }
  }

  lemma GrowthComposes(a: Store, b: Store, c: Store)
    requires Grows(a, b) && Grows(b, c)
    ensures Grows(a, c)
  {}

  /** Tables only grow along a run: a settled transaction, its entry and its events are permanent,
      and so is every identity. */
  lemma {:induction false} RunGrows(ws: seq<World>, acts: seq<Action>, i: nat, j: nat)
    requires Run(ws, acts) && i <= j < |ws|
    ensures Grows(ws[i].db, ws[j].db)
  {
    hide WorldInv, Step, Init, DbStep, RowsGrow, WalletsGrow, SchedulesGrow, WalletsOk, TxsOk, FlightsOk, SchedulesOk;
    if i < j {
      RunGrows(ws, acts, i, j - 1);
      Reachable(ws, acts, j - 1);
      Parts(ws[j - 1]);
      StepWrites(ws[j - 1], acts[j - 1], ws[j]);
      DbStepGrows(ws[j - 1].db, ws[j].db);
      GrowthComposes(ws[i].db, ws[j - 1].db, ws[j].db);
    } else {
      GrowthStarts(ws[i].db);
    }
  }

  lemma GrowthStarts(db: Store)
    ensures Grows(db, db)
  {}

  // ----- Inbox and tokens -----

  ghost predicate InboxGrows(w: World, w': World) {
    && (forall k :: k in w.inbox ==> k in w'.inbox && w'.inbox[k] == w.inbox[k])
    && w.acked <= w'.acked && w.tokens <= w'.tokens
  }

  lemma InboxPart(w: World)
    requires WorldInv(w)
    ensures InboxOk(w)
  {}

  lemma HeldMessageIsNew(w: World, f: nat)
    requires InboxOk(w) && f in w.flights && w.flights[f].op.Submit? && w.flights[f].op.message.Some?
    ensures w.flights[f].op.message.value.key !in w.inbox
  {
    assert Holding(w.flights[f]).Some?;
  }

  lemma LandingInbox(w: World, a: Action, w': World)
    requires InboxOk(w) && (a.CommitNew? || a.CommitReplay?) && Step(w, a, w')
    ensures InboxGrows(w, w')
  {
    hide NewChanges, EvaluateIdentities, InboxOk, Accepted, WalletFits, Complete, IdentityFree, Outbox.EventsFresh, Replayed, Commit, Outbox.Queue;
    if w.flights[a.f].op.message.Some? {
      HeldMessageIsNew(w, a.f);
    }
  }

  lemma CommitInbox(w: World, a: Action, w': World)
    requires (a.Open? || a.CommitWake? || a.Reschedule? || a.ClaimReference?) && Step(w, a, w')
    ensures InboxGrows(w, w')
  {
    hide WakeChanges, CanOpen, CanWake, CanClaim, Complete, Resolve, Outbox.EventsFresh, Commit, Outbox.Queue;
  }

  lemma OtherInbox(w: World, a: Action, w': World)
    requires !(a.CommitNew? || a.CommitReplay?) && Step(w, a, w')
    ensures InboxGrows(w, w')
  {
    hide Step;
    if a.Open? || a.CommitWake? || a.Reschedule? || a.ClaimReference? {
      CommitInbox(w, a, w');
    } else if Flies(a) {
      OnlyFlies(w, a, w');
    } else {
      OnlyAround(w, a, w');
    }
  }

  lemma StepInbox(w: World, a: Action, w': World)
    requires InboxOk(w) && Step(w, a, w')
    ensures InboxGrows(w, w')
  {
    hide Step, InboxOk;
    if a.CommitNew? || a.CommitReplay? {
      LandingInbox(w, a, w');
    } else {
      OtherInbox(w, a, w');
    }
  }

  /** A completed message stays completed with the same transaction. */
  lemma {:induction false} RunInbox(ws: seq<World>, acts: seq<Action>, i: nat, j: nat)
    requires Run(ws, acts) && i <= j < |ws|
    ensures InboxGrows(ws[i], ws[j])
  {
    hide WorldInv, Step, Init, InboxOk;
    if i < j {
      RunInbox(ws, acts, i, j - 1);
      Reachable(ws, acts, j - 1);
      InboxPart(ws[j - 1]);
      StepInbox(ws[j - 1], acts[j - 1], ws[j]);
    }
  }
}
