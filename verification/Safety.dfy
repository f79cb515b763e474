/** What every reachable state satisfies: the invariant of the tables, and that everything a
    transaction in flight relies on is still true. */
module Safety {
  import opened Text
  import opened Wrappers
  import opened Monetary
  import opened Model
  import opened Settlement
  import opened Records
  import opened Store
  import opened Accounting
  import opened Invariant
  import opened Soundness
  import opened Engine
  import opened Opening
  import opened Machine
  import Outbox
  import Inbox
  import Backoff

  /** What a flight carries with it, whatever the tables are. */
  ghost predicate Carries(f: Flight) {
    && (f.op.Submit? ==>
          && f.awaiting.None? && Accepted(f.op.input, f.op.hash, f.op.id, f.op.received)
          && (f.account.Some? ==> WalletFits(f.op.input, f.account.value)))
    && (f.awaiting.Some? ==> f.account.Some? && f.awaiting.value.tx.ident.wallet == WalletOf(f.op))
    && (f.byExternal.Some? ==> f.byKey.Some?)
    && (f.reference.Some? ==> Prepared(f))
    && (f.reversed.Some? ==> f.reference.Some?)
  }

  /** The locked wallet row is current. */
  ghost predicate AccountOk(db: Store, f: Flight) {
    f.account.Some? ==> WalletOf(f.op) in db.wallets && db.wallets[WalletOf(f.op)] == f.account.value
  }

  /** The locked waiting row is current and carries the flight's token. */
  ghost predicate AwaitingOk(db: Store, f: Flight) {
    f.op.Wake? && f.awaiting.Some? ==>
      var id := f.op.tx;
      && id in db.txs && id in db.sched
      && var t, s, wait := db.txs[id], db.sched[id], f.awaiting.value;
      && wait.tx == t && t.ident.id == id && t.status.PendingReference?
      && s.token == Some(f.op.token) && s.attempts == wait.attempts && s.expiresAt == wait.expiresAt
  }

  /** What was read of the reference still holds. */
  ghost predicate ReadsOk(db: Store, f: Flight)
    requires Carries(f)
  {
    f.reference.Some? ==>
      && Seen(db, Subject(f).ident, f.reference.value)
      && (f.reversed.Some? ==> ReversalSeen(db, Subject(f).ident, f.reference.value, f.reversed.value))
  }

  /** The row is stored under the identity that was read. */
  ghost predicate Known(txs: map<string, Tx>, t: Tx) {
    t.ident.id in txs && txs[t.ident.id].ident == t.ident
  }

  /** Rows found by the identity lookups are still there and still match. */
  ghost predicate IdentitiesOk(db: Store, f: Flight) {
    f.op.Submit? ==>
      && (f.byKey.Some? && f.byKey.value.Some? ==>
            Known(db.txs, f.byKey.value.value) && SameKey(f.byKey.value.value.ident, f.op.input.provider, f.op.input.key))
      && (f.byExternal.Some? && f.byExternal.value.Some? ==>
            && Known(db.txs, f.byExternal.value.value)
            && SameExternal(f.byExternal.value.value.ident, f.op.input.provider, f.op.input.external))
  }

  ghost predicate FlightOk(db: Store, f: Flight) {
    Carries(f) && AccountOk(db, f) && AwaitingOk(db, f) && ReadsOk(db, f) && IdentitiesOk(db, f)
  }

  /** Rows are never deleted and identities never change. */
  ghost predicate IdentitiesKeptBy(db: Store, db': Store) {
    forall k :: k in db.txs ==> k in db'.txs && db'.txs[k].ident == db.txs[k].ident
  }

  lemma IdentityReadsStay(db: Store, db': Store, f: Flight)
    requires IdentitiesKeptBy(db, db') && IdentitiesOk(db, f)
    ensures IdentitiesOk(db', f)
  {}

  ghost predicate FlightsOk(w: World) {
    && (forall f :: f in w.flights ==> FlightOk(w.db, w.flights[f]))
    && (forall f, g :: f in w.flights && g in w.flights && f != g && w.flights[f].account.Some? && w.flights[g].account.Some? ==>
          WalletOf(w.flights[f].op) != WalletOf(w.flights[g].op))
  }

  /** Only completed messages are ever committed. */
  ghost predicate InboxOk(w: World) {
    && (forall k :: k in w.inbox ==>
          && w.inbox[k].completedAt.Some? && w.inbox[k].receivedAt <= w.inbox[k].completedAt.value
          && w.inbox[k].tx.Some? && w.inbox[k].tx.value in w.db.txs)
    && (forall f :: f in w.flights && Holding(w.flights[f]).Some? ==> Holding(w.flights[f]).value !in w.inbox)
    && (forall f, g :: f in w.flights && g in w.flights && f != g && Holding(w.flights[f]).Some? ==>
          Holding(w.flights[f]) != Holding(w.flights[g]))
  }

  /** Every event waits in the outbox under its own id. */
  ghost predicate Queued(w: World) {
    && (forall i :: 0 <= i < |w.db.events| ==> w.db.events[i].id in w.outbox.rows)
    && (forall i, j :: 0 <= i < j < |w.db.events| ==> w.db.events[i].id != w.db.events[j].id)
  }

  ghost predicate TokensOk(w: World) {
    forall k :: k in w.db.sched && w.db.sched[k].token.Some? ==> w.db.sched[k].token.value in w.tokens
  }

  ghost predicate WorldInv(w: World) {
    Invariant.Inv(w.db) && FlightsOk(w) && InboxOk(w) && Outbox.Inv(w.outbox) && Queued(w) && TokensOk(w)
  }

  /** The parts of the invariant that single steps look at. */
  lemma Parts(w: World)
    requires WorldInv(w)
    ensures FlightsOk(w) && WalletsOk(w.db) && TxsOk(w.db) && SchedulesOk(w.db)
  {}

  lemma InitInv(w: World)
    requires Init(w)
    ensures WorldInv(w)
  {
    EmptyInv();
  }

  // ----- What a flight relies on survives the commits of others -----

  /** A settled row never changes, so a settled reference that was read is still current. */
  lemma SeenStays(db: Store, c: Changes, i: Identity, found: Option<Tx>)
    requires c.tx.Some? ==> (c.tx.value.ident.id in db.txs ==> !db.txs[c.tx.value.ident.id].status.Terminal())
    requires Seen(db, i, found)
    ensures Seen(Commit(db, c), i, found)
  {}

  lemma ReversesOnOwnWallet(db: Store, t: Tx, i: Identity, found: Option<Tx>)
    requires ReferenceHolds(db.txs, t) && t.ident.wallet != i.wallet && Seen(db, i, found) && AsksReversal(i, found)
    requires t.status.Processed? && t.ident.kind.Reversal() ==> t.refId != ""
    ensures !ReversalOf(t, found.value.ident.id)
  {}

  /** Reversals of a transaction are made on its own wallet, so under that wallet's lock the answer
      of the reversal check cannot change. */
  lemma ReversalSeenStays(db: Store, c: Changes, i: Identity, found: Option<Tx>, reversed: bool)
    requires TxsOk(db) && Legit(db, c) && c.tx.value.ident.wallet != i.wallet
    requires Seen(db, i, found) && ReversalSeen(db, i, found, reversed)
    ensures ReversalSeen(Commit(db, c), i, found, reversed)
  {
    if AsksReversal(i, found) {
      LegitIsWritable(db, c);
      hide TxsOk, RowWrite, Posts, Shows, Waits, RowOk, AsksReversal;
      ReversesOnOwnWallet(db, c.tx.value, i, found);
      hide Seen, ReferenceHolds;
      ReversalsAfter(db.txs, c.tx.value, found.value.ident.id);
    }
  }

  lemma SubjectWallet(f: Flight)
    requires Carries(f) && Prepared(f)
    ensures Subject(f).ident.wallet == WalletOf(f.op)
  {}

  lemma ReadsStay(db: Store, c: Changes, f: Flight)
    requires TxsOk(db) && Legit(db, c) && Carries(f) && ReadsOk(db, f)
    requires f.account.Some? ==> WalletOf(f.op) != c.tx.value.ident.wallet
    ensures ReadsOk(Commit(db, c), f)
  {
    if f.reference.Some? {
      SubjectWallet(f);
      SeenStays(db, c, Subject(f).ident, f.reference.value);
      if f.reversed.Some? {
        ReversalSeenStays(db, c, Subject(f).ident, f.reference.value, f.reversed.value);
      }
    }
  }

  lemma LocksStay(db: Store, c: Changes, f: Flight)
    requires WalletWrite(db.wallets, c) && c.tx.Some? && Carries(f) && AccountOk(db, f) && AwaitingOk(db, f)
    requires c.account.Some? ==> c.account.value.id == c.tx.value.ident.wallet
    requires c.tx.value.ident.id in db.txs ==> db.txs[c.tx.value.ident.id].ident == c.tx.value.ident
    requires f.account.Some? ==> WalletOf(f.op) != c.tx.value.ident.wallet
    ensures AccountOk(Commit(db, c), f) && AwaitingOk(Commit(db, c), f)
  {}

  lemma OthersStay(db: Store, c: Changes, f: Flight)
    requires WalletsOk(db) && TxsOk(db) && Legit(db, c) && FlightOk(db, f)
    requires f.account.Some? ==> WalletOf(f.op) != c.tx.value.ident.wallet
    ensures FlightOk(Commit(db, c), f)
  {
    hide WalletsOk, TxsOk, Carries, AccountOk, AwaitingOk, ReadsOk, IdentitiesOk;
    LegitWrites(db, c);
    LegitIsWritable(db, c);
    LocksStay(db, c, f);
    ReadsStay(db, c, f);
    IdentityReadsStay(db, Commit(db, c), f);
  }

  lemma OpeningLocksStay(db: Store, c: Changes, f: Flight)
    requires Opens(db, c) && AccountOk(db, f) && AwaitingOk(db, f)
    ensures AccountOk(Commit(db, c), f) && AwaitingOk(Commit(db, c), f)
  {}

  lemma OthersStayOnOpening(db: Store, c: Changes, f: Flight)
    requires TxsOk(db) && Opens(db, c) && FlightOk(db, f)
    ensures FlightOk(Commit(db, c), f)
  {
    OpeningLocksStay(db, c, f);
    IdentityReadsStay(db, Commit(db, c), f);
    if f.reference.Some? {
      SeenStays(db, c, Subject(f).ident, f.reference.value);
      if c.tx.Some? && f.reversed.Some? && AsksReversal(Subject(f).ident, f.reference.value) {
        OpenIsWritable(db, c);
        ReversalsAfter(db.txs, c.tx.value, f.reference.value.value.ident.id);
      }
    }
  }

  // ----- Commits are legitimate -----

  lemma SubmissionBasis(db: Store, f: Flight, reading: Time)
    requires FlightOk(db, f) && f.op.Submit? && f.account.Some?
    requires f.op.id !in db.txs && IdentityFree(db.txs, Subject(f).ident)
    ensures Basis(db, f.account.value, Subject(f), ProcessingTime(f.op.received, reading, f.account.value))
  {}

  /** When no reversal check was made, its answer does not matter. */
  lemma AnswerCounts(db: Store, f: Flight)
    requires FlightOk(db, f) && Complete(f)
    ensures Seen(db, Subject(f).ident, f.reference.value)
    ensures ReversalSeen(db, Subject(f).ident, f.reference.value, ReversedAnswer(f))
  {}

  lemma NewIsLegit(w: World, f: nat, reading: Time, ids: Ids, completedAt: Time)
    requires WalletsOk(w.db) && TxsOk(w.db) && CanCommitNew(w, f, reading, ids, completedAt) && FlightOk(w.db, w.flights[f])
    ensures var c := NewChanges(w.flights[f], reading, ids).value;
            Legit(w.db, c) && c.tx.value.ident == Subject(w.flights[f]).ident
  {
    var flight := w.flights[f];
    var a, t := flight.account.value, Subject(flight);
    var now := ProcessingTime(flight.op.received, reading, a);
    SubmissionBasis(w.db, flight, reading);
    AnswerCounts(w.db, flight);
    ProcessIsLegit(w.db, a, t, flight.reference.value, ReversedAnswer(flight), flight.op.input.correlation, ids, now);
  }

  lemma WakeBasis(db: Store, f: Flight)
    requires WalletsOk(db) && TxsOk(db) && FlightOk(db, f) && f.op.Wake? && f.awaiting.Some?
    ensures f.awaiting.value.tx.status.PendingReference? && f.awaiting.value.tx.ident.id in db.txs
    ensures Basis(db, f.account.value, f.awaiting.value.tx, WakeTime(f))
  {
    assert RowOk(db.wallets, db.txs[f.op.tx]);
  }

  lemma WakeIsLegit(w: World, f: nat, ids: Ids)
    requires WalletsOk(w.db) && TxsOk(w.db) && CanWake(w, f, ids) && FlightOk(w.db, w.flights[f])
    requires WakeChanges(w.flights[f], ids).value.Some?
    ensures var c := WakeChanges(w.flights[f], ids).value.value;
            Legit(w.db, c) && c.tx.value.ident == w.flights[f].awaiting.value.tx.ident
  {
    var flight := w.flights[f];
    WakeBasis(w.db, flight);
    AnswerCounts(w.db, flight);
    hide FlightOk, Legit, Seen, ReversalSeen, TxsOk, WalletsOk, Resume;
    ResumeIsLegit(w.db, flight.account.value, flight.awaiting.value.tx, flight.reference.value, ReversedAnswer(flight),
                  Expired(flight), ids, WakeTime(flight));
  }

  // ----- Each kind of step keeps the invariant -----

  lemma QueuedAfter(w: World, c: Changes)
    requires Queued(w) && Outbox.Inv(w.outbox) && Outbox.EventsFresh(w.outbox, c.events)
    ensures Queued(Committed(w, c)) && Outbox.Inv(Committed(w, c).outbox)
  {
    Outbox.QueueKeepsInv(w.outbox, c.events);
    var events := w.db.events + c.events;
    forall i | 0 <= i < |events| ensures events[i].id in Committed(w, c).outbox.rows {
      if i >= |w.db.events| {
        assert c.events[i - |w.db.events|].id == events[i].id;
      }
    }
  }

  lemma TokensAfter(w: World, c: Changes)
    requires TokensOk(w) && (c.schedule.Some? ==> c.schedule.value.token.None?)
    ensures TokensOk(Committed(w, c))
  {}

  /** The inbox row that a landing flight writes. */
  ghost predicate InboxWrite(w: World, f: nat, completedAt: Time) {
    && f in w.flights && w.flights[f].op.Submit?
    && (w.flights[f].op.message.Some? ==> w.flights[f].op.message.value.receivedAt <= completedAt)
  }

  lemma InboxAfter(w: World, db: Store, f: nat, t: Tx, completedAt: Time)
    requires InboxOk(w) && InboxWrite(w, f, completedAt) && t.ident.id in db.txs
    requires forall k :: k in w.db.txs ==> k in db.txs
    ensures InboxOk(Landed(WithInbox(w.(db := db), f, w.flights[f].op.message, t, completedAt), f))
  {
    var w' := Landed(WithInbox(w.(db := db), f, w.flights[f].op.message, t, completedAt), f);
    forall g | g in w'.flights && Holding(w'.flights[g]).Some? ensures Holding(w'.flights[g]).value !in w'.inbox {
      assert Holding(w.flights[f]).Some? ==> Holding(w.flights[f]) != Holding(w.flights[g]);
    }
  }

  lemma InboxWithout(w: World, db: Store, f: nat)
    requires InboxOk(w) && forall k :: k in w.db.txs ==> k in db.txs
    ensures InboxOk(Landed(w.(db := db), f))
  {}

  lemma FlightsAfter(w: World, f: nat, c: Changes)
    requires WalletsOk(w.db) && TxsOk(w.db) && FlightsOk(w) && f in w.flights && w.flights[f].account.Some?
    requires Legit(w.db, c) && c.tx.value.ident.wallet == WalletOf(w.flights[f].op)
    ensures FlightsOk(Landed(w.(db := Commit(w.db, c)), f))
  {
    forall g | g in w.flights && g != f ensures FlightOk(Commit(w.db, c), w.flights[g]) {
      OthersStay(w.db, c, w.flights[g]);
    }
  }

  lemma LegitSchedule(db: Store, c: Changes)
    requires Legit(db, c)
    ensures c.schedule.Some? ==> c.schedule.value.token.None?
  {}

  lemma CommitKeeps(w: World, f: nat, c: Changes)
    requires WorldInv(w) && f in w.flights && w.flights[f].account.Some?
    requires Legit(w.db, c) && c.tx.value.ident.wallet == WalletOf(w.flights[f].op)
    requires Outbox.EventsFresh(w.outbox, c.events)
    ensures var w' := Landed(Committed(w, c), f);
            Invariant.Inv(w'.db) && FlightsOk(w') && Outbox.Inv(w'.outbox) && Queued(w') && TokensOk(w')
  {
    LegitKeepsInv(w.db, c);
    FlightsAfter(w, f, c);
    FlightsFrame(Landed(w.(db := Commit(w.db, c)), f), Landed(Committed(w, c), f));
    QueuedAfter(w, c);
    LegitSchedule(w.db, c);
    TokensAfter(w, c);
  }

  lemma FlightsFrame(w: World, w': World)
    requires FlightsOk(w) && w'.db == w.db && w'.flights == w.flights
    ensures FlightsOk(w')
  {}

  lemma LandSubmission(w: World, f: nat, c: Changes, completedAt: Time)
    requires WorldInv(w) && InboxWrite(w, f, completedAt) && w.flights[f].account.Some?
    requires Legit(w.db, c) && c.tx.value.ident.wallet == WalletOf(w.flights[f].op)
    requires c.tx.value.ident.id == w.flights[f].op.id && Outbox.EventsFresh(w.outbox, c.events)
    ensures WorldInv(Landed(WithInbox(Committed(w, c), f, w.flights[f].op.message, c.tx.value, completedAt), f))
  {
    hide Invariant.Inv, FlightsOk, Outbox.Inv, RowWrite, Posts, Shows, Waits;
    var w' := Landed(WithInbox(Committed(w, c), f, w.flights[f].op.message, c.tx.value, completedAt), f);
    CommitKeeps(w, f, c);
    InboxAfter(w, Commit(w.db, c), f, c.tx.value, completedAt);
    FlightsFrame(Landed(Committed(w, c), f), w');
  }

  lemma CommitNewKeeps(w: World, f: nat, reading: Time, ids: Ids, completedAt: Time)
    requires WorldInv(w) && CanCommitNew(w, f, reading, ids, completedAt)
    ensures var c := NewChanges(w.flights[f], reading, ids).value;
            WorldInv(Landed(WithInbox(Committed(w, c), f, w.flights[f].op.message, c.tx.value, completedAt), f))
  {
    NewIsLegit(w, f, reading, ids, completedAt);
    LandSubmission(w, f, NewChanges(w.flights[f], reading, ids).value, completedAt);
  }

  lemma LandWake(w: World, f: nat, c: Changes)
    requires WorldInv(w) && f in w.flights && w.flights[f].account.Some?
    requires Legit(w.db, c) && c.tx.value.ident.wallet == WalletOf(w.flights[f].op)
    requires Outbox.EventsFresh(w.outbox, c.events)
    ensures WorldInv(Landed(Committed(w, c), f))
  {
    CommitKeeps(w, f, c);
    InboxWithout(w, Commit(w.db, c), f);
  }

  lemma CommitWakeKeeps(w: World, f: nat, ids: Ids)
    requires WorldInv(w) && CanWake(w, f, ids) && WakeChanges(w.flights[f], ids).value.Some?
    requires Outbox.EventsFresh(w.outbox, WakeChanges(w.flights[f], ids).value.value.events)
    ensures WorldInv(Landed(Committed(w, WakeChanges(w.flights[f], ids).value.value), f))
  {
    WakeIsLegit(w, f, ids);
    assert FlightOk(w.db, w.flights[f]);
    LandWake(w, f, WakeChanges(w.flights[f], ids).value.value);
  }

  lemma FlightsAfterOpening(w: World, c: Changes)
    requires TxsOk(w.db) && FlightsOk(w) && Opens(w.db, c)
    ensures FlightsOk(w.(db := Commit(w.db, c)))
  {
    hide TxsOk, Opens, FlightOk;
    forall f | f in w.flights ensures FlightOk(Commit(w.db, c), w.flights[f]) {
      OthersStayOnOpening(w.db, c, w.flights[f]);
    }
  }

  lemma InboxAfterOpening(w: World, c: Changes)
    requires InboxOk(w)
    ensures InboxOk(Committed(w, c))
  {}

  lemma OpenKeeps(w: World, c: Changes)
    requires WorldInv(w) && Opens(w.db, c) && Outbox.EventsFresh(w.outbox, c.events)
    ensures WorldInv(Committed(w, c))
  {
    hide InboxOk, FlightsOk, Opens, WalletsOk, TxsOk, IdentitiesUnique, SchedulesOk, ChainsOk, LedgerOk, EventsOk, BalancesOk, Outbox.EventsFresh;
    OpenKeepsInv(w.db, c);
    FlightsAfterOpening(w, c);
    FlightsFrame(w.(db := Commit(w.db, c)), Committed(w, c));
    InboxAfterOpening(w, c);
    QueuedAfter(w, c);
    OpeningSchedules(w.db, c);
    TokensAfter(w, c);
  }

  lemma OpeningSchedules(db: Store, c: Changes)
    requires Opens(db, c)
    ensures c.schedule.None?
  {}

  lemma OpenStep(w: World, a: Action, w': World)
    requires WorldInv(w) && a.Open? && Step(w, a, w')
    ensures WorldInv(w')
  {
    hide WorldInv, Opens, Outbox.EventsFresh;
    OpenedOpens(w.db, a.player, a.initial, a.correlation, a.openIds, a.now);
    OpenKeeps(w, Opened(a.player, a.initial, a.correlation, a.openIds, a.now));
  }

  lemma CommitNewStep(w: World, a: Action, w': World)
    requires WorldInv(w) && a.CommitNew? && Step(w, a, w')
    ensures WorldInv(w')
  {
    hide WorldInv, NewChanges, EvaluateIdentities, IdentityFree, Outbox.EventsFresh, Accepted, WalletFits;
    CommitNewKeeps(w, a.f, a.reading, a.ids, a.completedAt);
  }

  lemma CommitWakeStep(w: World, a: Action, w': World)
    requires WorldInv(w) && a.CommitWake? && Step(w, a, w')
    ensures WorldInv(w')
  {
    hide WorldInv, WakeChanges, Outbox.EventsFresh;
    CommitWakeKeeps(w, a.f, a.ids);
  }

  lemma ConsumerStep(w: World, a: Action, w': World)
    requires WorldInv(w) && (a.Recognise? || a.Answer? || a.Acknowledge? || a.Forget?) && Step(w, a, w')
    ensures WorldInv(w')
  {
    hide WorldInv, Decoded;
    SameRowsKeep(w, w');
  }

  /** A replay answers with a stored transaction of the same key, external id and content. */
  lemma ReplayIsStored(w: World, f: nat, completedAt: Time)
    requires FlightsOk(w) && CanCommitReplay(w, f, completedAt)
    ensures var t, op := Replayed(w.flights[f]), w.flights[f].op;
            Known(w.db.txs, t) && SameKey(t.ident, op.input.provider, op.input.key) && t.ident.hash == op.hash
  {
    assert FlightOk(w.db, w.flights[f]);
  }

  lemma LandUnchanged(w: World, f: nat, t: Tx, completedAt: Time)
    requires WorldInv(w) && InboxWrite(w, f, completedAt) && t.ident.id in w.db.txs
    ensures WorldInv(Landed(WithInbox(w, f, w.flights[f].op.message, t, completedAt), f))
  {
    InboxAfter(w, w.db, f, t, completedAt);
    assert w.(db := w.db) == w;
  }

  lemma ReplayKeeps(w: World, f: nat, completedAt: Time)
    requires WorldInv(w) && CanCommitReplay(w, f, completedAt)
    ensures WorldInv(Landed(WithInbox(w, f, w.flights[f].op.message, Replayed(w.flights[f]), completedAt), f))
  {
    hide WorldInv, EvaluateIdentities, FlightsOk;
    Parts(w);
    ReplayIsStored(w, f, completedAt);
    LandUnchanged(w, f, Replayed(w.flights[f]), completedAt);
  }

  /** Replacing one flight by another with the same operation. */
  ghost predicate Replaces(w: World, f: nat, g: Flight) {
    && f in w.flights && g.op == w.flights[f].op && FlightOk(w.db, g)
    && (g.account.Some? ==> forall h :: h in w.flights && h != f && w.flights[h].account.Some? ==>
                                WalletOf(w.flights[h].op) != WalletOf(g.op))
  }

  lemma FlightsUpdated(w: World, f: nat, g: Flight)
    requires FlightsOk(w) && Replaces(w, f, g)
    ensures FlightsOk(w.(flights := w.flights[f := g]))
  {}

  lemma HoldingsUpdated(w: World, f: nat, g: Flight)
    requires InboxOk(w) && f in w.flights && g.op == w.flights[f].op
    ensures InboxOk(w.(flights := w.flights[f := g]))
  {
    var w' := w.(flights := w.flights[f := g]);
    forall h | h in w'.flights ensures Holding(w'.flights[h]) == Holding(w.flights[h]) {}
  }

  lemma FlightUpdateKeeps(w: World, f: nat, g: Flight)
    requires WorldInv(w) && Replaces(w, f, g)
    ensures WorldInv(w.(flights := w.flights[f := g]))
  {
    FlightsUpdated(w, f, g);
    HoldingsUpdated(w, f, g);
  }

  lemma FlightsBegun(w: World, f: nat, op: Op)
    requires FlightsOk(w) && CanBegin(w, f, op)
    ensures FlightsOk(w.(flights := w.flights[f := NewFlight(op)]))
  {
    assert FlightOk(w.db, NewFlight(op));
  }

  lemma HoldingsBegun(w: World, f: nat, op: Op)
    requires InboxOk(w) && CanBegin(w, f, op)
    ensures InboxOk(w.(flights := w.flights[f := NewFlight(op)]))
  {}

  lemma BeginKeeps(w: World, f: nat, op: Op)
    requires WorldInv(w) && CanBegin(w, f, op)
    ensures WorldInv(w.(flights := w.flights[f := NewFlight(op)]))
  {
    FlightsBegun(w, f, op);
    HoldingsBegun(w, f, op);
  }

  lemma LandKeeps(w: World, f: nat)
    requires WorldInv(w)
    ensures WorldInv(Landed(w, f))
  {}

  lemma ScheduleOnlyEvents(db: Store, tx: string, s: Schedule)
    requires EventsOk(db) && tx in db.sched
    ensures EventsOk(db.(sched := db.sched[tx := s]))
  {
    var db' := db.(sched := db.sched[tx := s]);
    forall k | k in db'.txs ensures WaitTold(db'.events, db'.sched, k) {
      assert WaitTold(db.events, db.sched, k);
    }
    forall id ensures Silent(db', id) {
      assert Silent(db, id);
    }
    assert MovementsTold(db');
  }

  lemma ScheduleOnlyRows(db: Store, sched: map<string, Schedule>)
    requires WalletsOk(db) && TxsOk(db) && ChainsOk(db)
    ensures WalletsOk(db.(sched := sched)) && TxsOk(db.(sched := sched)) && ChainsOk(db.(sched := sched))
  {}

  lemma ScheduleOnlyLedger(db: Store, sched: map<string, Schedule>)
    requires LedgerOk(db) && BalancesOk(db)
    ensures LedgerOk(db.(sched := sched)) && BalancesOk(db.(sched := sched))
  {}

  lemma ScheduleOnlySchedules(db: Store, tx: string, s: Schedule)
    requires SchedulesOk(db) && tx in db.txs && tx in db.sched && ScheduleFits(db.txs[tx], s)
    ensures SchedulesOk(db.(sched := db.sched[tx := s]))
  {}

  lemma ScheduleOnly(db: Store, tx: string, s: Schedule)
    requires Invariant.Inv(db) && tx in db.txs && tx in db.sched && ScheduleFits(db.txs[tx], s)
    ensures Invariant.Inv(db.(sched := db.sched[tx := s]))
  {
    ScheduleOnlySchedules(db, tx, s);
    ScheduleOnlyEvents(db, tx, s);
    ScheduleOnlyRows(db, db.sched[tx := s]);
    ScheduleOnlyLedger(db, db.sched[tx := s]);
  }

  lemma FlightIgnoresSchedule(db: Store, tx: string, s: Schedule, f: Flight)
    requires FlightOk(db, f) && (f.op.Wake? && f.awaiting.Some? ==> f.op.tx != tx)
    ensures FlightOk(db.(sched := db.sched[tx := s]), f)
  {}

  /** No transaction in flight holds the row. */
  ghost predicate RowUnlocked(w: World, tx: string) {
    forall f :: f in w.flights && w.flights[f].op.Wake? && w.flights[f].awaiting.Some? ==> w.flights[f].op.tx != tx
  }

  lemma ScheduleOnlyFlights(w: World, tx: string, s: Schedule)
    requires FlightsOk(w) && RowUnlocked(w, tx)
    ensures FlightsOk(w.(db := w.db.(sched := w.db.sched[tx := s])))
  {
    forall f | f in w.flights ensures FlightOk(w.db.(sched := w.db.sched[tx := s]), w.flights[f]) {
      FlightIgnoresSchedule(w.db, tx, s, w.flights[f]);
    }
  }

  lemma ScheduleOnlyTables(w: World, tx: string, s: Schedule)
    requires InboxOk(w) && Queued(w)
    ensures InboxOk(w.(db := w.db.(sched := w.db.sched[tx := s]))) && Queued(w.(db := w.db.(sched := w.db.sched[tx := s])))
  {}

  /** Changing the schedule columns of one waiting row that no flight holds. */
  lemma ScheduleKeeps(w: World, tx: string, s: Schedule)
    requires WorldInv(w) && tx in w.db.txs && tx in w.db.sched && RowUnlocked(w, tx)
    requires ScheduleFits(w.db.txs[tx], s) && (s.token.Some? ==> s.token.value in w.tokens)
    ensures WorldInv(w.(db := w.db.(sched := w.db.sched[tx := s])))
  {
    hide Invariant.Inv, FlightsOk, InboxOk, Queued, Outbox.Inv;
    ScheduleOnly(w.db, tx, s);
    ScheduleOnlyFlights(w, tx, s);
    ScheduleOnlyTables(w, tx, s);
  }

  lemma TokenAddedKeeps(w: World, tokens: set<string>)
    requires WorldInv(w) && w.tokens <= tokens
    ensures WorldInv(w.(tokens := tokens))
  {}

  // ----- The whole step -----

  lemma LookupReplaces(w: World, f: nat, byKey: Option<Option<Tx>>, byExternal: Option<Option<Tx>>)
    requires FlightsOk(w) && f in w.flights && w.flights[f].op.Submit? && w.flights[f].byExternal.None?
    requires byExternal.Some? ==> byKey.Some?
    requires IdentitiesOk(w.db, w.flights[f].(byKey := byKey, byExternal := byExternal))
    ensures Replaces(w, f, w.flights[f].(byKey := byKey, byExternal := byExternal))
  {
    assert FlightOk(w.db, w.flights[f]);
    assert w.flights[f].reference.None?;
  }

  lemma LockReplaces(w: World, f: nat)
    requires FlightsOk(w) && CanLock(w, f)
    ensures Replaces(w, f, w.flights[f].(account := Some(w.db.wallets[WalletOf(w.flights[f].op)]), byKey := None, byExternal := None))
  {
    assert FlightOk(w.db, w.flights[f]);
  }

  lemma LockRowReplaces(w: World, f: nat)
    requires FlightsOk(w) && ReferencesOk(w.db.txs) && CanLockRow(w, f)
    ensures var id := w.flights[f].op.tx;
            Replaces(w, f, w.flights[f].(awaiting := Some(Awaiting(w.db.txs[id], w.db.sched[id].attempts, w.db.sched[id].expiresAt, w.clock))))
  {
    assert FlightOk(w.db, w.flights[f]);
    assert w.flights[f].reference.None?;
  }

  lemma ReadReferenceReplaces(w: World, f: nat, answer: Option<Tx>)
    requires FlightsOk(w) && RowsOk(w.db) && f in w.flights && Prepared(w.flights[f]) && w.flights[f].reference.None?
    requires var i := Subject(w.flights[f]).ident;
             if i.reference == "" then answer.None? else ExternalAnswer(w.db.txs, i.provider, i.reference, answer)
    ensures Replaces(w, f, w.flights[f].(reference := Some(answer)))
  {
    assert FlightOk(w.db, w.flights[f]);
    if answer.Some? {
      assert RowOk(w.db.wallets, w.db.txs[answer.value.ident.id]);
    }
  }

  lemma ReadReversalReplaces(w: World, f: nat)
    requires FlightsOk(w) && f in w.flights && Prepared(w.flights[f])
    requires w.flights[f].reference.Some? && w.flights[f].reference.value.Some?
    ensures Replaces(w, f, w.flights[f].(reversed := Some(HasReversal(w.db.txs, w.flights[f].reference.value.value.ident.id))))
  {
    assert FlightOk(w.db, w.flights[f]);
  }

  /** After its flight is gone, nobody else holds the row: its lock went with the wallet's. */
  lemma RowFreeAfterLanding(w: World, f: nat)
    requires FlightsOk(w) && RowsOk(w.db) && f in w.flights && w.flights[f].op.Wake? && w.flights[f].awaiting.Some?
    ensures RowUnlocked(Landed(w, f), w.flights[f].op.tx)
    ensures w.flights[f].op.tx in w.db.txs && w.flights[f].op.tx in w.db.sched
    ensures w.db.txs[w.flights[f].op.tx].status.PendingReference?
    ensures w.db.sched[w.flights[f].op.tx].expiresAt == w.flights[f].awaiting.value.expiresAt
  {
    assert FlightOk(w.db, w.flights[f]);
    forall g | g in w.flights && g != f && w.flights[g].op.Wake? && w.flights[g].awaiting.Some?
      ensures w.flights[g].op.tx != w.flights[f].op.tx
    {
      assert FlightOk(w.db, w.flights[g]);
    }
  }

  lemma RescheduleKeeps(w: World, f: nat, next: Time)
    requires WorldInv(w) && f in w.flights && w.flights[f].op.Wake? && w.flights[f].awaiting.Some?
    requires next <= w.flights[f].awaiting.value.expiresAt && w.flights[f].op.tx in w.db.sched
    ensures WorldInv(Landed(w.(db := w.db.(sched := w.db.sched[w.flights[f].op.tx := Rescheduled(w.db.sched[w.flights[f].op.tx], next)])), f))
  {
    hide WorldInv, FlightsOk, WalletsOk, SchedulesOk, ReferencesOk, OneReversal, RowsOk, RowUnlocked;
    Parts(w);
    var tx := w.flights[f].op.tx;
    RowFreeAfterLanding(w, f);
    LandKeeps(w, f);
    ScheduleKeeps(Landed(w, f), tx, Rescheduled(w.db.sched[tx], next));
  }

  lemma ClaimedRowUnlocked(w: World, tx: string, token: string)
    requires FlightsOk(w) && CanClaim(w, tx, token)
    ensures RowUnlocked(w, tx)
  {
    forall f | f in w.flights && w.flights[f].op.Wake? && w.flights[f].awaiting.Some? ensures w.flights[f].op.tx != tx {
      assert FlightOk(w.db, w.flights[f]);
    }
  }

  lemma LeaseFits(db: Store, tx: string, token: string, until: Time)
    requires SchedulesOk(db) && tx in db.txs && tx in db.sched && db.txs[tx].status.PendingReference?
    ensures ScheduleFits(db.txs[tx], Leased(db.sched[tx], token, until))
  {}

  lemma ClaimStep(w: World, a: Action, w': World)
    requires WorldInv(w) && a.ClaimReference? && Step(w, a, w')
    ensures WorldInv(w')
  {
    hide WorldInv, FlightsOk, SchedulesOk, WalletsOk, TxsOk;
    Parts(w);
    var until := w.clock + a.leaseMillis * 1_000_000;
    ClaimedRowUnlocked(w, a.tx, a.token);
    LeaseFits(w.db, a.tx, a.token, until);
    TokenAddedKeeps(w, w.tokens + {a.token});
    ScheduleKeeps(w.(tokens := w.tokens + {a.token}), a.tx, Leased(w.db.sched[a.tx], a.token, until));
  }

  lemma ReadKeyStep(w: World, a: Action, w': World)
    requires WorldInv(w) && a.ReadKey? && Step(w, a, w')
    ensures WorldInv(w')
  {
    hide WorldInv, WalletsOk, TxsOk, SchedulesOk;
    Parts(w);
    var f := a.f;
    assert FlightOk(w.db, w.flights[f]);
    LookupReplaces(w, f, Some(a.answer), w.flights[f].byExternal);
    FlightUpdateKeeps(w, f, w.flights[f].(byKey := Some(a.answer)));
  }

  lemma ReadExternalStep(w: World, a: Action, w': World)
    requires WorldInv(w) && a.ReadExternal? && Step(w, a, w')
    ensures WorldInv(w')
  {
    hide WorldInv, WalletsOk, TxsOk, SchedulesOk;
    Parts(w);
    var f := a.f;
    assert FlightOk(w.db, w.flights[f]);
    LookupReplaces(w, f, w.flights[f].byKey, Some(a.answer));
    FlightUpdateKeeps(w, f, w.flights[f].(byExternal := Some(a.answer)));
  }

  lemma LockStep(w: World, a: Action, w': World)
    requires WorldInv(w) && a.Lock? && Step(w, a, w')
    ensures WorldInv(w')
  {
    hide WorldInv;
    Parts(w);
    LockReplaces(w, a.f);
    FlightUpdateKeeps(w, a.f, w'.flights[a.f]);
  }

  lemma LockRowStep(w: World, a: Action, w': World)
    requires WorldInv(w) && a.LockRow? && Step(w, a, w')
    ensures WorldInv(w')
  {
    hide WorldInv;
    Parts(w);
    LockRowReplaces(w, a.f);
    FlightUpdateKeeps(w, a.f, w'.flights[a.f]);
  }

  lemma ReadReferenceStep(w: World, a: Action, w': World)
    requires WorldInv(w) && a.ReadReference? && Step(w, a, w')
    ensures WorldInv(w')
  {
    hide WorldInv;
    Parts(w);
    ReadReferenceReplaces(w, a.f, a.answer);
    FlightUpdateKeeps(w, a.f, w'.flights[a.f]);
  }

  lemma ReadReversalStep(w: World, a: Action, w': World)
    requires WorldInv(w) && a.ReadReversal? && Step(w, a, w')
    ensures WorldInv(w')
  {
    hide WorldInv;
    Parts(w);
    ReadReversalReplaces(w, a.f);
    FlightUpdateKeeps(w, a.f, w'.flights[a.f]);
  }

  lemma ReplayStep(w: World, a: Action, w': World)
    requires WorldInv(w) && a.CommitReplay? && Step(w, a, w')
    ensures WorldInv(w')
  {
    hide WorldInv, EvaluateIdentities;
    ReplayKeeps(w, a.f, a.completedAt);
  }

  lemma RescheduleStep(w: World, a: Action, w': World)
    requires WorldInv(w) && a.Reschedule? && Step(w, a, w')
    ensures WorldInv(w')
  {
    hide WorldInv;
    var wait := w.flights[a.f].awaiting.value;
    RescheduleKeeps(w, a.f, Backoff.Min(wait.now + a.delay, wait.expiresAt));
  }

  lemma BeginStep(w: World, a: Action, w': World)
    requires WorldInv(w) && a.Begin? && Step(w, a, w')
    ensures WorldInv(w')
  {
    hide WorldInv, Decoded, CanBegin;
    BeginKeeps(w, a.f, a.op);
  }

  lemma OutsideStep(w: World, a: Action, w': World)
    requires WorldInv(w) && (a.Publish? || a.Tick? || a.Abort?) && Step(w, a, w')
    ensures WorldInv(w')
  {
    hide WorldInv, Outbox.Step;
    match a
    case Publish(action, next) => PublishKeeps(w, action, next);
    case Tick(to) => SameRowsKeep(w, w');
    case Abort(f) => LandKeeps(w, f);
  }

  /** Every step of the machine keeps the invariant. */
  lemma StepKeeps(w: World, a: Action, w': World)
    requires WorldInv(w) && Step(w, a, w')
    ensures WorldInv(w')
  {
    hide WorldInv, Step;
    match a
    case Open(_, _, _, _, _) => OpenStep(w, a, w');
    case Begin(_, _) => BeginStep(w, a, w');
    case ReadKey(_, _) => ReadKeyStep(w, a, w');
    case ReadExternal(_, _) => ReadExternalStep(w, a, w');
    case Lock(_) => LockStep(w, a, w');
    case LockRow(_) => LockRowStep(w, a, w');
    case ReadReference(_, _) => ReadReferenceStep(w, a, w');
    case ReadReversal(_) => ReadReversalStep(w, a, w');
    case CommitNew(_, _, _, _) => CommitNewStep(w, a, w');
    case CommitReplay(_, _) => ReplayStep(w, a, w');
    case CommitWake(_, _) => CommitWakeStep(w, a, w');
    case Reschedule(_, _) => RescheduleStep(w, a, w');
    case ClaimReference(_, _, _) => ClaimStep(w, a, w');
    case Recognise(_, _) => ConsumerStep(w, a, w');
    case Answer(_) => ConsumerStep(w, a, w');
    case Acknowledge(_) => ConsumerStep(w, a, w');
    case Forget(_) => ConsumerStep(w, a, w');
    case _ => OutsideStep(w, a, w');
  }

  /** The flights' part looks at rows and flights only, the rest of the invariant not at the clock. */
  lemma SameRowsKeep(w: World, w': World)
    requires WorldInv(w) && w' == w.(consumers := w'.consumers, acked := w'.acked, clock := w'.clock)
    ensures WorldInv(w')
  {
    hide FlightsOk, Invariant.Inv, Outbox.Inv;
    FlightsFrame(w, w');
  }

  lemma PublishKeeps(w: World, action: Outbox.Action, next: Outbox.State)
    requires WorldInv(w) && Outbox.Step(w.outbox, action, next)
    ensures WorldInv(w.(outbox := next))
  {
    Outbox.StepKeepsInv(w.outbox, action, next);
  }

  // ----- Runs -----

  /** A run: states joined by actions, from an initial state. */
  ghost predicate Run(ws: seq<World>, acts: seq<Action>) {
    && |ws| == |acts| + 1 && Init(ws[0])
    && forall i :: 0 <= i < |acts| ==> Step(ws[i], acts[i], ws[i + 1])
  }

  /** Every reachable state satisfies the invariant. */
  lemma {:induction false} Reachable(ws: seq<World>, acts: seq<Action>, i: nat)
    requires Run(ws, acts) && i < |ws|
    ensures WorldInv(ws[i])
  {
    hide WorldInv, Step, Init;
    if i == 0 {
      InitInv(ws[0]);
    } else {
      Reachable(ws, acts, i - 1);
      StepKeeps(ws[i - 1], acts[i - 1], ws[i]);
    }
  }
}
