/** A waiting transaction can always be ended after its deadline: the steps that end it, one by one. */
module Progress {
  import opened Text
  import opened Wrappers
  import opened Monetary
  import opened Model
  import opened Settlement
  import opened Store
  import opened Accounting
  import opened Invariant
  import opened Engine
  import opened Machine
  import opened Safety
  import opened Runs
  import opened Leases
  import opened Deadlines
  import Outbox

  /** Steps joined end to end. */
  ghost predicate Path(ws: seq<World>, acts: seq<Action>) {
    |ws| == |acts| + 1 && forall i :: 0 <= i < |acts| ==> Step(ws[i], acts[i], ws[i + 1])
  }

  /** The row waits past its deadline. */
  ghost predicate Overdue(w: World, id: string) {
    && id in w.db.txs && id in w.db.sched && w.db.txs[id].status.PendingReference?
    && w.clock > 0 && w.db.sched[id].expiresAt <= w.clock
  }

  /** No flight other than `f` has locked the wallet. */
  ghost predicate WalletFree(w: World, wallet: string, f: nat) {
    forall g :: g in w.flights && g != f && w.flights[g].account.Some? ==> WalletOf(w.flights[g].op) != wallet
  }

  /** The flight works on the overdue row under a running lease. */
  ghost predicate Waking(w: World, f: nat, id: string, token: string) {
    && WorldInv(w) && Overdue(w, id)
    && w.db.sched[id].token == Some(token) && w.db.sched[id].lockedUntil.Some? && w.db.sched[id].lockedUntil.value > w.clock
    && f in w.flights && w.flights[f].op == Wake(id, w.db.txs[id].ident.wallet, token)
    && WalletFree(w, w.db.txs[id].ident.wallet, f)
  }

  /** Only the flight `f` is different. */
  ghost predicate OnlyFlight(w: World, w': World, f: nat) {
    f in w'.flights && w' == w.(flights := w.flights[f := w'.flights[f]])
  }

  ghost predicate SameTables(w: World, w': World, f: nat) {
    w'.db == w.db && w'.outbox == w.outbox && w'.clock == w.clock && f in w'.flights
  }

  lemma WakingStays(w: World, a: Action, w': World, f: nat, id: string, token: string)
    requires Waking(w, f, id, token) && Step(w, a, w') && OnlyFlight(w, w', f) && w'.flights[f].op == w.flights[f].op
    ensures Waking(w', f, id, token)
  {
    hide WorldInv, Step;
    StepKeeps(w, a, w');
  }

  lemma RowUnheld(w: World, id: string)
    requires FlightsOk(w) && TxsOk(w.db) && id in w.db.txs
    requires forall g :: g in w.flights && w.flights[g].account.Some? ==> WalletOf(w.flights[g].op) != w.db.txs[id].ident.wallet
    ensures forall g :: g in w.flights && w.flights[g].awaiting.Some? ==> w.flights[g].awaiting.value.tx.ident.id != id
  {
    forall g | g in w.flights && w.flights[g].awaiting.Some? ensures w.flights[g].awaiting.value.tx.ident.id != id {
      assert FlightOk(w.db, w.flights[g]);
    }
  }

  function AfterClaim(w: World, id: string, token: string): World
    requires id in w.db.sched
  {
    w.(tokens := w.tokens + {token}, db := w.db.(sched := w.db.sched[id := Leased(w.db.sched[id], token, w.clock + 1_000_000)]))
  }

  lemma ClaimEnabled(w: World, id: string, token: string)
    requires CanClaim(w, id, token)
    ensures Step(w, ClaimReference(id, token, 1), AfterClaim(w, id, token))
  {}

  lemma RowClaimable(w: World, f: nat, id: string, token: string)
    requires FlightsOk(w) && TxsOk(w.db) && SchedulesOk(w.db) && Overdue(w, id) && token !in w.tokens && f !in w.flights
    requires w.db.sched[id].lockedUntil.None? || w.db.sched[id].lockedUntil.value <= w.clock
    requires WalletFree(w, w.db.txs[id].ident.wallet, f)
    ensures CanClaim(w, id, token)
  {
    hide FlightsOk, TxsOk, SchedulesOk;
    RowUnheld(w, id);
    hide CanClaim;
    HeldIsLocked(w, id);
    OverdueIsClaimable(w, id, token);
  }

  /** Claim the row with a lease of one millisecond. */
  lemma CanStart(w: World, f: nat, id: string, token: string) returns (w': World)
    requires WorldInv(w) && Overdue(w, id) && token !in w.tokens && f !in w.flights
    requires w.db.sched[id].lockedUntil.None? || w.db.sched[id].lockedUntil.value <= w.clock
    requires WalletFree(w, w.db.txs[id].ident.wallet, f)
    ensures Step(w, ClaimReference(id, token, 1), w') && WorldInv(w') && Overdue(w', id)
    ensures w'.db == w.db.(sched := w'.db.sched) && w'.outbox == w.outbox && w'.flights == w.flights
    ensures w'.db.sched[id].token == Some(token) && w'.db.sched[id].lockedUntil.Some? && w'.db.sched[id].lockedUntil.value > w'.clock
  {
    hide WorldInv, FlightsOk, WalletsOk, TxsOk, SchedulesOk, Step, CanClaim;
    Parts(w);
    RowClaimable(w, f, id, token);
    ClaimEnabled(w, id, token);
    w' := AfterClaim(w, id, token);
    StepKeeps(w, ClaimReference(id, token, 1), w');
  }

  lemma BeginEnabled(w: World, f: nat, op: Op)
    requires op.Wake? && f !in w.flights
    ensures Step(w, Begin(f, op), w.(flights := w.flights[f := NewFlight(op)]))
  {}

  lemma CanBeginWake(w: World, f: nat, id: string, token: string) returns (w': World)
    requires WorldInv(w) && Overdue(w, id) && f !in w.flights && WalletFree(w, w.db.txs[id].ident.wallet, f)
    requires w.db.sched[id].token == Some(token) && w.db.sched[id].lockedUntil.Some? && w.db.sched[id].lockedUntil.value > w.clock
    ensures Step(w, Begin(f, Wake(id, w.db.txs[id].ident.wallet, token)), w') && Waking(w', f, id, token)
    ensures SameTables(w, w', f) && w'.flights[f] == NewFlight(Wake(id, w.db.txs[id].ident.wallet, token))
  {
    hide WorldInv, Step;
    var op := Wake(id, w.db.txs[id].ident.wallet, token);
    BeginEnabled(w, f, op);
    w' := w.(flights := w.flights[f := NewFlight(op)]);
    StepKeeps(w, Begin(f, op), w');
  }

  lemma WalletKnown(w: World, id: string)
    requires TxsOk(w.db) && id in w.db.txs
    ensures w.db.txs[id].ident.wallet in w.db.wallets
  {
    assert RowOk(w.db.wallets, w.db.txs[id]);
  }

  lemma CanLockWallet(w: World, f: nat, id: string, token: string) returns (w': World)
    requires Waking(w, f, id, token) && w.flights[f].account.None?
    ensures Step(w, Lock(f), w') && Waking(w', f, id, token) && SameTables(w, w', f)
    ensures w.db.txs[id].ident.wallet in w.db.wallets
    ensures w'.flights[f] == w.flights[f].(account := Some(w.db.wallets[w.db.txs[id].ident.wallet]), byKey := None, byExternal := None)
  {
    hide WorldInv, FlightsOk, WalletsOk, TxsOk, SchedulesOk;
    Parts(w);
    WalletKnown(w, id);
    w' := w.(flights := w.flights[f := w.flights[f].(account := Some(w.db.wallets[w.db.txs[id].ident.wallet]), byKey := None, byExternal := None)]);
    WakingStays(w, Lock(f), w', f, id, token);
  }

  lemma CanLockWaiting(w: World, f: nat, id: string, token: string) returns (w': World)
    requires Waking(w, f, id, token) && w.flights[f].account.Some? && w.flights[f].awaiting.None?
    ensures Step(w, LockRow(f), w') && Waking(w', f, id, token) && SameTables(w, w', f)
    ensures w'.flights[f] == w.flights[f].(awaiting := Some(Awaiting(w.db.txs[id], w.db.sched[id].attempts, w.db.sched[id].expiresAt, w.clock)))
  {
    hide WorldInv;
    w' := w.(flights := w.flights[f := w.flights[f].(
               awaiting := Some(Awaiting(w.db.txs[id], w.db.sched[id].attempts, w.db.sched[id].expiresAt, w.clock)))]);
    WakingStays(w, LockRow(f), w', f, id, token);
  }

  /** Some answer is right. */
  lemma AnswerExists(txs: map<string, Tx>, provider: string, external: string) returns (answer: Option<Tx>)
    requires forall k :: k in txs ==> txs[k].ident.id == k
    ensures ExternalAnswer(txs, provider, external, answer)
  {
    answer := None;
    if k :| k in txs && SameExternal(txs[k].ident, provider, external) {
      answer := Some(txs[k]);
    }
  }

  lemma ReadEnabled(w: World, f: nat) returns (answer: Option<Tx>)
    requires ReferencesOk(w.db.txs) && f in w.flights && Prepared(w.flights[f]) && w.flights[f].reference.None?
    ensures Step(w, ReadReference(f, answer), w.(flights := w.flights[f := w.flights[f].(reference := Some(answer))]))
  {
    var i := Subject(w.flights[f]).ident;
    answer := None;
    if i.reference != "" {
      answer := AnswerExists(w.db.txs, i.provider, i.reference);
    }
  }

  lemma CanRead(w: World, f: nat, id: string, token: string) returns (answer: Option<Tx>, w': World)
    requires Waking(w, f, id, token) && Prepared(w.flights[f]) && w.flights[f].reference.None?
    ensures Step(w, ReadReference(f, answer), w') && Waking(w', f, id, token) && SameTables(w, w', f)
    ensures w'.flights[f] == w.flights[f].(reference := Some(answer))
  {
    hide WorldInv, FlightsOk, WalletsOk, SchedulesOk, ReferencesOk, OneReversal, RowsOk, Step, Prepared;
    Parts(w);
    answer := ReadEnabled(w, f);
    w' := w.(flights := w.flights[f := w.flights[f].(reference := Some(answer))]);
    WakingStays(w, ReadReference(f, answer), w', f, id, token);
  }

  lemma CanAskReversal(w: World, f: nat, id: string, token: string) returns (w': World)
    requires Waking(w, f, id, token) && Prepared(w.flights[f]) && w.flights[f].reversed.None?
    requires w.flights[f].reference.Some? && w.flights[f].reference.value.Some?
    ensures Step(w, ReadReversal(f), w') && Waking(w', f, id, token) && SameTables(w, w', f)
    ensures exists b :: w'.flights[f] == w.flights[f].(reversed := Some(b))
  {
    hide WorldInv;
    w' := w.(flights := w.flights[f := w.flights[f].(reversed := Some(HasReversal(w.db.txs, w.flights[f].reference.value.value.ident.id)))]);
    WakingStays(w, ReadReversal(f), w', f, id, token);
  }

  /** The drawn event ids are new. */
  ghost predicate IdsFresh(s: Outbox.State, ids: Ids) {
    IdsValid(ids) && ValidUuid(ids.entry) && ids.status !in s.rows && ids.balance !in s.rows && ids.status != ids.balance
  }

  lemma SettledEventsFresh(s: Outbox.State, a: WalletRow, t: Tx, found: Option<Tx>, reversed: bool, expired: bool, ids: Ids, now: Time)
    requires Ready(a, t, now) && t.status.PendingReference? && IdsFresh(s, ids)
    ensures var r := Resume(a, t, found, reversed, expired, ids, now);
            r.Ok? && r.value.Some? ==> Outbox.EventsFresh(s, r.value.value.events)
  {}

  lemma CanComplete(w: World, f: nat, id: string, token: string, ids: Ids) returns (w': World)
    requires Waking(w, f, id, token) && Complete(w.flights[f]) && Expired(w.flights[f]) && IdsFresh(w.outbox, ids)
    requires w.flights[f].account.value.version < MAX_INT64
    ensures Step(w, CommitWake(f, ids), w') && id in w'.db.txs && w'.db.txs[id].status.Terminal()
  {
    hide WorldInv, FlightsOk, WalletsOk, TxsOk, SchedulesOk, Resume, Moves, Resolve;
    Parts(w);
    WakeIsDecided(w, f, ids);
    var flight := w.flights[f];
    var c := WakeChanges(flight, ids).value.value;
    SettledEventsFresh(w.outbox, flight.account.value, flight.awaiting.value.tx, flight.reference.value, ReversedAnswer(flight),
                       Expired(flight), ids, WakeTime(flight));
    WakeSubject(w, f, ids);
    w' := Landed(Committed(w, c), f);
    hide Outbox.EventsFresh;
    assert Step(w, CommitWake(f, ids), w');
  }

  /** The flight holds the wallet and the overdue row and has read nothing yet. */
  ghost predicate Holds(fl: Flight, row: WalletRow) {
    fl.op.Wake? && fl.account == Some(row) && fl.awaiting.Some? && Expired(fl) && fl.reference.None? && fl.reversed.None?
  }

  ghost predicate HoldsWallet(fl: Flight, row: WalletRow) {
    fl.op.Wake? && fl.account == Some(row) && fl.awaiting.None? && fl.reference.None? && fl.reversed.None?
  }

  lemma CanHoldWallet(w: World, f: nat, id: string, token: string) returns (w': World)
    requires Waking(w, f, id, token) && w.flights[f] == NewFlight(w.flights[f].op)
    ensures Step(w, Lock(f), w') && Waking(w', f, id, token) && SameTables(w, w', f)
    ensures w.db.txs[id].ident.wallet in w.db.wallets && HoldsWallet(w'.flights[f], w.db.wallets[w.db.txs[id].ident.wallet])
  {
    assert f in w.flights && w.flights[f].op.Wake?;
    hide Waking, Step;
    w' := CanLockWallet(w, f, id, token);
  }

  lemma LockingSuffices(fl: Flight, row: WalletRow, wait: Awaiting)
    requires HoldsWallet(fl, row) && wait.expiresAt <= wait.now
    ensures Holds(fl.(awaiting := Some(wait)), row)
  {}

  lemma CanHoldRow(w: World, f: nat, id: string, token: string, row: WalletRow) returns (w': World)
    requires Waking(w, f, id, token) && HoldsWallet(w.flights[f], row)
    ensures Step(w, LockRow(f), w') && Waking(w', f, id, token) && SameTables(w, w', f) && Holds(w'.flights[f], row)
  {
    assert f in w.flights && id in w.db.txs && id in w.db.sched && w.db.sched[id].expiresAt <= w.clock;
    assert w.flights[f].account.Some? && w.flights[f].awaiting.None?;
    hide Waking, Step, HoldsWallet, Holds;
    w' := CanLockWaiting(w, f, id, token);
    LockingSuffices(w.flights[f], row, Awaiting(w.db.txs[id], w.db.sched[id].attempts, w.db.sched[id].expiresAt, w.clock));
  }

  /** The flight has read everything that it needs. */
  ghost predicate Informed(w: World, w': World, f: nat, id: string, token: string, row: WalletRow) {
    && Waking(w', f, id, token) && Complete(w'.flights[f]) && Expired(w'.flights[f]) && w'.outbox == w.outbox
    && w'.flights[f].account == Some(row)
  }

  /** The reference has been read; the question about its reversal has not been asked. */
  ghost predicate HasRead(fl: Flight, row: WalletRow, answer: Option<Tx>) {
    && Prepared(fl) && fl.op.Wake? && fl.account == Some(row) && Expired(fl)
    && fl.reference == Some(answer) && fl.reversed.None? && (answer.None? ==> Complete(fl))
  }

  lemma ReadingSuffices(fl: Flight, row: WalletRow, answer: Option<Tx>)
    requires Holds(fl, row)
    ensures Prepared(fl) && HasRead(fl.(reference := Some(answer)), row, answer)
  {}

  lemma AskingSuffices(fl: Flight, row: WalletRow, answer: Option<Tx>, b: bool)
    requires HasRead(fl, row, answer)
    ensures var h := fl.(reversed := Some(b)); Complete(h) && Expired(h) && h.account == Some(row)
  {}

  lemma CanReadOn(w: World, f: nat, id: string, token: string, row: WalletRow) returns (answer: Option<Tx>, w': World)
    requires Waking(w, f, id, token) && Holds(w.flights[f], row)
    ensures Step(w, ReadReference(f, answer), w') && Waking(w', f, id, token) && SameTables(w, w', f)
    ensures HasRead(w'.flights[f], row, answer)
  {
    assert f in w.flights && w.flights[f].reference.None?;
    hide Waking, Step, Holds, HasRead, Prepared;
    ReadingSuffices(w.flights[f], row, None);
    answer, w' := CanRead(w, f, id, token);
    ReadingSuffices(w.flights[f], row, answer);
  }

  lemma CanAskOn(w: World, f: nat, id: string, token: string, row: WalletRow, answer: Option<Tx>) returns (w': World)
    requires Waking(w, f, id, token) && HasRead(w.flights[f], row, answer) && answer.Some?
    ensures Step(w, ReadReversal(f), w') && Informed(w, w', f, id, token, row)
  {
    assert f in w.flights;
    hide Waking, Step, Complete;
    w' := CanAskReversal(w, f, id, token);
    hide HasRead, Prepared, Expired;
    var b :| w'.flights[f] == w.flights[f].(reversed := Some(b));
    AskingSuffices(w.flights[f], row, answer, b);
  }

  lemma CanInform(w: World, f: nat, id: string, token: string, row: WalletRow) returns (ws: seq<World>, acts: seq<Action>)
    requires Waking(w, f, id, token) && Holds(w.flights[f], row)
    ensures Path(ws, acts) && ws[0] == w && Informed(w, ws[|ws| - 1], f, id, token, row)
  {
    hide Waking, Step, Complete, Prepared, Expired, Holds;
    var answer, w1 := CanReadOn(w, f, id, token, row);
    ws, acts := [w, w1], [ReadReference(f, answer)];
    if answer.Some? {
      hide HasRead;
      var w2 := CanAskOn(w1, f, id, token, row, answer);
      ws, acts := [w, w1, w2], [ReadReference(f, answer), ReadReversal(f)];
    }
  }

  lemma CanPrepare(w: World, f: nat, id: string, token: string) returns (ws: seq<World>, acts: seq<Action>)
    requires Waking(w, f, id, token) && w.flights[f] == NewFlight(w.flights[f].op)
    ensures Path(ws, acts) && ws[0] == w
    ensures w.db.txs[id].ident.wallet in w.db.wallets
    ensures Informed(w, ws[|ws| - 1], f, id, token, w.db.wallets[w.db.txs[id].ident.wallet])
  {
    hide WorldInv, WalletFree, Step, Holds, HoldsWallet, Complete, Expired;
    var w1 := CanHoldWallet(w, f, id, token);
    var row := w.db.wallets[w.db.txs[id].ident.wallet];
    var w2 := CanHoldRow(w1, f, id, token, row);
    var vs, rest := CanInform(w2, f, id, token, row);
    ws, acts := [w, w1] + vs, [Lock(f), LockRow(f)] + rest;
  }

  /** From any reachable state: once the deadline of a waiting transaction has passed, its lease is
      over, its wallet is not locked and can still count a version, one worker ends it, whatever
      its reference does: missing, waiting itself, or waiting for this very transaction. */
  lemma OverdueCanEnd(w: World, f: nat, id: string, token: string, ids: Ids) returns (ws: seq<World>, acts: seq<Action>)
    requires WorldInv(w) && Overdue(w, id) && token !in w.tokens && f !in w.flights && IdsFresh(w.outbox, ids)
    requires w.db.sched[id].lockedUntil.None? || w.db.sched[id].lockedUntil.value <= w.clock
    requires WalletFree(w, w.db.txs[id].ident.wallet, f)
    requires w.db.txs[id].ident.wallet in w.db.wallets ==> w.db.wallets[w.db.txs[id].ident.wallet].version < MAX_INT64
    ensures Path(ws, acts) && ws[0] == w
    ensures var db' := ws[|ws| - 1].db; id in db'.txs && db'.txs[id].status.Terminal()
  {
    hide WorldInv, Step, Waking;
    var w1 := CanStart(w, f, id, token);
    var w2 := CanBeginWake(w1, f, id, token);
    assert Waking(w2, f, id, token);
    var vs, rest := CanPrepare(w2, f, id, token);
    var w' := CanComplete(vs[|vs| - 1], f, id, token, ids);
    ws := [w, w1] + vs + [w'];
    acts := [ClaimReference(id, token, 1), Begin(f, Wake(id, w1.db.txs[id].ident.wallet, token))] + rest + [CommitWake(f, ids)];
  }
}
