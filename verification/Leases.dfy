/** Fencing of the reference workers: who may touch a waiting row, and what becomes of it. */
module Leases {
  import opened Wrappers
  import opened Model
  import opened Settlement
  import opened Store
  import opened Accounting
  import opened Invariant
  import opened Engine
  import opened Opening
  import opened Machine
  import opened Safety
  import opened Runs
  import Backoff
  import Outbox

  // ----- The life of one row -----

  /** A worker's flight that holds the row under the row's current token. */
  ghost predicate HeldBy(w: World, f: nat, id: string) {
    && f in w.flights && w.flights[f].op.Wake? && w.flights[f].op.tx == id && w.flights[f].awaiting.Some?
    && id in w.db.txs && id in w.db.sched
    && w.db.txs[id].status.PendingReference? && w.db.txs[id] == w.flights[f].awaiting.value.tx
    && w.db.sched[id].token == Some(w.flights[f].op.token)
    && w.db.sched[id].attempts == w.flights[f].awaiting.value.attempts
    && w.db.sched[id].expiresAt == w.flights[f].awaiting.value.expiresAt
  }

  ghost predicate SameRow(db: Store, db': Store, id: string) {
    && (id in db.txs <==> id in db'.txs) && (id in db.txs ==> db'.txs[id] == db.txs[id])
    && (id in db.sched <==> id in db'.sched) && (id in db.sched ==> db'.sched[id] == db.sched[id])
  }

  /** A new row that waits is due after a second and expires after the time to live. */
  ghost predicate Starts(db': Store, id: string) {
    id in db'.sched ==>
      && id in db'.txs
      && var u := db'.txs[id].updatedAt;
      db'.sched[id] == Schedule(0, Some(u + SECOND), u + TTL, None, None)
  }

  /** Nobody holds the due row and its lease, if any, is over: it is leased under a new token. */
  ghost predicate IsClaimed(w: World, w': World, id: string, token: string, until: Time) {
    && CanClaim(w, id, token) && token in w'.tokens
    && id in w'.db.txs && w'.db.txs[id] == w.db.txs[id]
    && id in w'.db.sched && w'.db.sched[id] == Leased(w.db.sched[id], token, until)
  }

  /** The holder gives the row back before its deadline, to be due after the backoff or at the
      deadline. */
  ghost predicate IsRescheduled(w: World, w': World, id: string, f: nat, delay: Time) {
    && HeldBy(w, f, id) && w.flights[f].awaiting.value.now < w.db.sched[id].expiresAt
    && Backoff.DelaySeconds(w.db.sched[id].attempts + 1) * SECOND <= delay
    && id in w'.db.txs && w'.db.txs[id] == w.db.txs[id] && id in w'.db.sched
    && w'.db.sched[id] == Rescheduled(w.db.sched[id],
                                      Backoff.Min(w.flights[f].awaiting.value.now + delay, w.db.sched[id].expiresAt))
  }

  ghost predicate IsCompleted(w: World, w': World, id: string, f: nat) {
    && HeldBy(w, f, id) && id in w'.db.txs && w'.db.txs[id].status.Terminal()
    && id in w'.db.sched && w'.db.sched[id] == Schedule(w.db.sched[id].attempts, None, w.db.sched[id].expiresAt, None, None)
  }

  /** Everything that one step may do to the row `id`. */
  ghost predicate RowStep(w: World, a: Action, w': World, id: string) {
    if id !in w.db.txs then Starts(w'.db, id)
    else
      match a
      case ClaimReference(tx, token, lease) =>
        if tx == id then IsClaimed(w, w', id, token, w.clock + lease * 1_000_000) else SameRow(w.db, w'.db, id)
      case Reschedule(f, delay) =>
        f in w.flights && w.flights[f].op.Wake?
        && if w.flights[f].op.tx == id then IsRescheduled(w, w', id, f, delay) else SameRow(w.db, w'.db, id)
      case CommitWake(f, _) =>
        f in w.flights && w.flights[f].op.Wake?
        && if w.flights[f].op.tx == id then IsCompleted(w, w', id, f) else SameRow(w.db, w'.db, id)
      case _ => SameRow(w.db, w'.db, id)
  }

  lemma FlightHolds(w: World, f: nat)
    requires FlightsOk(w) && f in w.flights && w.flights[f].op.Wake? && w.flights[f].awaiting.Some?
    ensures HeldBy(w, f, w.flights[f].op.tx)
  {
    assert FlightOk(w.db, w.flights[f]);
  }

  lemma OtherRowsSame(db: Store, c: Changes, id: string)
    requires c.tx.Some? ==> c.tx.value.ident.id != id
    ensures SameRow(db, Commit(db, c), id)
  {}

  lemma OpeningRow(w: World, a: Action, w': World, id: string)
    requires SchedulesOk(w.db) && a.Open? && Step(w, a, w')
    ensures RowStep(w, a, w', id)
  {
    if id in w.db.txs {
      OtherRowsSame(w.db, Opened(a.player, a.initial, a.correlation, a.openIds, a.now), id);
    }
  }

  lemma LegitStarts(db: Store, c: Changes, id: string)
    requires SchedulesOk(db) && Legit(db, c) && id !in db.txs
    ensures Starts(Commit(db, c), id)
  {}

  lemma SubmissionRow(w: World, a: Action, w': World, id: string)
    requires WorldInv(w) && a.CommitNew? && Step(w, a, w')
    ensures RowStep(w, a, w', id)
  {
    hide WorldInv, FlightsOk, Legit, SameRow, Starts, SchedulesOk, WalletsOk, TxsOk;
    Parts(w);
    FlightIsOk(w, a.f);
    NewIsLegit(w, a.f, a.reading, a.ids, a.completedAt);
    hide FlightOk, NewChanges;
    var c := NewChanges(w.flights[a.f], a.reading, a.ids).value;
    if id in w.db.txs {
      OtherRowsSame(w.db, c, id);
    } else {
      LegitStarts(w.db, c, id);
    }
  }

  /** A completed wake writes its own row, settled. */
  lemma WakeSubject(w: World, f: nat, ids: Ids)
    requires FlightsOk(w) && CanWake(w, f, ids) && WakeChanges(w.flights[f], ids).value.Some?
    ensures var c := WakeChanges(w.flights[f], ids).value.value;
            c.tx.Some? && c.tx.value.ident.id == w.flights[f].op.tx && c.tx.value.status.Terminal() && c.schedule.None?
  {
    FlightHolds(w, f);
    assert FlightOk(w.db, w.flights[f]);
  }

  lemma WakeRow(w: World, a: Action, w': World, id: string)
    requires FlightsOk(w) && SchedulesOk(w.db) && a.CommitWake? && Step(w, a, w')
    ensures RowStep(w, a, w', id)
  {
    hide FlightsOk, SameRow;
    FlightHolds(w, a.f);
    WakeSubject(w, a.f, a.ids);
    hide WakeChanges, CanWake;
    if w.flights[a.f].op.tx != id {
      OtherRowsSame(w.db, WakeChanges(w.flights[a.f], a.ids).value.value, id);
    }
  }

  lemma ClaimRow(w: World, a: Action, w': World, id: string)
    requires SchedulesOk(w.db) && a.ClaimReference? && Step(w, a, w')
    ensures RowStep(w, a, w', id)
  {}

  lemma RescheduleRow(w: World, a: Action, w': World, id: string)
    requires FlightsOk(w) && SchedulesOk(w.db) && a.Reschedule? && Step(w, a, w')
    ensures RowStep(w, a, w', id)
  {
    hide FlightsOk;
    FlightHolds(w, a.f);
  }

  lemma IdleRow(w: World, a: Action, w': World, id: string)
    requires SchedulesOk(w.db) && w'.db == w.db
    requires !(a.CommitWake? || a.Reschedule? || a.ClaimReference?)
    ensures RowStep(w, a, w', id)
  {}

  /** A stored row changes only when a worker claims it while it is due, or when the worker that
      holds it under the current token reschedules or completes it. */
  lemma StepRow(w: World, a: Action, w': World, id: string)
    requires WorldInv(w) && Step(w, a, w')
    ensures RowStep(w, a, w', id)
  {
    hide WorldInv, Step, RowStep, FlightsOk, WalletsOk, TxsOk, SchedulesOk;
    Parts(w);
    if a.Open? {
      OpeningRow(w, a, w', id);
    } else if a.CommitNew? {
      SubmissionRow(w, a, w', id);
    } else if a.CommitWake? {
      WakeRow(w, a, w', id);
    } else if a.Reschedule? {
      RescheduleRow(w, a, w', id);
    } else if a.ClaimReference? {
      ClaimRow(w, a, w', id);
    } else {
      OtherWrites(w, a, w');
      IdleRow(w, a, w', id);
    }
  }

  /** Over every run, and whatever stale workers attempt. */
  lemma FencedRow(ws: seq<World>, acts: seq<Action>, i: nat, id: string)
    requires Run(ws, acts) && i < |acts|
    ensures RowStep(ws[i], acts[i], ws[i + 1], id)
  {
    hide WorldInv, Step, Init, RowStep;
    Reachable(ws, acts, i);
    StepRow(ws[i], acts[i], ws[i + 1], id);
  }

  // ----- Holding the lock -----

  lemma OneHolder(w: World, f: nat)
    requires FlightsOk(w) && TxsOk(w.db) && f in w.flights && w.flights[f].op.Wake? && w.flights[f].awaiting.Some?
    ensures forall g :: g != f ==> !HeldBy(w, g, w.flights[f].op.tx)
    ensures forall token :: !CanClaim(w, w.flights[f].op.tx, token)
  {
    RowFreeAfterLanding(w, f);
    assert FlightOk(w.db, w.flights[f]);
    forall g | g != f ensures !HeldBy(w, g, w.flights[f].op.tx) {
      assert g in w.flights ==> g in Landed(w, f).flights;
    }
  }

  /** A worker that holds a row cannot be overtaken, even when the clock passes the end of its
      lease: the row and its token stay as they were locked, nobody else holds or claims it. */
  lemma HolderIsNotOvertaken(ws: seq<World>, acts: seq<Action>, i: nat, f: nat)
    requires Run(ws, acts) && i < |ws| && f in ws[i].flights
    requires ws[i].flights[f].op.Wake? && ws[i].flights[f].awaiting.Some?
    ensures HeldBy(ws[i], f, ws[i].flights[f].op.tx)
    ensures forall g :: g != f ==> !HeldBy(ws[i], g, ws[i].flights[f].op.tx)
    ensures forall token :: !CanClaim(ws[i], ws[i].flights[f].op.tx, token)
  {
    hide WorldInv, Step, Init;
    Reachable(ws, acts, i);
    Parts(ws[i]);
    FlightHolds(ws[i], f);
    OneHolder(ws[i], f);
  }

  /** While a transaction waits its next attempt is set and never past its deadline. */
  lemma DueBeforeDeadline(ws: seq<World>, acts: seq<Action>, i: nat, id: string)
    requires Run(ws, acts) && i < |ws| && id in ws[i].db.txs && ws[i].db.txs[id].status.PendingReference?
    ensures id in ws[i].db.sched && ws[i].db.sched[id].nextAt.Some?
    ensures ws[i].db.sched[id].nextAt.value <= ws[i].db.sched[id].expiresAt
  {
    hide WorldInv, Step, Init;
    Reachable(ws, acts, i);
    Parts(ws[i]);
  }

  /** A row is completed at most once. */
  lemma CompletesOnce(ws: seq<World>, acts: seq<Action>, i: nat, j: nat)
    requires Run(ws, acts) && i < j < |acts| && acts[i].CommitWake? && acts[j].CommitWake?
    ensures acts[i].f in ws[i].flights && acts[j].f in ws[j].flights
    ensures ws[i].flights[acts[i].f].op.Wake? && ws[j].flights[acts[j].f].op.Wake?
    ensures ws[i].flights[acts[i].f].op.tx != ws[j].flights[acts[j].f].op.tx
  {
    hide Step, Init, WalletsGrow, SchedulesGrow;
    assert Step(ws[i], acts[i], ws[i + 1]) && Step(ws[j], acts[j], ws[j + 1]);
    WakeHolds(ws, acts, i);
    WakeHolds(ws, acts, j);
    RunGrows(ws, acts, i + 1, j);
  }

  lemma RescheduleHolds(w: World, a: Action, w': World)
    requires FlightsOk(w) && a.Reschedule? && Step(w, a, w')
    ensures a.f in w.flights && w.flights[a.f].op.Wake? && HeldBy(w, a.f, w.flights[a.f].op.tx)
  {
    hide FlightsOk;
    FlightHolds(w, a.f);
  }

  lemma WakeHolds(ws: seq<World>, acts: seq<Action>, i: nat)
    requires Run(ws, acts) && i < |acts| && acts[i].CommitWake?
    ensures acts[i].f in ws[i].flights && ws[i].flights[acts[i].f].op.Wake?
    ensures IsCompleted(ws[i], ws[i + 1], ws[i].flights[acts[i].f].op.tx, acts[i].f)
  {
    hide WorldInv, Step, Init, IsCompleted, RowStep;
    Reachable(ws, acts, i);
    assert Step(ws[i], acts[i], ws[i + 1]);
    WakeCompletes(ws[i], acts[i], ws[i + 1]);
  }

  lemma WakeCompletes(w: World, a: Action, w': World)
    requires WorldInv(w) && a.CommitWake? && Step(w, a, w')
    ensures a.f in w.flights && w.flights[a.f].op.Wake? && IsCompleted(w, w', w.flights[a.f].op.tx, a.f)
  {
    hide WorldInv, FlightsOk;
    Parts(w);
    FlightHolds(w, a.f);
    hide IsCompleted, SameRow, CanWake, WakeChanges;
    WakeRow(w, a, w', w.flights[a.f].op.tx);
  }

  // ----- Tokens -----

  /** The token was issued once and is not the row's current one. */
  ghost predicate Stale(w: World, id: string, token: string) {
    token in w.tokens && (id in w.db.sched ==> w.db.sched[id].token != Some(token))
  }

  lemma StaleStays(w: World, a: Action, w': World, id: string, token: string)
    requires SchedulesOk(w.db) && RowStep(w, a, w', id) && w.tokens <= w'.tokens && Stale(w, id, token)
    ensures Stale(w', id, token)
  {}

  /** A token that is no longer current never becomes current again: a stale worker can never
      reschedule or complete the row, nor lock it. */
  lemma {:induction false} StaleForever(ws: seq<World>, acts: seq<Action>, i: nat, j: nat, id: string, token: string)
    requires Run(ws, acts) && i <= j < |ws| && Stale(ws[i], id, token)
    ensures Stale(ws[j], id, token)
    ensures forall f :: HeldBy(ws[j], f, id) ==> ws[j].flights[f].op.token != token
  {
    hide WorldInv, Step, Init, RowStep, SchedulesOk;
    if i < j {
      StaleForever(ws, acts, i, j - 1, id, token);
      Reachable(ws, acts, j - 1);
      Parts(ws[j - 1]);
      FencedRow(ws, acts, j - 1, id);
      RunInbox(ws, acts, j - 1, j);
      StaleStays(ws[j - 1], acts[j - 1], ws[j], id, token);
    }
  }
}
