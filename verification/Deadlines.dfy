/** Every waiting transaction ends: its attempts are bounded, and after its deadline every attempt
    completes it, whatever its reference does. */
module Deadlines {
  import opened Text
  import opened Wrappers
  import opened Monetary
  import opened Model
  import opened Settlement
  import opened Store
  import opened Invariant
  import opened Soundness
  import opened Engine
  import opened Machine
  import opened Safety
  import opened Runs
  import opened Leases
  import opened Backoff

  // ----- Pace -----

  /** The earliest time for the next attempt after `attempts` reschedules: one second after the
      wait began plus the delays so far, or the deadline. */
  function Pace(attempts: nat, expiresAt: Time): int {
    Min(expiresAt - TTL + SECOND + TotalDelay(attempts) * SECOND, expiresAt)
  }

  ghost predicate PacedRow(t: Tx, s: Schedule, clock: Time) {
    && s.attempts <= 296
    && (t.status.PendingReference? ==>
          && s.nextAt.Some? && Pace(s.attempts, s.expiresAt) <= s.nextAt.value
          && (s.token.Some? ==> Pace(s.attempts, s.expiresAt) <= clock))
  }

  ghost predicate PacedFlight(f: Flight) {
    f.awaiting.Some? ==> Pace(f.awaiting.value.attempts, f.awaiting.value.expiresAt) <= f.awaiting.value.now
  }

  ghost predicate Paced(w: World) {
    && (forall id :: id in w.db.sched && id in w.db.txs ==> PacedRow(w.db.txs[id], w.db.sched[id], w.clock))
    && (forall f :: f in w.flights ==> PacedFlight(w.flights[f]))
  }

  /** An attempt that reschedules is one of the first 296. */
  lemma PaceGoesOn(attempts: nat, expiresAt: Time, now: Time, delay: Time)
    requires Pace(attempts, expiresAt) <= now < expiresAt && DelaySeconds(attempts + 1) * SECOND <= delay
    ensures attempts <= 295 && Pace(attempts + 1, expiresAt) <= Min(now + delay, expiresAt)
  {
    DelaysWithinTtl(attempts);
  }

  lemma PacedRowKept(w: World, a: Action, w': World, id: string)
    requires SchedulesOk(w.db) && SchedulesOk(w'.db) && RowStep(w, a, w', id) && Paced(w) && w.clock <= w'.clock
    requires id in w'.db.sched && id in w'.db.txs
    ensures PacedRow(w'.db.txs[id], w'.db.sched[id], w'.clock)
  {
    hide SchedulesOk;
    if id !in w.db.txs {
      assert TotalDelay(0) == 0;
    } else if a.Reschedule? && w.flights[a.f].op.tx == id {
      var wait := w.flights[a.f].awaiting.value;
      assert PacedFlight(w.flights[a.f]);
      PaceGoesOn(wait.attempts, wait.expiresAt, wait.now, a.delay);
    } else if id in w.db.sched {
      assert PacedRow(w.db.txs[id], w.db.sched[id], w.clock);
    }
  }

  /** What a flight has locked it keeps, and it locks only rows that are leased. */
  lemma AwaitingStep(w: World, a: Action, w': World, f: nat)
    requires Step(w, a, w') && f in w'.flights && w'.flights[f].awaiting.Some?
    ensures || (f in w.flights && w.flights[f].awaiting == w'.flights[f].awaiting)
            || (a == LockRow(f) && CanLockRow(w, f)
                && w'.flights[f].awaiting.value.attempts == w.db.sched[w.flights[f].op.tx].attempts
                && w'.flights[f].awaiting.value.expiresAt == w.db.sched[w.flights[f].op.tx].expiresAt
                && w'.flights[f].awaiting.value.now == w.clock)
  {
    hide NewChanges, WakeChanges, CanOpen, CanWake, CanCommitNew, CanBegin, Outbox.Step, EvaluateIdentities;
  }

  lemma PacedFlightKept(w: World, a: Action, w': World, f: nat)
    requires Paced(w) && Step(w, a, w') && f in w'.flights
    ensures PacedFlight(w'.flights[f])
  {
    if w'.flights[f].awaiting.Some? {
      AwaitingStep(w, a, w', f);
      hide Step;
      if !(f in w.flights && w.flights[f].awaiting == w'.flights[f].awaiting) {
        var id := w.flights[f].op.tx;
        assert PacedRow(w.db.txs[id], w.db.sched[id], w.clock);
      }
    }
  }

  lemma PacedStep(w: World, a: Action, w': World)
    requires WorldInv(w) && WorldInv(w') && Paced(w) && Step(w, a, w') && w.clock <= w'.clock
    ensures Paced(w')
  {
    hide WorldInv, Step, RowStep, SchedulesOk, PacedRow, PacedFlight;
    Parts(w);
    Parts(w');
    forall id | id in w'.db.sched && id in w'.db.txs ensures PacedRow(w'.db.txs[id], w'.db.sched[id], w'.clock) {
      StepRow(w, a, w', id);
      PacedRowKept(w, a, w', id);
    }
    forall f | f in w'.flights ensures PacedFlight(w'.flights[f]) {
      PacedFlightKept(w, a, w', f);
    }
  }

  /** The database clock never runs backwards along the run. */
  ghost predicate ClockRises(ws: seq<World>) {
    forall i :: 0 < i < |ws| ==> ws[i - 1].clock <= ws[i].clock
  }

  lemma InitPaced(w: World)
    requires Init(w)
    ensures Paced(w)
  {}

  lemma {:induction false} PacedRun(ws: seq<World>, acts: seq<Action>, i: nat)
    requires Run(ws, acts) && ClockRises(ws) && i < |ws|
    ensures Paced(ws[i])
  {
    hide WorldInv, Step, Init, Paced;
    if i == 0 {
      InitPaced(ws[0]);
    } else {
      PacedRun(ws, acts, i - 1);
      Reachable(ws, acts, i - 1);
      Reachable(ws, acts, i);
      PacedStep(ws[i - 1], acts[i - 1], ws[i]);
    }
  }

  // ----- Counting attempts -----

  ghost predicate ReschedulesRow(w: World, a: Action, id: string) {
    a.Reschedule? && a.f in w.flights && w.flights[a.f].op.Wake? && w.flights[a.f].op.tx == id
  }

  /** How often the row was rescheduled before state `n`. */
  ghost function Reschedules(ws: seq<World>, acts: seq<Action>, n: nat, id: string): nat
    requires n <= |acts| <= |ws|
  {
    if n == 0 then 0 else Reschedules(ws, acts, n - 1, id) + if ReschedulesRow(ws[n - 1], acts[n - 1], id) then 1 else 0
  }

  lemma AttemptsAfter(w: World, a: Action, w': World, id: string)
    requires SchedulesOk(w.db) && RowStep(w, a, w', id)
    requires ReschedulesRow(w, a, id) ==> HeldBy(w, a.f, id)
    ensures (if id in w'.db.sched then w'.db.sched[id].attempts else 0)
            == (if id in w.db.sched then w.db.sched[id].attempts else 0) + if ReschedulesRow(w, a, id) then 1 else 0
  {}

  lemma AttemptsStep(w: World, a: Action, w': World, id: string)
    requires WorldInv(w) && Step(w, a, w')
    ensures (if id in w'.db.sched then w'.db.sched[id].attempts else 0)
            == (if id in w.db.sched then w.db.sched[id].attempts else 0) + if ReschedulesRow(w, a, id) then 1 else 0
  {
    hide WorldInv, Step, RowStep, SchedulesOk, FlightsOk;
    Parts(w);
    StepRow(w, a, w', id);
    if a.Reschedule? {
      RescheduleHolds(w, a, w');
    }
    AttemptsAfter(w, a, w', id);
  }

  lemma {:induction false} AttemptsCount(ws: seq<World>, acts: seq<Action>, n: nat, id: string)
    requires Run(ws, acts) && n < |ws|
    ensures Reschedules(ws, acts, n, id) == if id in ws[n].db.sched then ws[n].db.sched[id].attempts else 0
  {
    hide WorldInv, Step, ReschedulesRow;
    if n > 0 {
      AttemptsCount(ws, acts, n - 1, id);
      Reachable(ws, acts, n - 1);
      AttemptsStep(ws[n - 1], acts[n - 1], ws[n], id);
    }
  }

  /** With a database clock that does not run backwards, no transaction is ever rescheduled more
      than 296 times. */
  lemma AtMost296Reschedules(ws: seq<World>, acts: seq<Action>, n: nat, id: string)
    requires Run(ws, acts) && ClockRises(ws) && n < |ws|
    ensures Reschedules(ws, acts, n, id) <= 296
  {
    hide WorldInv, Step, Init;
    AttemptsCount(ws, acts, n, id);
    PacedRun(ws, acts, n);
    Reachable(ws, acts, n);
    Parts(ws[n]);
    if id in ws[n].db.sched {
      assert PacedRow(ws[n].db.txs[id], ws[n].db.sched[id], ws[n].clock);
    }
  }

  // ----- After the deadline -----

  /** The settlement that a complete worker transaction attempts would move its wallet. */
  ghost predicate WakeMoves(f: Flight)
    requires f.op.Wake? && Complete(f)
  {
    var r := Resolve(f.awaiting.value.tx.ident, f.reference.value);
    r.Resolved? && Moves(f.awaiting.value.tx.ident, Some(r.reference), r.failure, ReversedAnswer(f))
  }

  /** A worker that has read its reference reschedules or completes: it reschedules exactly when
      the reference is still open and the deadline has not passed, and otherwise completes, unless
      the movement would need a wallet version past the maximum. */
  lemma WakeIsDecided(w: World, f: nat, ids: Ids)
    requires FlightsOk(w) && WalletsOk(w.db) && TxsOk(w.db) && f in w.flights && w.flights[f].op.Wake? && Complete(w.flights[f])
    requires IdsValid(ids) && ValidUuid(ids.entry)
    ensures var flight := w.flights[f];
            var open := Resolve(flight.awaiting.value.tx.ident, flight.reference.value).Unresolved?;
            var full := WakeMoves(flight) && flight.account.value.version == MAX_INT64;
            && (CanWake(w, f, ids) <==> !full)
            && (CanWake(w, f, ids) ==> (WakeChanges(flight, ids).value.None? <==> open && !Expired(flight)))
            && (open && Expired(flight) ==>
                  CanWake(w, f, ids) && WakeChanges(flight, ids).value.Some?
                  && WakeChanges(flight, ids).value.value.tx.value.status.Rejected?
                  && WakeChanges(flight, ids).value.value.tx.value.failure == Some(ReferenceNotFound))
  {
    var flight := w.flights[f];
    FlightIsOk(w, f);
    WakeBasis(w.db, flight);
    hide FlightOk, FlightsOk, WalletsOk, TxsOk, ValidUuid;
    ResumeDecides(flight.account.value, flight.awaiting.value.tx, flight.reference.value, ReversedAnswer(flight),
                  Expired(flight), ids, WakeTime(flight));
  }

  lemma ResumeDecides(a: WalletRow, t: Tx, found: Option<Tx>, reversed: bool, expired: bool, ids: Ids, now: Time)
    requires Ready(a, t, now) && t.status.PendingReference?
    ensures var r, resolution := Resume(a, t, found, reversed, expired, ids, now), Resolve(t.ident, found);
            var full := a.version == MAX_INT64 && resolution.Resolved?
                        && Moves(t.ident, Some(resolution.reference), resolution.failure, reversed);
            && (r.Ok? <==> !full)
            && (r.Ok? ==> (r.value.None? <==> resolution.Unresolved? && !expired))
            && (resolution.Unresolved? && expired ==>
                  && r.Ok? && r.value.Some? && r.value.value.tx.value.status.Rejected?
                  && r.value.value.tx.value.failure == Some(ReferenceNotFound))
  {
    assert ValidID(t.ident.id) && t.ident.reference != "";
  }

  /** From its deadline on, a waiting row can be claimed whenever no lease runs and nobody holds
      it, whatever its earlier schedule was. */
  lemma ClaimableAfterDeadline(ws: seq<World>, acts: seq<Action>, i: nat, id: string, token: string)
    requires Run(ws, acts) && i < |ws| && id in ws[i].db.txs && ws[i].db.txs[id].status.PendingReference?
    requires token !in ws[i].tokens
    ensures id in ws[i].db.sched
    ensures ws[i].db.sched[id].expiresAt <= ws[i].clock ==>
              (CanClaim(ws[i], id, token) <==>
               && (ws[i].db.sched[id].lockedUntil.None? || ws[i].db.sched[id].lockedUntil.value <= ws[i].clock)
               && forall f :: !HeldBy(ws[i], f, id))
  {
    hide WorldInv, Step, Init, FlightsOk, SchedulesOk, CanClaim, HeldBy;
    Reachable(ws, acts, i);
    Parts(ws[i]);
    OverdueIsClaimable(ws[i], id, token);
  }

  lemma OverdueIsClaimable(w: World, id: string, token: string)
    requires FlightsOk(w) && SchedulesOk(w.db) && id in w.db.txs && w.db.txs[id].status.PendingReference? && token !in w.tokens
    ensures id in w.db.sched
    ensures w.db.sched[id].expiresAt <= w.clock ==>
              (CanClaim(w, id, token) <==>
               && (w.db.sched[id].lockedUntil.None? || w.db.sched[id].lockedUntil.value <= w.clock)
               && forall f :: !HeldBy(w, f, id))
  {
    assert ScheduleFits(w.db.txs[id], w.db.sched[id]);
    hide FlightsOk, SchedulesOk, HeldBy;
    HeldIsLocked(w, id);
  }

  lemma HeldIsLocked(w: World, id: string)
    requires FlightsOk(w)
    ensures (forall f :: !HeldBy(w, f, id)) <==>
            (forall g :: g in w.flights && w.flights[g].awaiting.Some? ==> w.flights[g].awaiting.value.tx.ident.id != id)
  {
    forall g | g in w.flights && w.flights[g].awaiting.Some?
      ensures w.flights[g].op.Wake? && w.flights[g].awaiting.value.tx.ident.id == w.flights[g].op.tx
      ensures HeldBy(w, g, w.flights[g].op.tx)
    {
      assert FlightOk(w.db, w.flights[g]);
      FlightHolds(w, g);
    }
  }
}
