/** The worker that wakes waiting transactions: its claims, its row lock and one pass of its loop. */
module ReferenceWorker {
  import opened Text
  import opened Wrappers
  import opened Monetary
  import opened Model
  import opened Settlement
  import opened Entities
  import opened Engine
  import opened Backoff
  import Machine

  datatype Claim = Claim(tx: string, wallet: string, token: string)

  datatype WorkerError = InvalidClaim | ConcurrentWrite | Resuming(error: EngineError)

  /** The row is waiting, due, and not leased. */
  predicate Due(t: Tx, s: Schedule, now: Time) {
    && t.status.PendingReference? && s.nextAt.Some? && s.nextAt.value <= now
    && (s.lockedUntil.None? || s.lockedUntil.value <= now)
  }

  /** The claim still fences the row. */
  predicate Fences(rows: map<string, Tx>, sched: map<string, Schedule>, claim: Claim) {
    claim.tx in rows && claim.tx in sched && rows[claim.tx].status.PendingReference? && sched[claim.tx].token == Some(claim.token)
  }

  /** `ORDER BY next_attempt_at, id`. */
  predicate Earlier(s: Schedule, id: string, s': Schedule, id': string) {
    s.nextAt.Some? && s'.nextAt.Some?
    && (s.nextAt.value < s'.nextAt.value || (s.nextAt == s'.nextAt && TextLess(id, id')))
  }

  lemma EarlierComposes(r: Schedule, i: string, s: Schedule, j: string, t: Schedule, k: string)
    requires Earlier(r, i, s, j) && Earlier(s, j, t, k)
    ensures Earlier(r, i, t, k)
  {
    if r.nextAt == s.nextAt == t.nextAt {
      TextLessTransitive(i, j, k);
    }
  }

  class ReferenceStore {
    var rows: map<string, Tx>
    var sched: map<string, Schedule>

    constructor (rows: map<string, Tx>, sched: map<string, Schedule>)
      ensures this.rows == rows && this.sched == sched
    {
      this.rows := rows;
      this.sched := sched;
    }

    ghost predicate DueRow(k: string, skipped: set<string>, now: Time)
      reads this
    {
      k in rows && k in sched && k !in skipped && Due(rows[k], sched[k], now)
    }

    /** The due row with the earliest next attempt and then the least id, past the rows that
        others have locked. */
    method Candidate(now: Time, skipped: set<string>) returns (id: Option<string>)
      ensures id.None? <==> forall k :: !DueRow(k, skipped, now)
      ensures id.Some? ==> DueRow(id.value, skipped, now)
      ensures id.Some? ==> forall k :: DueRow(k, skipped, now) && k != id.value ==> Earlier(sched[id.value], id.value, sched[k], k)
    {
      id := None;
      var todo := sched.Keys;
      while todo != {}
        invariant todo <= sched.Keys
        invariant id.None? ==> forall k :: k !in todo ==> !DueRow(k, skipped, now)
        invariant id.Some? ==> DueRow(id.value, skipped, now) && id.value !in todo
        invariant id.Some? ==> forall k :: k !in todo && DueRow(k, skipped, now) && k != id.value ==>
                                 Earlier(sched[id.value], id.value, sched[k], k)
        decreases |todo|
      {
        var k :| k in todo;
        todo := todo - {k};
        if k in rows && k !in skipped && Due(rows[k], sched[k], now) {
          if id.None? {
            id := Some(k);
          } else {
            TextLessTotal(id.value, k);
            if Earlier(sched[k], k, sched[id.value], id.value) {
              forall l | l !in todo && DueRow(l, skipped, now) && l != k && l != id.value ensures Earlier(sched[k], k, sched[l], l) {
                EarlierComposes(sched[k], k, sched[id.value], id.value, sched[l], l);
              }
              id := Some(k);
            }
          }
        }
      }
    }

    /** `Claim`: at most one due row changes, the first in order, and only its lease columns. The
        lease counts in whole milliseconds. */
    method ClaimDue(now: Time, lease: int, token: string, skipped: set<string>) returns (r: Result<Option<Claim>, WorkerError>)
      modifies this`sched
      ensures r.Err? <==> lease <= 0
      ensures r.Err? || r.value.None? ==> sched == old(sched)
      ensures r.Ok? && r.value.None? ==> forall k :: !DueRow(k, skipped, now)
      ensures r.Ok? && r.value.None? ==>
                forall k :: k in rows && k in sched && k !in skipped && rows[k].status == PendingReference && sched[k].nextAt.Some?
                            && sched[k].nextAt.value <= now ==>
                            sched[k].lockedUntil.Some? && now < sched[k].lockedUntil.value
      ensures r.Ok? && r.value.Some? ==>
                && r.value.value.tx in rows && r.value.value.tx in old(sched) && r.value.value.tx in sched
                && var s, s' := old(sched)[r.value.value.tx], sched[r.value.value.tx];
                var until := now + lease / 1_000_000 * 1_000_000;
                && rows[r.value.value.tx].status == PendingReference && s.nextAt.Some? && s.nextAt.value <= now
                && (s.lockedUntil.None? || s.lockedUntil.value <= now)
                && s' == Schedule(s.attempts, Some(if until < s.expiresAt then until else s.expiresAt), s.expiresAt,
                                  Some(token), Some(until))
      ensures r.Ok? && r.value.Some? ==>
                var c := r.value.value;
                && old(DueRow(c.tx, skipped, now)) && c.token == token && c.wallet == rows[c.tx].ident.wallet
                && (forall k :: old(DueRow(k, skipped, now)) && k != c.tx ==> Earlier(old(sched)[c.tx], c.tx, old(sched)[k], k))
                && sched == old(sched)[c.tx := Machine.Leased(old(sched)[c.tx], token, now + lease / 1_000_000 * 1_000_000)]
                && Fences(rows, sched, c)
    {
      if lease <= 0 {
        return Err(InvalidClaim);
      }
      var id := Candidate(now, skipped);
      if id.None? {
        assert forall k :: k in rows && k in sched && k !in skipped && Due(rows[k], sched[k], now) ==> DueRow(k, skipped, now);
        return Ok(None);
      }
      var until := now + lease / 1_000_000 * 1_000_000;
      var s := sched[id.value];
      sched := sched[id.value := s.(token := Some(token), lockedUntil := Some(until), nextAt := Some(Min(until, s.expiresAt)))];
      r := Ok(Some(Claim(id.value, rows[id.value].ident.wallet, token)));
    }

    /** `LockPending`: a worker whose token was replaced, whose lease is over or whose row is
        settled gets nothing. */
    method LockPending(claim: Claim, now: Time) returns (r: Result<Option<Machine.Awaiting>, WorkerError>)
      ensures r == Ok(None) <==>
              !Fences(rows, sched, claim) || sched[claim.tx].lockedUntil.None? || sched[claim.tx].lockedUntil.value <= now
      ensures r != Ok(None) <==>
              && claim.tx in rows && claim.tx in sched && rows[claim.tx].status == PendingReference
              && sched[claim.tx].token == Some(claim.token)
              && sched[claim.tx].lockedUntil.Some? && now < sched[claim.tx].lockedUntil.value
      ensures r.Ok? && r.value.Some? ==>
                && rows[claim.tx].ident.wallet == claim.wallet
                && r.value.value == Machine.Awaiting(rows[claim.tx], sched[claim.tx].attempts, sched[claim.tx].expiresAt, now)
      ensures r.Err? ==> r == Err(InvalidClaim) && claim.tx in rows && rows[claim.tx].ident.wallet != claim.wallet
    {
      if claim.tx !in rows || claim.tx !in sched {
        return Ok(None);
      }
      var t, s := rows[claim.tx], sched[claim.tx];
      if !t.status.PendingReference? || s.token != Some(claim.token) || s.lockedUntil.None? || s.lockedUntil.value <= now {
        return Ok(None);
      }
      if t.ident.wallet != claim.wallet {
        return Err(InvalidClaim);
      }
      r := Ok(Some(Machine.Awaiting(t, s.attempts, s.expiresAt, now)));
    }

    /** `Reschedule`: reports a concurrent write exactly when the token is no longer current. */
    method Reschedule(claim: Claim, next: Time) returns (r: Result<(), WorkerError>)
      modifies this`sched
      ensures r.Ok? <==> next > 0 && old(Fences(rows, sched, claim))
      ensures r.Ok? <==>
              && next > 0 && claim.tx in rows && claim.tx in old(sched) && rows[claim.tx].status == PendingReference
              && old(sched)[claim.tx].token == Some(claim.token)
      ensures r.Ok? ==> sched == old(sched)[claim.tx := Machine.Rescheduled(old(sched)[claim.tx], next)]
      ensures r.Ok? ==> sched[claim.tx] == Schedule(old(sched)[claim.tx].attempts + 1, Some(next), old(sched)[claim.tx].expiresAt, None, None)
      ensures r.Err? ==> sched == old(sched)
    {
      if next == 0 {
        return Err(InvalidClaim);
      }
      if claim.tx !in rows || claim.tx !in sched || !rows[claim.tx].status.PendingReference?
         || sched[claim.tx].token != Some(claim.token) {
        return Err(ConcurrentWrite);
      }
      var s := sched[claim.tx];
      sched := sched[claim.tx := s.(attempts := s.attempts + 1, nextAt := Some(next), token := None, lockedUntil := None)];
      r := Ok(());
    }
  }

  datatype Outcome = Stale | Rescheduled | Completed

  /** The claim fences the row and its lease still runs. */
  predicate Live(rows: map<string, Tx>, sched: map<string, Schedule>, claim: Claim, now: Time) {
    Fences(rows, sched, claim) && sched[claim.tx].lockedUntil.Some? && now < sched[claim.tx].lockedUntil.value
  }

  /** One pass over a claimed row: stale claims do nothing, an open reference before the deadline
      moves the row to its next attempt, anything else settles it as `Resume` says. */
  method WakeClaimed(store: ReferenceStore, session: Session, account: Wallet, claim: Claim, now: Time,
                     jitter: int64 -> int64, ids: Ids)
    returns (r: Result<Outcome, WorkerError>, delay: nat)
    requires forall m: int64 :: m > 0 ==> 0 <= jitter(m) < m
    requires session.changes == NO_CHANGES && IdsValid(ids) && now > 0 && WalletValid(account.Row()) && account.id == claim.wallet
    requires claim.tx in store.rows && store.rows[claim.tx].ident.wallet == claim.wallet ==>
               var t := store.rows[claim.tx];
               TxValid(t) && t.ident.origin.External? && t.refId == "" && t.ident.amount.currency == account.balance.currency
    requires claim.tx in store.sched ==> store.sched[claim.tx].expiresAt > 0
    requires session.answers.reference.Some? ==> TxValid(session.answers.reference.value)
    modifies store`sched, session, account
    ensures r == Ok(Stale) <==> !old(Live(store.rows, store.sched, claim, now))
    ensures r == Err(InvalidClaim) <==>
            old(Live(store.rows, store.sched, claim, now)) && store.rows[claim.tx].ident.wallet != claim.wallet
    ensures old(Live(store.rows, store.sched, claim, now)) && store.rows[claim.tx].ident.wallet == claim.wallet ==>
              var s, t, row := old(store.sched)[claim.tx], store.rows[claim.tx], old(account.Row());
              var at := Max(Max(now, t.updatedAt), row.updatedAt);
              && Ready(row, t, at)
              && var resumed := Resume(row, t, session.answers.reference, session.answers.reversed, s.expiresAt <= now, ids, at);
              && (r == Ok(Rescheduled) <==> now < s.expiresAt && Resolve(t.ident, session.answers.reference).Unresolved?)
              && (r == Ok(Completed) <==> resumed.Ok? && resumed.value.Some?)
              && (r.Err? <==> resumed.Err?)
    ensures r == Ok(Stale) || r.Err? ==> store.sched == old(store.sched)
    ensures r == Ok(Rescheduled) ==>
              && old(Fences(store.rows, store.sched, claim)) && session.changes == NO_CHANGES
              && var s, t := old(store.sched)[claim.tx], store.rows[claim.tx];
              && now < s.expiresAt && Resolve(t.ident, session.answers.reference).Unresolved?
              && DelaySeconds(s.attempts + 1) * SECOND <= delay <= 320 * SECOND
              && store.sched == old(store.sched)[claim.tx := Machine.Rescheduled(s, Min(now + delay, s.expiresAt))]
    ensures r == Ok(Completed) ==>
              && old(Fences(store.rows, store.sched, claim)) && store.sched == old(store.sched)
              && var t, row := store.rows[claim.tx], old(account.Row());
              && var at := Max(Max(now, t.updatedAt), row.updatedAt);
              && Ready(row, t, at)
              && Resume(row, t, session.answers.reference, session.answers.reversed,
                        old(store.sched)[claim.tx].expiresAt <= now, ids, at) == Ok(Some(session.changes))
  {
    hide Settle, TxValid, WalletValid;
    var locked := store.LockPending(claim, now);
    if locked.Err? {
      return Err(locked.error), 0;
    }
    if locked.value.None? {
      return Ok(Stale), 0;
    }
    var pending := locked.value.value;
    var transaction := new Transaction(pending.tx);
    var resumed := ResumePending(session, account, transaction, pending.expiresAt <= now, now, ids);
    if resumed.Err? {
      return Err(Resuming(resumed.error)), 0;
    }
    if resumed.value {
      return Ok(Completed), 0;
    }
    var backoff := WorkerBackoff(pending.attempts + 1, jitter);
    delay := backoff as int;
    var next := now + delay;
    if next > pending.expiresAt {
      next := pending.expiresAt;
    }
    var done := store.Reschedule(claim, next);
    r := if done.Ok? then Ok(Rescheduled) else Err(ConcurrentWrite);
  }

  // ----- The store's methods are steps of the machine -----

  /** The world whose waiting rows are the store's, at the time `now`, with `skipped` locked. */
  ghost predicate Shows(w: Machine.World, rows: map<string, Tx>, sched: map<string, Schedule>, now: Time, skipped: set<string>) {
    && w.db.txs == rows && w.db.sched == sched && w.clock == now
    && forall k :: k in skipped <==>
         exists g :: g in w.flights && w.flights[g].awaiting.Some? && w.flights[g].awaiting.value.tx.ident.id == k
  }

  /** A row is due and unskipped exactly when the machine lets a worker claim it. */
  lemma DueIsClaimable(w: Machine.World, rows: map<string, Tx>, sched: map<string, Schedule>, now: Time, skipped: set<string>,
                       id: string, token: string)
    requires Shows(w, rows, sched, now, skipped) && token !in w.tokens
    ensures Machine.CanClaim(w, id, token) <==> id in rows && id in sched && id !in skipped && Due(rows[id], sched[id], now)
  {
    if id !in skipped {
      assert forall g :: g in w.flights && w.flights[g].awaiting.Some? ==> w.flights[g].awaiting.value.tx.ident.id != id;
    } else {
      var g :| g in w.flights && w.flights[g].awaiting.Some? && w.flights[g].awaiting.value.tx.ident.id == id;
    }
  }

  /** `ClaimDue` takes a claim step of the machine, or none is enabled. */
  method ClaimStep(store: ReferenceStore, ghost w: Machine.World, now: Time, lease: int, token: string, skipped: set<string>)
    returns (r: Result<Option<Claim>, WorkerError>, ghost w': Machine.World)
    requires Shows(w, store.rows, store.sched, now, skipped) && token !in w.tokens && lease > 0
    modifies store`sched
    ensures r.Ok? && w'.db.sched == store.sched
    ensures r.value.Some? ==> Machine.Claims(w, r.value.value.tx, token, lease / 1_000_000, w')
    ensures r.value.None? ==> w' == w && forall id :: !Machine.CanClaim(w, id, token)
  {
    r := store.ClaimDue(now, lease, token, skipped);
    w' := w;
    if r.value.Some? {
      var id := r.value.value.tx;
      DueIsClaimable(w, store.rows, w.db.sched, now, skipped, id, token);
      w' := w.(tokens := w.tokens + {token},
               db := w.db.(sched := w.db.sched[id := Machine.Leased(w.db.sched[id], token, w.clock + lease / 1_000_000 * 1_000_000)]));
    } else {
      forall id ensures !Machine.CanClaim(w, id, token) {
        DueIsClaimable(w, store.rows, store.sched, now, skipped, id, token);
        assert !store.DueRow(id, skipped, now);
      }
    }
  }

  /** Locking the row succeeds exactly when the machine lets the flight lock it. */
  lemma LockIsEnabled(w: Machine.World, f: nat, claim: Claim)
    requires f in w.flights && w.flights[f].op == Machine.Wake(claim.tx, claim.wallet, claim.token)
    requires w.flights[f].account.Some? && w.flights[f].awaiting.None? && w.clock > 0
    ensures Machine.CanLockRow(w, f) <==>
            Live(w.db.txs, w.db.sched, claim, w.clock) && w.db.txs[claim.tx].ident.wallet == claim.wallet
  {}
}
