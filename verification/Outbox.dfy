/** Publishing events at least once: claims with leases and tokens, confirmations and retries, over
    every interleaving of workers, crashes and stale claims. */
module Outbox {
  import opened Text
  import opened Wrappers
  import opened Model
  import Monetary
  import Backoff

  /** The delivery columns of an outbox row. */
  datatype Delivery = Delivery(
    occurredAt: Time,
    attempts: nat,
    nextAt: Time,
    token: Option<string>,
    lockedUntil: Option<Time>,
    published: Option<Time>)

  predicate Eligible(d: Delivery, now: Time) {
    d.published.None? && d.nextAt <= now && (d.lockedUntil.None? || d.lockedUntil.value <= now)
  }

  function Leased(d: Delivery, token: string, until: Time): Delivery {
    d.(attempts := d.attempts + 1, nextAt := until, token := Some(token), lockedUntil := Some(until))
  }

  /** The rows that the current token of an unpublished event may still change. */
  predicate Holds(rows: map<string, Delivery>, event: string, token: string) {
    event in rows && rows[event].token == Some(token) && rows[event].published.None?
  }

  function Confirmed(rows: map<string, Delivery>, event: string, token: string, now: Time): map<string, Delivery> {
    if Holds(rows, event, token)
    then rows[event := rows[event].(published := Some(now), token := None, lockedUntil := None)]
    else rows
  }

  function Retried(rows: map<string, Delivery>, event: string, token: string, next: Time): map<string, Delivery> {
    if Holds(rows, event, token)
    then rows[event := rows[event].(nextAt := next, token := None, lockedUntil := None)]
    else rows
  }

  // ----- The store -----

  /** `ORDER BY next_attempt_at, occurred_at, event_id`. */
  predicate Earlier(d: Delivery, id: string, d': Delivery, id': string) {
    || d.nextAt < d'.nextAt
    || (d.nextAt == d'.nextAt && (d.occurredAt < d'.occurredAt || (d.occurredAt == d'.occurredAt && TextLess(id, id'))))
  }

  lemma EarlierComposes(a: Delivery, i: string, b: Delivery, j: string, c: Delivery, k: string)
    requires Earlier(a, i, b, j) && Earlier(b, j, c, k)
    ensures Earlier(a, i, c, k)
  {
    if a.nextAt == b.nextAt == c.nextAt && a.occurredAt == b.occurredAt == c.occurredAt {
      TextLessTransitive(i, j, k);
    }
  }

  class OutboxStore {
    var rows: map<string, Delivery>

    constructor ()
      ensures rows == map[]
    {
      rows := map[];
    }

    ghost predicate EligibleRow(k: string, skipped: set<string>, now: Time)
      reads this
    {
      k in rows && k !in skipped && Eligible(rows[k], now)
    }

    /** The first eligible row that no other transaction has locked. */
    method Candidate(now: Time, skipped: set<string>) returns (event: Option<string>)
      ensures event.None? <==> forall k :: !EligibleRow(k, skipped, now)
      ensures event.Some? ==> EligibleRow(event.value, skipped, now)
      ensures event.Some? ==> forall k :: EligibleRow(k, skipped, now) && k != event.value ==>
                                Earlier(rows[event.value], event.value, rows[k], k)
    {
      event := None;
      var todo := rows.Keys;
      while todo != {}
        invariant todo <= rows.Keys
        invariant event.None? ==> forall k :: k !in todo ==> !EligibleRow(k, skipped, now)
        invariant event.Some? ==> EligibleRow(event.value, skipped, now) && event.value !in todo
        invariant event.Some? ==> forall k :: k !in todo && EligibleRow(k, skipped, now) && k != event.value ==>
                                    Earlier(rows[event.value], event.value, rows[k], k)
        decreases |todo|
      {
        var k :| k in todo;
        todo := todo - {k};
        if k !in skipped && Eligible(rows[k], now) {
          if event.None? {
            event := Some(k);
          } else {
            TextLessTotal(event.value, k);
            if Earlier(rows[k], k, rows[event.value], event.value) {
              forall l | l !in todo && EligibleRow(l, skipped, now) && l != k && l != event.value ensures Earlier(rows[k], k, rows[l], l) {
                EarlierComposes(rows[k], k, rows[event.value], event.value, rows[l], l);
              }
              event := Some(k);
            }
          }
        }
      }
    }

    /** `Claim`: at most one row changes, the first that was unpublished, due and unlocked. A lease
        that is not positive is refused; it counts in whole milliseconds. */
    method Claim(now: Time, lease: int, token: string, skipped: set<string>) returns (ok: bool, event: Option<string>)
      modifies this
      ensures ok <==> lease > 0
      ensures event.None? ==> rows == old(rows) && (ok ==> forall k :: !EligibleRow(k, skipped, now))
      ensures ok && event.None? ==>
                forall k :: k in rows && k !in skipped && rows[k].published.None? && rows[k].nextAt <= now ==>
                            rows[k].lockedUntil.Some? && now < rows[k].lockedUntil.value
      ensures event.Some? ==>
                && lease > 0 && event.value in old(rows) && event.value in rows
                && var d, until := old(rows)[event.value], now + lease / 1_000_000 * 1_000_000;
                && d.published.None? && d.nextAt <= now && (d.lockedUntil.None? || d.lockedUntil.value <= now)
                && rows[event.value] == Delivery(d.occurredAt, d.attempts + 1, until, Some(token), Some(until), None)
      ensures event.Some? ==>
                && ok && old(EligibleRow(event.value, skipped, now))
                && (forall k :: old(EligibleRow(k, skipped, now)) && k != event.value ==>
                      Earlier(old(rows)[event.value], event.value, old(rows)[k], k))
                && rows == old(rows)[event.value := Leased(old(rows)[event.value], token, now + lease / 1_000_000 * 1_000_000)]
    {
      if lease <= 0 {
        return false, None;
      }
      ok := true;
      event := Candidate(now, skipped);
      assert forall k :: k in rows && k !in skipped && Eligible(rows[k], now) ==> EligibleRow(k, skipped, now);
      if event.Some? {
        var until := now + lease / 1_000_000 * 1_000_000;
        var d := rows[event.value];
        rows := rows[event.value := d.(token := Some(token), lockedUntil := Some(until), nextAt := until,
                                       attempts := d.attempts + 1)];
      }
    }

    /** `Confirm`: reports a concurrent write exactly when the token is no longer current. */
    method Confirm(event: string, token: string, now: Time) returns (ok: bool)
      modifies this
      ensures ok <==> Holds(old(rows), event, token)
      ensures rows == Confirmed(old(rows), event, token, now)
      ensures ok <==> event in old(rows) && old(rows)[event].token == Some(token) && old(rows)[event].published.None?
      ensures if ok then rows == old(rows)[event := old(rows)[event].(published := Some(now), token := None, lockedUntil := None)]
              else rows == old(rows)
    {
      ok := event in rows && rows[event].token == Some(token) && rows[event].published.None?;
      if ok {
        rows := rows[event := rows[event].(published := Some(now), token := None, lockedUntil := None)];
      }
    }

    /** `Retry`. */
    method Retry(event: string, token: string, next: Time) returns (ok: bool)
      modifies this
      ensures ok <==> next > 0 && Holds(old(rows), event, token)
      ensures rows == if next > 0 then Retried(old(rows), event, token, next) else old(rows)
      ensures ok <==> next > 0 && event in old(rows) && old(rows)[event].token == Some(token) && old(rows)[event].published.None?
      ensures if ok then rows == old(rows)[event := old(rows)[event].(nextAt := next, token := None, lockedUntil := None)]
              else rows == old(rows)
    {
      if next == 0 {
        return false;
      }
      ok := event in rows && rows[event].token == Some(token) && rows[event].published.None?;
      if ok {
        rows := rows[event := rows[event].(nextAt := next, token := None, lockedUntil := None)];
      }
    }
  }

  datatype Outcome = Refused | Idle | Published | Republished | Retrying | Lost

  /** `ProcessOne`, undisturbed by other workers: an idle pass means that nothing is due; a sent
      event is published and never eligible again; an event that could not be sent is put back
      unleased, to be due after the backoff of its attempt. */
  method ProcessOne(store: OutboxStore, now: Time, lease: int, token: string, skipped: set<string>,
                    sent: bool, finishedAt: Time, jitter: Monetary.int64 -> Monetary.int64)
    returns (outcome: Outcome, event: Option<string>)
    requires forall m: Monetary.int64 :: m > 0 ==> 0 <= jitter(m) < m
    modifies store
    ensures outcome.Refused? <==> lease <= 0
    ensures event.None? <==> outcome.Refused? || outcome.Idle?
    ensures event.None? ==> store.rows == old(store.rows)
    ensures outcome.Idle? ==> forall k :: !store.EligibleRow(k, skipped, now)
    ensures event.Some? ==>
              && old(store.EligibleRow(event.value, skipped, now)) && event.value in store.rows
              && store.rows == old(store.rows)[event.value := store.rows[event.value]]
              && var d, d' := old(store.rows)[event.value], store.rows[event.value];
              && d'.attempts == d.attempts + 1 && d'.token.None? && d'.lockedUntil.None?
              && (outcome.Retrying? <==> !sent) && (outcome.Republished? <==> sent && d.attempts > 0)
              && (d'.published == if sent then Some(finishedAt) else None)
              && (!sent ==> Backoff.DelaySeconds(d'.attempts) * SECOND <= d'.nextAt - finishedAt <= 320 * SECOND)
  {
    var ok;
    ok, event := store.Claim(now, lease, token, skipped);
    if !ok {
      return Refused, None;
    }
    if event.None? {
      return Idle, None;
    }
    var attempts := store.rows[event.value].attempts;
    if !sent {
      var delay := Backoff.WorkerBackoff(attempts, jitter);
      var retried := store.Retry(event.value, token, finishedAt + delay as int);
      return Retrying, event;
    }
    var confirmed := store.Confirm(event.value, token, finishedAt);
    if !confirmed {
      return Lost, event;
    }
    outcome := if attempts > 1 then Republished else Published;
  }

  // ----- Runs -----

  datatype Trace = Claimed(event: string, token: string) | Sent(event: string, token: string)

  /** The rows and what has happened so far. */
  datatype State = State(rows: map<string, Delivery>, log: seq<Trace>)

  const EMPTY := State(map[], [])

  datatype Action =
    | Claim(event: string, token: string, leaseMillis: nat, now: Time)
    | Send(event: string, token: string)
    | Confirm(event: string, token: string, now: Time)
    | Retry(event: string, token: string, next: Time)

  predicate TokenFresh(log: seq<Trace>, token: string) {
    forall i :: 0 <= i < |log| ==> log[i].token != token
  }

  /** A worker sends only what it claimed, confirms only what it sent, and may be stale by then. A
      crash is the absence of further steps. */
  predicate Step(s: State, a: Action, s': State) {
    match a
    case Claim(event, token, lease, now) =>
      && event in s.rows && Eligible(s.rows[event], now) && TokenFresh(s.log, token)
      && s' == State(s.rows[event := Leased(s.rows[event], token, now + lease * 1_000_000)], s.log + [Claimed(event, token)])
    case Send(event, token) =>
      Claimed(event, token) in s.log && s' == s.(log := s.log + [Sent(event, token)])
    case Confirm(event, token, now) =>
      Sent(event, token) in s.log && s' == s.(rows := Confirmed(s.rows, event, token, now))
    case Retry(event, token, next) =>
      Claimed(event, token) in s.log && next > 0 && s' == s.(rows := Retried(s.rows, event, token, next))
  }

  /** Commits add rows for new events. */
  function Queue(s: State, events: seq<Event>): State
    decreases |events|
  {
    if events == [] then s
    else
      var n := |events| - 1;
      var t := Queue(s, events[..n]);
      t.(rows := t.rows[events[n].id := Delivery(events[n].occurredAt, 0, events[n].occurredAt, None, None, None)])
  }

  predicate EventsFresh(s: State, events: seq<Event>) {
    && (forall i :: 0 <= i < |events| ==> events[i].id !in s.rows)
    && (forall i, j :: 0 <= i < j < |events| ==> events[i].id != events[j].id)
  }

  function ClaimCount(log: seq<Trace>, event: string): nat {
    if log == [] then 0
    else
      var n := |log| - 1;
      ClaimCount(log[..n], event) + if log[n].Claimed? && log[n].event == event then 1 else 0
  }

  predicate RowInv(log: seq<Trace>, event: string, d: Delivery) {
    && d.attempts == ClaimCount(log, event)
    && (d.token.Some? ==> Claimed(event, d.token.value) in log && d.lockedUntil == Some(d.nextAt) && d.published.None?)
    && (d.token.None? ==> d.lockedUntil.None?)
    && (d.published.Some? ==> exists i :: 0 <= i < |log| && log[i].Sent? && log[i].event == event)
  }

  /** A token belongs to one event. */
  predicate TokensInv(log: seq<Trace>) {
    forall i, j :: 0 <= i < |log| && 0 <= j < |log| && log[i].token == log[j].token ==> log[i].event == log[j].event
  }

  predicate Inv(s: State) {
    && TokensInv(s.log)
    && (forall k :: k in s.rows ==> RowInv(s.log, k, s.rows[k]))
    && (forall i :: 0 <= i < |s.log| ==> s.log[i].event in s.rows)
  }

  lemma CountAfter(log: seq<Trace>, t: Trace, event: string)
    ensures ClaimCount(log + [t], event) == ClaimCount(log, event) + if t.Claimed? && t.event == event then 1 else 0
  {
    assert (log + [t])[..|log|] == log;
  }

  lemma RowKept(log: seq<Trace>, t: Trace, event: string, d: Delivery)
    requires RowInv(log, event, d)
    ensures RowInv(log + [t], event,
                   d.(attempts := d.attempts + if t.Claimed? && t.event == event then 1 else 0))
  {
    CountAfter(log, t, event);
    if d.published.Some? {
      var i :| 0 <= i < |log| && log[i].Sent? && log[i].event == event;
      assert (log + [t])[i].Sent? && (log + [t])[i].event == event;
    }
  }

  /** Every step of a worker, stale or not, keeps the invariant. */
  lemma StepKeepsInv(s: State, a: Action, s': State)
    requires Inv(s) && Step(s, a, s')
    ensures Inv(s')
  {
    match a
    case Claim(event, token, lease, now) =>
      forall k | k in s'.rows ensures RowInv(s'.log, k, s'.rows[k]) {
        RowKept(s.log, Claimed(event, token), k, s.rows[k]);
      }
    case Send(event, token) =>
      var i :| 0 <= i < |s.log| && s.log[i] == Claimed(event, token);
      forall k | k in s'.rows ensures RowInv(s'.log, k, s'.rows[k]) {
        RowKept(s.log, Sent(event, token), k, s.rows[k]);
      }
    case Confirm(event, token, now) =>
      var i :| 0 <= i < |s.log| && s.log[i] == Sent(event, token);
    case Retry(event, token, next) =>
  }

  lemma {:induction false} ClaimCountZero(log: seq<Trace>, event: string)
    requires forall i :: 0 <= i < |log| ==> log[i].event != event
    ensures ClaimCount(log, event) == 0
  {
    if log != [] {
      ClaimCountZero(log[..|log| - 1], event);
    }
  }

  lemma {:induction false} QueueKeepsInv(s: State, events: seq<Event>)
    requires Inv(s) && EventsFresh(s, events)
    ensures Inv(Queue(s, events)) && Queue(s, events).log == s.log
    ensures forall k :: k in Queue(s, events).rows <==> k in s.rows || exists i :: 0 <= i < |events| && events[i].id == k
    ensures forall k :: k in s.rows ==> Queue(s, events).rows[k] == s.rows[k]
  {
    if events != [] {
      var n := |events| - 1;
      QueueKeepsInv(s, events[..n]);
      ClaimCountZero(s.log, events[n].id);
    }
  }

  /** A new event is queued unclaimed and due at once. */
  lemma {:induction false} QueuedIsDue(s: State, events: seq<Event>, i: nat)
    requires EventsFresh(s, events) && i < |events|
    ensures events[i].id in Queue(s, events).rows
    ensures Queue(s, events).rows[events[i].id] == Delivery(events[i].occurredAt, 0, events[i].occurredAt, None, None, None)
  {
    var n := |events| - 1;
    if i < n {
      QueuedIsDue(s, events[..n], i);
    }
  }

  /** An unpublished event can be claimed as soon as its next attempt is due, and a published one
      never again. */
  lemma ClaimableWhenDue(s: State, event: string, now: Time)
    requires Inv(s) && event in s.rows
    ensures Eligible(s.rows[event], now) <==> s.rows[event].published.None? && s.rows[event].nextAt <= now
  {}

  /** Only the current token of an unpublished row changes anything, and marking a row published
      needs a send of that event under that very token. */
  lemma StaleTokensChangeNothing(s: State, a: Action, s': State)
    requires Inv(s) && Step(s, a, s') && (a.Confirm? || a.Retry?)
    ensures s'.rows != s.rows ==> Holds(s.rows, a.event, a.token)
    ensures forall k :: k in s.rows && s.rows[k].published.None? && s'.rows[k].published.Some? ==>
              a.Confirm? && k == a.event && s.rows[k].token == Some(a.token) && Sent(k, a.token) in s.log
    ensures a.Confirm? && Holds(s.rows, a.event, a.token) ==> s'.rows[a.event].published.Some?
  {}

  /** Published is final, and a token that is not current never becomes current again. */
  lemma StepIsMonotone(s: State, a: Action, s': State, event: string, token: string)
    requires Inv(s) && Step(s, a, s') && event in s.rows
    ensures event in s'.rows && s.log <= s'.log
    ensures s.rows[event].published.Some? ==> s'.rows[event] == s.rows[event]
    ensures Claimed(event, token) in s.log && s.rows[event].token != Some(token) ==> s'.rows[event].token != Some(token)
  {
    if Claimed(event, token) in s.log {
      var i :| 0 <= i < |s.log| && s.log[i] == Claimed(event, token);
    }
  }
}
