/** The service as a state machine: SQL transactions in flight with their separate reads, wallet and
    row locks, commits, workers, redeliveries and crashes. */
module Machine {
  import opened Text
  import opened Wrappers
  import opened Monetary
  import opened Model
  import opened Settlement
  import opened Records
  import opened Store
  import opened Engine
  import opened Opening
  import Payload
  import Outbox
  import Inbox
  import Backoff

  /** A delivered queue message: the consumer's name and the message id, the hash of its envelope,
      the envelope, and when this delivery claimed it. */
  datatype Message = Message(key: Inbox.Key, hash: string, envelope: Payload.Envelope, receivedAt: Time)

  const MESSAGE_TYPE := "WagerTransactionRequested"

  /** What `DecodeMessage` promises of a message: its id labels the input, and its hash is that of
      its canonical envelope. */
  predicate Decoded(m: Message) {
    && ValidID(m.envelope.id) && m.key.1 == m.envelope.id && m.envelope.kind == MESSAGE_TYPE
    && m.envelope.input.correlation == m.envelope.id
    && m.envelope.input.amount.Valid() && m.envelope.input.amount.minor >= 0
    && m.hash == Payload.CanonicalEnvelope(m.envelope)
  }

  /** A consumer that found its message completed, or one whose transaction has ended and that is
      about to delete the message. */
  datatype Consumer = Recognised(message: Message, tx: string) | Handled(message: Message, answer: Tx)

  datatype Op =
    | Submit(input: Input, hash: string, id: string, received: Time, message: Option<Message>)
    | Wake(tx: string, wallet: string, token: string)

  /** The locked waiting row and what was read with it. */
  datatype Awaiting = Awaiting(tx: Tx, attempts: nat, expiresAt: Time, now: Time)

  /** One SQL transaction in progress. A lookup that has not been made is `None`. */
  datatype Flight = Flight(
    op: Op,
    account: Option<WalletRow>,
    awaiting: Option<Awaiting>,
    byKey: Option<Option<Tx>>,
    byExternal: Option<Option<Tx>>,
    reference: Option<Option<Tx>>,
    reversed: Option<bool>)

  datatype World = World(
    db: Store,
    inbox: map<Inbox.Key, Inbox.Row>,
    consumers: map<nat, Consumer>,
    acked: set<Inbox.Key>,
    outbox: Outbox.State,
    flights: map<nat, Flight>,
    tokens: set<string>,
    clock: Time)

  predicate Init(w: World) {
    && w.db == EMPTY_STORE && w.inbox == map[] && w.consumers == map[] && w.acked == {} && w.outbox == Outbox.EMPTY
    && w.flights == map[] && w.tokens == {}
  }

  function WalletOf(op: Op): string {
    match op
    case Submit(input, _, _, _, _) => input.wallet
    case Wake(_, wallet, _) => wallet
  }

  /** The transaction a flight works on. */
  function Subject(f: Flight): Tx
    requires f.op.Wake? ==> f.awaiting.Some?
  {
    if f.op.Submit? then NewTx(f.op.input, f.op.hash, f.op.id, f.op.received) else f.awaiting.value.tx
  }

  /** Both identity lookups were made and found nothing. */
  predicate IdentityFresh(f: Flight) {
    f.op.Submit? && f.byKey.Some? && f.byExternal.Some?
    && EvaluateIdentities(f.op.input, f.op.hash, f.byKey.value, f.byExternal.value).Fresh?
  }

  /** The flight has passed its checks and may look at the reference. */
  predicate Prepared(f: Flight) {
    f.account.Some? && (if f.op.Submit? then IdentityFresh(f) else f.awaiting.Some?)
  }

  predicate Complete(f: Flight) {
    && Prepared(f) && f.reference.Some?
    && (AsksReversal(Subject(f).ident, f.reference.value) ==> f.reversed.Some?)
  }

  function ReversedAnswer(f: Flight): bool {
    f.reversed.Some? && f.reversed.value
  }

  // ----- Lookups -----

  predicate KeyAnswer(txs: map<string, Tx>, provider: string, key: string, answer: Option<Tx>) {
    match answer
    case None => forall k :: k in txs ==> !SameKey(txs[k].ident, provider, key)
    case Some(t) => t.ident.id in txs && txs[t.ident.id] == t && SameKey(t.ident, provider, key)
  }

  predicate ExternalAnswer(txs: map<string, Tx>, provider: string, external: string, answer: Option<Tx>) {
    match answer
    case None => forall k :: k in txs ==> !SameExternal(txs[k].ident, provider, external)
    case Some(t) => t.ident.id in txs && txs[t.ident.id] == t && SameExternal(t.ident, provider, external)
  }

  // ----- Actions -----

  datatype Action =
    | Open(player: string, initial: Money, correlation: string, openIds: OpenIds, now: Time)
    | Begin(f: nat, op: Op)
    | ReadKey(f: nat, answer: Option<Tx>)
    | ReadExternal(f: nat, answer: Option<Tx>)
    | Lock(f: nat)
    | LockRow(f: nat)
    | ReadReference(f: nat, answer: Option<Tx>)
    | ReadReversal(f: nat)
    | CommitNew(f: nat, reading: Time, ids: Ids, completedAt: Time)
    | CommitReplay(f: nat, completedAt: Time)
    | CommitWake(f: nat, ids: Ids)
    | Reschedule(f: nat, delay: Time)
    | Abort(f: nat)
    | ClaimReference(tx: string, token: string, leaseMillis: nat)
    | Publish(outbox: Outbox.Action, next: Outbox.State)
    | Recognise(h: nat, message: Message)
    | Answer(h: nat)
    | Acknowledge(h: nat)
    | Forget(h: nat)
    | Tick(to: Time)

  /** Commit the changes: rows, and the queued events. */
  function Committed(w: World, c: Changes): World {
    w.(db := Commit(w.db, c), outbox := Outbox.Queue(w.outbox, c.events))
  }

  function Landed(w: World, f: nat): World {
    w.(flights := w.flights - {f})
  }

  /** A message is completed in the same commit, and its consumer learns that it succeeded. */
  function WithInbox(w: World, f: nat, m: Option<Message>, t: Tx, completedAt: Time): World {
    if m.None? then w
    else
      w.(inbox := w.inbox[m.value.key := Inbox.Row(m.value.hash, m.value.receivedAt, Some(completedAt), Some(t.ident.id))],
         consumers := w.consumers[f := Handled(m.value, t)])
  }

  function Holding(f: Flight): Option<Inbox.Key> {
    if f.op.Submit? && f.op.message.Some? then Some(f.op.message.value.key) else None
  }

  predicate CanOpen(w: World, player: string, initial: Money, correlation: string, ids: OpenIds, now: Time) {
    && OpenIdsValid(ids) && ValidUuid(ids.entry) && OpenAccepted(player, initial, correlation, now)
    && ids.wallet !in w.db.wallets && ids.opening !in w.db.txs
    && PlayerFree(w.db.wallets, player, initial.currency)
    && Outbox.EventsFresh(w.outbox, Opened(player, initial, correlation, ids, now).events)
  }

  /** A submission with an acceptable input. The claim of a message inserts its inbox row: none is
      stored, and no other transaction has inserted it (one that has makes the claim wait). A
      message that is stored already is recognised instead. A worker may wake with any claim,
      current or stale. */
  predicate CanBegin(w: World, f: nat, op: Op) {
    && f !in w.flights
    && (op.Submit? ==>
          && Accepted(op.input, op.hash, op.id, op.received)
          && (op.message.Some? ==>
                && op.message.value.key !in w.inbox
                && forall g :: g in w.flights ==> Holding(w.flights[g]) != Some(op.message.value.key)))
  }

  predicate CanLock(w: World, f: nat) {
    && f in w.flights && w.flights[f].account.None?
    && WalletOf(w.flights[f].op) in w.db.wallets
    && (w.flights[f].op.Submit? ==>
          IdentityFresh(w.flights[f]) && WalletFits(w.flights[f].op.input, w.db.wallets[WalletOf(w.flights[f].op)]))
    && forall g :: g in w.flights && g != f && w.flights[g].account.Some? ==>
         WalletOf(w.flights[g].op) != WalletOf(w.flights[f].op)
  }

  predicate CanLockRow(w: World, f: nat) {
    && f in w.flights
    && var flight := w.flights[f];
    && flight.op.Wake? && flight.account.Some? && flight.awaiting.None?
    && flight.op.tx in w.db.txs && flight.op.tx in w.db.sched && w.clock > 0
    && var t, s := w.db.txs[flight.op.tx], w.db.sched[flight.op.tx];
    && t.status.PendingReference? && t.ident.wallet == flight.op.wallet
    && s.token == Some(flight.op.token) && s.lockedUntil.Some? && s.lockedUntil.value > w.clock
  }

  /** What a complete submission would write. */
  function NewChanges(f: Flight, reading: Time, ids: Ids): Result<Changes, SettleError>
    requires f.op.Submit? && Complete(f) && WalletFits(f.op.input, f.account.value)
    requires Accepted(f.op.input, f.op.hash, f.op.id, f.op.received)
  {
    FreshChanges(f.account.value, f.op.input, f.op.hash, f.reference.value, ReversedAnswer(f),
                 f.op.id, f.op.received, reading, ids)
  }

  predicate CanCommitNew(w: World, f: nat, reading: Time, ids: Ids, completedAt: Time) {
    && f in w.flights
    && var flight := w.flights[f];
    && flight.op.Submit? && Complete(flight) && WalletFits(flight.op.input, flight.account.value)
    && Accepted(flight.op.input, flight.op.hash, flight.op.id, flight.op.received)
    && IdsValid(ids) && ValidUuid(ids.entry) && NewChanges(flight, reading, ids).Ok?
    && flight.op.id !in w.db.txs && IdentityFree(w.db.txs, Subject(flight).ident)
    && Outbox.EventsFresh(w.outbox, NewChanges(flight, reading, ids).value.events)
    && (flight.op.message.Some? ==> flight.op.message.value.receivedAt <= completedAt)
  }

  predicate CanCommitReplay(w: World, f: nat, completedAt: Time) {
    && f in w.flights
    && var flight := w.flights[f];
    && flight.op.Submit? && flight.byKey.Some? && flight.byExternal.Some?
    && EvaluateIdentities(flight.op.input, flight.op.hash, flight.byKey.value, flight.byExternal.value).Replay?
    && (flight.op.message.Some? ==> flight.op.message.value.receivedAt <= completedAt)
  }

  function Replayed(f: Flight): Tx
    requires f.op.Submit? && f.byKey.Some? && f.byExternal.Some?
    requires EvaluateIdentities(f.op.input, f.op.hash, f.byKey.value, f.byExternal.value).Replay?
  {
    EvaluateIdentities(f.op.input, f.op.hash, f.byKey.value, f.byExternal.value).tx
  }

  /** The clamped time at which a worker resumes. */
  function WakeTime(f: Flight): Time
    requires f.op.Wake? && f.account.Some? && f.awaiting.Some?
  {
    Max(Max(f.awaiting.value.now, f.awaiting.value.tx.updatedAt), f.account.value.updatedAt)
  }

  predicate Expired(f: Flight)
    requires f.awaiting.Some?
  {
    f.awaiting.value.expiresAt <= f.awaiting.value.now
  }

  /** What a complete worker transaction would write; nothing when it should wait on. */
  function WakeChanges(f: Flight, ids: Ids): Result<Option<Changes>, SettleError>
    requires f.op.Wake? && Complete(f) && Ready(f.account.value, f.awaiting.value.tx, WakeTime(f))
    requires f.awaiting.value.tx.status.PendingReference?
  {
    Resume(f.account.value, f.awaiting.value.tx, f.reference.value, ReversedAnswer(f), Expired(f), ids, WakeTime(f))
  }

  predicate CanWake(w: World, f: nat, ids: Ids) {
    && f in w.flights
    && var flight := w.flights[f];
    && flight.op.Wake? && Complete(flight) && Ready(flight.account.value, flight.awaiting.value.tx, WakeTime(flight))
    && flight.awaiting.value.tx.status.PendingReference?
    && IdsValid(ids) && ValidUuid(ids.entry) && WakeChanges(flight, ids).Ok?
  }

  function Leased(s: Schedule, token: string, until: Time): Schedule {
    s.(token := Some(token), lockedUntil := Some(until), nextAt := Some(Backoff.Min(until, s.expiresAt)))
  }

  function Rescheduled(s: Schedule, next: Time): Schedule {
    s.(attempts := s.attempts + 1, nextAt := Some(next), token := None, lockedUntil := None)
  }

  /** Due, not leased, and not locked by a transaction in flight. */
  predicate CanClaim(w: World, tx: string, token: string) {
    && tx in w.db.txs && tx in w.db.sched && w.db.txs[tx].status.PendingReference? && token !in w.tokens
    && var s := w.db.sched[tx];
    && s.nextAt.Some? && s.nextAt.value <= w.clock && (s.lockedUntil.None? || s.lockedUntil.value <= w.clock)
    && forall g :: g in w.flights && w.flights[g].awaiting.Some? ==> w.flights[g].awaiting.value.tx.ident.id != tx
  }

  function NewFlight(op: Op): Flight {
    Flight(op, None, None, None, None, None, None)
  }

  // ----- Steps -----

  predicate OpensWallet(w: World, player: string, initial: Money, correlation: string, ids: OpenIds, now: Time, w': World) {
    CanOpen(w, player, initial, correlation, ids, now) && w' == Committed(w, Opened(player, initial, correlation, ids, now))
  }

  predicate Begins(w: World, f: nat, op: Op, w': World) {
    && CanBegin(w, f, op) && (op.Submit? ==> op.hash == Payload.Canonical(op.input))
    && (op.Submit? && op.message.Some? ==> Decoded(op.message.value) && op.message.value.envelope.input == op.input)
    && w' == w.(flights := w.flights[f := NewFlight(op)])
  }

  predicate ReadsKey(w: World, f: nat, answer: Option<Tx>, w': World) {
    && f in w.flights && w.flights[f].op.Submit? && w.flights[f].byKey.None?
    && KeyAnswer(w.db.txs, w.flights[f].op.input.provider, w.flights[f].op.input.key, answer)
    && w' == w.(flights := w.flights[f := w.flights[f].(byKey := Some(answer))])
  }

  predicate ReadsExternal(w: World, f: nat, answer: Option<Tx>, w': World) {
    && f in w.flights && w.flights[f].op.Submit? && w.flights[f].byKey.Some? && w.flights[f].byExternal.None?
    && ExternalAnswer(w.db.txs, w.flights[f].op.input.provider, w.flights[f].op.input.external, answer)
    && w' == w.(flights := w.flights[f := w.flights[f].(byExternal := Some(answer))])
  }

  predicate Locks(w: World, f: nat, w': World) {
    && CanLock(w, f)
    && w' == w.(flights := w.flights[f := w.flights[f].(account := Some(w.db.wallets[WalletOf(w.flights[f].op)]),
                                                        byKey := None, byExternal := None)])
  }

  predicate LocksRow(w: World, f: nat, w': World) {
    && CanLockRow(w, f)
    && var id := w.flights[f].op.tx;
    w' == w.(flights := w.flights[f := w.flights[f].(
               awaiting := Some(Awaiting(w.db.txs[id], w.db.sched[id].attempts, w.db.sched[id].expiresAt, w.clock)))])
  }

  predicate ReadsReference(w: World, f: nat, answer: Option<Tx>, w': World) {
    && f in w.flights && Prepared(w.flights[f]) && w.flights[f].reference.None?
    && var i := Subject(w.flights[f]).ident;
    && (if i.reference == "" then answer.None? else ExternalAnswer(w.db.txs, i.provider, i.reference, answer))
    && w' == w.(flights := w.flights[f := w.flights[f].(reference := Some(answer))])
  }

  predicate ReadsReversal(w: World, f: nat, w': World) {
    && f in w.flights && Prepared(w.flights[f]) && w.flights[f].reversed.None?
    && w.flights[f].reference.Some? && w.flights[f].reference.value.Some?
    && w' == w.(flights := w.flights[f := w.flights[f].(
                  reversed := Some(HasReversal(w.db.txs, w.flights[f].reference.value.value.ident.id)))])
  }

  predicate CommitsNew(w: World, f: nat, reading: Time, ids: Ids, completedAt: Time, w': World) {
    && CanCommitNew(w, f, reading, ids, completedAt)
    && var flight := w.flights[f];
    && var c := NewChanges(flight, reading, ids).value;
    && c.tx.Some? && w' == Landed(WithInbox(Committed(w, c), f, flight.op.message, c.tx.value, completedAt), f)
  }

  predicate CommitsReplay(w: World, f: nat, completedAt: Time, w': World) {
    && CanCommitReplay(w, f, completedAt)
    && var flight := w.flights[f];
    w' == Landed(WithInbox(w, f, flight.op.message, Replayed(flight), completedAt), f)
  }

  predicate CommitsWake(w: World, f: nat, ids: Ids, w': World) {
    && CanWake(w, f, ids)
    && var c := WakeChanges(w.flights[f], ids).value;
    && c.Some? && Outbox.EventsFresh(w.outbox, c.value.events)
    && w' == Landed(Committed(w, c.value), f)
  }

  predicate GivesBack(w: World, f: nat, delay: Time, w': World) {
    && f in w.flights
    && var flight := w.flights[f];
    && flight.op.Wake? && Complete(flight) && flight.op.tx in w.db.sched
    && Resolve(flight.awaiting.value.tx.ident, flight.reference.value).Unresolved? && !Expired(flight)
    && var wait := flight.awaiting.value;
    && Backoff.DelaySeconds(wait.attempts + 1) * SECOND <= delay <= 320 * SECOND
    && w' == Landed(w.(db := w.db.(sched := w.db.sched[flight.op.tx :=
               Rescheduled(w.db.sched[flight.op.tx], Backoff.Min(wait.now + delay, wait.expiresAt))])), f)
  }

  predicate Claims(w: World, tx: string, token: string, leaseMillis: nat, w': World) {
    && CanClaim(w, tx, token)
    && w' == w.(tokens := w.tokens + {token},
                db := w.db.(sched := w.db.sched[tx := Leased(w.db.sched[tx], token, w.clock + leaseMillis * 1_000_000)]))
  }

  /** The claim of a delivered message finds it completed under the same hash. */
  predicate Recognises(w: World, h: nat, m: Message, w': World) {
    && h !in w.consumers && m.key in w.inbox
    && var row := w.inbox[m.key];
    && row.hash == m.hash && row.completedAt.Some? && row.tx.Some? && Decoded(m)
    && w' == w.(consumers := w.consumers[h := Recognised(m, row.tx.value)])
  }

  /** The transaction that the inbox row names is looked up and returned. */
  predicate Answered(w: World, h: nat, w': World) {
    && h in w.consumers && w.consumers[h].Recognised? && w.consumers[h].tx in w.db.txs
    && w' == w.(consumers := w.consumers[h := Handled(w.consumers[h].message, w.db.txs[w.consumers[h].tx])])
  }

  /** A consumer that succeeded deletes its message. */
  predicate Acknowledges(w: World, h: nat, w': World) {
    && h in w.consumers && w.consumers[h].Handled?
    && w' == w.(acked := w.acked + {w.consumers[h].message.key}, consumers := w.consumers - {h})
  }

  predicate Step(w: World, a: Action, w': World) {
    match a
    case Open(player, initial, correlation, ids, now) => OpensWallet(w, player, initial, correlation, ids, now, w')
    case Begin(f, op) => Begins(w, f, op, w')
    case ReadKey(f, answer) => ReadsKey(w, f, answer, w')
    case ReadExternal(f, answer) => ReadsExternal(w, f, answer, w')
    case Lock(f) => Locks(w, f, w')
    case LockRow(f) => LocksRow(w, f, w')
    case ReadReference(f, answer) => ReadsReference(w, f, answer, w')
    case ReadReversal(f) => ReadsReversal(w, f, w')
    case CommitNew(f, reading, ids, completedAt) => CommitsNew(w, f, reading, ids, completedAt, w')
    case CommitReplay(f, completedAt) => CommitsReplay(w, f, completedAt, w')
    case CommitWake(f, ids) => CommitsWake(w, f, ids, w')
    case Reschedule(f, delay) => GivesBack(w, f, delay, w')
    case Abort(f) => f in w.flights && w' == Landed(w, f)
    case ClaimReference(tx, token, leaseMillis) => Claims(w, tx, token, leaseMillis, w')
    case Publish(action, next) => Outbox.Step(w.outbox, action, next) && w' == w.(outbox := next)
    case Recognise(h, m) => Recognises(w, h, m, w')
    case Answer(h) => Answered(w, h, w')
    case Acknowledge(h) => Acknowledges(w, h, w')
    case Forget(h) => w' == w.(consumers := w.consumers - {h})
    case Tick(to) => w' == w.(clock := to)
  }
}
