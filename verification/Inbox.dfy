/** Deduplication of queue messages by consumer and message id, and the acknowledge rule. */
module Inbox {
  import opened Text
  import opened Wrappers
  import opened Model
  import opened Settlement
  import opened Engine
  import opened Backoff
  import Payload

  type Key = (string, string)

  datatype Row = Row(hash: string, receivedAt: Time, completedAt: Option<Time>, tx: Option<string>)

  datatype InboxError = MessageConflict | Inconsistent | ConcurrentWrite | CompletionTime

  datatype Claim = Unseen | Completed(tx: string)

  /** The table holds the message, under this hash and completed. */
  predicate Done(rows: map<Key, Row>, key: Key, hash: string, tx: string) {
    key in rows && rows[key].hash == hash && rows[key].completedAt.Some? && rows[key].tx == Some(tx)
  }

  class InboxStore {
    var rows: map<Key, Row>

    constructor ()
      ensures rows == map[]
    {
      rows := map[];
    }

    /** `Claim`: inserts the message unless it is there, then reads what is stored. A message that
        was completed under the same content is recognised; other content is a conflict. */
    method ClaimMessage(key: Key, hash: string, receivedAt: Time) returns (r: Result<Claim, InboxError>)
      modifies this
      ensures rows == if key in old(rows) then old(rows) else old(rows)[key := Row(hash, receivedAt, None, None)]
      ensures r == Err(MessageConflict) <==> key in old(rows) && old(rows)[key].hash != hash
      ensures forall tx :: r == Ok(Completed(tx)) <==> Done(old(rows), key, hash, tx)
      ensures key !in old(rows) ==> r == Ok(Unseen)
    {
      if key !in rows {
        rows := rows[key := Row(hash, receivedAt, None, None)];
      }
      var row := rows[key];
      if row.hash != hash {
        return Err(MessageConflict);
      }
      if row.completedAt.Some? && row.tx.None? {
        return Err(Inconsistent);
      }
      r := if row.completedAt.Some? then Ok(Completed(row.tx.value)) else Ok(Unseen);
    }

    /** `Complete`: only once, and never at a time before the reception. */
    method CompleteMessage(key: Key, tx: string, completedAt: Time) returns (r: Result<(), InboxError>)
      modifies this
      ensures r.Ok? <==> key in old(rows) && old(rows)[key].completedAt.None? && old(rows)[key].receivedAt <= completedAt
      ensures r == Err(CompletionTime) <==>
              key in old(rows) && old(rows)[key].completedAt.None? && completedAt < old(rows)[key].receivedAt
      ensures r.Ok? ==> rows == old(rows)[key := old(rows)[key].(completedAt := Some(completedAt), tx := Some(tx))]
      ensures r.Err? ==> rows == old(rows)
    {
      if key !in rows || rows[key].completedAt.Some? {
        return Err(ConcurrentWrite);
      }
      if completedAt < rows[key].receivedAt {
        return Err(CompletionTime);
      }
      rows := rows[key := rows[key].(completedAt := Some(completedAt), tx := Some(tx))];
      r := Ok(());
    }
  }

  // ----- Consuming -----

  /** `Infrastructure` stands for every failure outside the engine, a failed commit included. */
  datatype ConsumeError =
    | Engine(error: EngineError)
    | Inbox(reason: InboxError)
    | InvalidConsumer
    | InvalidMessage
    | TransactionMissing
    | Infrastructure

  datatype Consumed = Consumed(tx: Tx, duplicate: bool)

  /** A submission succeeds exactly on the answers that allow it, and then writes nothing or the
      transaction that it answers with. */
  method SubmitMessage(session: Session, input: Input, id: string, received: Time, reading: Time, ids: Ids)
    returns (r: Result<Submission, EngineError>)
    requires session.changes == NO_CHANGES && IdsValid(ids)
    requires session.answers.wallet.Some? ==>
               WalletValid(session.answers.wallet.value) && session.answers.wallet.value.id == input.wallet
    requires session.answers.reference.Some? ==> TxValid(session.answers.reference.value)
    modifies session
    ensures r.Ok? <==> SubmissionSucceeds(session.answers, input, Payload.Canonical(input), id, received, reading, ids)
    ensures r.Ok? ==> if r.value.replay then session.changes == NO_CHANGES else session.changes.tx == Some(r.value.tx)
  {
    hide Payload.Canonical, FreshChanges, EvaluateIdentities, Accepted, WalletFits, WalletValid, TxValid;
    var submitted, payload := SubmitInSession(session, input, id, received, reading, ids);
    r := submitted;
  }

  /** `Consume`, inside its SQL transaction: the claim of the message, the submission and the
      completion are written together, and an error rolls all of them back.

      A redelivery of a completed message is answered with the transaction that its inbox row names
      and writes nothing. A message that is not completed succeeds exactly when its submission does
      and the clock did not run backwards since the claim; it is then completed with the
      transaction of the submission. */
  method Consume(inbox: InboxStore, session: Session, key: Key, hash: string, input: Input, stored: map<string, Tx>,
                 receivedAt: Time, completedAt: Time, id: string, received: Time, reading: Time, ids: Ids)
    returns (r: Result<Consumed, ConsumeError>)
    requires session.changes == NO_CHANGES && IdsValid(ids)
    requires session.answers.wallet.Some? ==>
               WalletValid(session.answers.wallet.value) && session.answers.wallet.value.id == input.wallet
    requires session.answers.reference.Some? ==> TxValid(session.answers.reference.value)
    requires forall k :: k in stored ==> stored[k].ident.id == k
    modifies inbox, session
    ensures !ValidID(key.0) ==> r == Err(InvalidConsumer)
    ensures ValidID(key.0) && (key.1 == "" || hash == "") ==> r == Err(InvalidMessage)
    ensures r.Ok? ==> Done(inbox.rows, key, hash, r.value.tx.ident.id)
    ensures r.Ok? && r.value.duplicate ==>
              && inbox.rows == old(inbox.rows) && session.changes == NO_CHANGES
              && r.value.tx.ident.id in stored && stored[r.value.tx.ident.id] == r.value.tx
    ensures r.Ok? && !r.value.duplicate ==>
              && inbox.rows == old(inbox.rows)[key := inbox.rows[key]]
              && (session.changes == NO_CHANGES || session.changes.tx == Some(r.value.tx))
    ensures ValidID(key.0) && key.1 != "" && hash != "" && key in old(inbox.rows) ==>
              && (old(inbox.rows)[key].hash != hash ==> r == Err(Inbox(MessageConflict)))
              && (forall tx :: Done(old(inbox.rows), key, hash, tx) ==>
                    r == if tx in stored then Ok(Consumed(stored[tx], true)) else Err(TransactionMissing))
    ensures ValidID(key.0) && key.1 != "" && hash != "" && key !in old(inbox.rows) ==>
              var ok := SubmissionSucceeds(session.answers, input, Payload.Canonical(input), id, received, reading, ids);
              && (r.Ok? <==> ok && receivedAt <= completedAt)
              && (r.Ok? ==> !r.value.duplicate)
              && (ok && completedAt < receivedAt ==> r == Err(Inbox(CompletionTime)))
              && (!ok ==> r.Err? && r.error.Engine?)
  {
    hide SubmissionSucceeds, Payload.Canonical;
    if !ValidID(key.0) {
      return Err(InvalidConsumer);
    }
    if key.1 == "" || hash == "" {
      return Err(InvalidMessage);
    }
    var claim := inbox.ClaimMessage(key, hash, receivedAt);
    if claim.Err? {
      return Err(Inbox(claim.error));
    }
    if claim.value.Completed? {
      if claim.value.tx !in stored {
        return Err(TransactionMissing);
      }
      return Ok(Consumed(stored[claim.value.tx], true));
    }
    var submitted := SubmitMessage(session, input, id, received, reading, ids);
    if submitted.Err? {
      return Err(ConsumeError.Engine(submitted.error));
    }
    var completed := inbox.CompleteMessage(key, submitted.value.tx.ident.id, completedAt);
    if completed.Err? {
      return Err(Inbox(completed.error));
    }
    r := Ok(Consumed(submitted.value.tx, false));
  }

  // ----- Acknowledging -----

  datatype Disposition = Delete | Release | Defer(seconds: int32) | Leave

  /** `retryableProcessingError`. */
  predicate Retryable(e: ConsumeError) {
    match e
    case Engine(x) =>
      !(x.IdempotencyConflict? || x.ExternalIDConflict? || x.InvalidInput? || x.WalletMismatch? || x.WalletNotFound?)
    case Inbox(reason) => !reason.MessageConflict?
    case _ => true
  }

  /** The end of `handle`: what becomes of the message after its consumption. */
  method Dispose(r: Result<Consumed, ConsumeError>, timedOut: bool, receiveCount: int) returns (d: Disposition)
    ensures d.Delete? <==> r.Ok?
    ensures d.Release? <==> r.Err? && timedOut
    ensures d.Defer? <==> r.Err? && !timedOut && Retryable(r.error)
    ensures d.Leave? <==>
            && r.Err? && !timedOut
            && r.error in [ConsumeError.Inbox(MessageConflict), ConsumeError.Engine(IdempotencyConflict), ConsumeError.Engine(ExternalIDConflict),
                           ConsumeError.Engine(EngineError.InvalidInput), ConsumeError.Engine(WalletMismatch), ConsumeError.Engine(WalletNotFound)]
    ensures d.Defer? ==> d.seconds as int == VisibilitySeconds(receiveCount)
  {
    if r.Ok? {
      return Delete;
    }
    if timedOut {
      return Release;
    }
    if Retryable(r.error) {
      var seconds := RetryVisibility(receiveCount);
      return Defer(seconds);
    }
    d := Leave;
  }

  /** `handle`, for a message that could be decoded: it is deleted exactly when its consumption
      succeeded and committed, and then the inbox names the transaction of its effects. */
  method Handle(inbox: InboxStore, session: Session, key: Key, hash: string, input: Input, stored: map<string, Tx>,
                receivedAt: Time, completedAt: Time, id: string, received: Time, reading: Time, ids: Ids,
                commits: bool, timedOut: bool, receiveCount: int)
    returns (d: Disposition, r: Result<Consumed, ConsumeError>)
    requires session.changes == NO_CHANGES && IdsValid(ids)
    requires session.answers.wallet.Some? ==>
               WalletValid(session.answers.wallet.value) && session.answers.wallet.value.id == input.wallet
    requires session.answers.reference.Some? ==> TxValid(session.answers.reference.value)
    requires forall k :: k in stored ==> stored[k].ident.id == k
    modifies inbox, session
    ensures d.Delete? <==> r.Ok?
    ensures d.Delete? ==> commits && Done(inbox.rows, key, hash, r.value.tx.ident.id)
    ensures d.Delete? && r.value.duplicate ==> inbox.rows == old(inbox.rows) && session.changes == NO_CHANGES
    ensures d.Delete? && !r.value.duplicate ==> session.changes == NO_CHANGES || session.changes.tx == Some(r.value.tx)
    ensures d.Release? <==> r.Err? && timedOut
    ensures d.Defer? <==> r.Err? && !timedOut && Retryable(r.error)
    ensures ValidID(key.0) && key.1 != "" && hash != "" && commits ==>
              forall tx :: Done(old(inbox.rows), key, hash, tx) && tx in stored ==> d.Delete? && r.value.tx == stored[tx]
  {
    r := Consume(inbox, session, key, hash, input, stored, receivedAt, completedAt, id, received, reading, ids);
    if r.Ok? && !commits {
      r := Err(Infrastructure);
    }
    d := Dispose(r, timedOut, receiveCount);
  }
}
