/** Queue messages over whole runs: what a consumer is answered, for a first delivery and for every
    redelivery, and what has been committed before a message is deleted. */
module Redelivery {
  import opened Text
  import opened Wrappers
  import opened Monetary
  import opened Model
  import opened Settlement
  import opened Store
  import opened Invariant
  import opened Engine
  import opened Opening
  import opened Machine
  import opened Safety
  import opened Runs
  import opened Identities
  import opened Theorems
  import Payload
  import Inbox
  import Outbox

  // ----- What consumers know -----

  /** The message is completed under its hash with the transaction that the consumer was told. */
  ghost predicate Served(w: World, c: Consumer) {
    && c.message.key in w.inbox
    && var row := w.inbox[c.message.key];
    && row.hash == c.message.hash && row.tx.Some?
    && (match c
        case Recognised(_, tx) => tx == row.tx.value
        case Handled(_, t) => t.ident.id == row.tx.value && Known(w.db.txs, t))
  }

  ghost predicate ConsumersOk(w: World) {
    && (forall h :: h in w.consumers ==> Served(w, w.consumers[h]))
    && (forall k :: k in w.acked ==> k in w.inbox)
  }

  lemma ServedStays(w: World, w': World, c: Consumer)
    requires Served(w, c) && InboxGrows(w, w') && RowsGrow(w.db.txs, w'.db.txs)
    ensures Served(w', c)
  {}

  /** What a landing with answer `t` leaves behind. */
  ghost predicate Lands(w: World, w': World, f: nat, t: Tx) {
    && f in w.flights && w.flights[f].op.Submit?
    && (match w.flights[f].op.message
        case None => w'.consumers == w.consumers && w'.inbox == w.inbox
        case Some(m) =>
          && w'.consumers == w.consumers[f := Handled(m, t)]
          && m.key in w'.inbox && w'.inbox[m.key].hash == m.hash && w'.inbox[m.key].tx == Some(t.ident.id))
  }

  lemma SubmissionLands(w: World, a: Action, w': World)
    requires a.CommitNew? && Step(w, a, w')
    ensures var c := Written(w, a, w');
            c.tx.Some? && w'.db.txs == w.db.txs[c.tx.value.ident.id := c.tx.value] && Lands(w, w', a.f, c.tx.value)
  {
    hide NewChanges, EvaluateIdentities, IdentityFree, Outbox.EventsFresh, Accepted, WalletFits;
  }

  lemma SubmissionServes(w: World, a: Action, w': World)
    requires WorldInv(w) && a.CommitNew? && Step(w, a, w')
    ensures a.f in w.flights && w.flights[a.f].op.Submit?
    ensures w.flights[a.f].op.message.Some? ==>
              && a.f in w'.consumers && w'.consumers[a.f].Handled? && Served(w', w'.consumers[a.f])
              && w'.consumers[a.f].message == w.flights[a.f].op.message.value
              && w'.consumers[a.f].answer.ident == Subject(w.flights[a.f]).ident
  {
    hide WorldInv, Step, Written;
    SubmissionLands(w, a, w');
    SubmissionIdentity(w, a, w');
  }

  lemma ReplayLands(w: World, a: Action, w': World)
    requires a.CommitReplay? && Step(w, a, w')
    ensures a.f in w.flights && CanCommitReplay(w, a.f, a.completedAt)
    ensures w'.db == w.db && Lands(w, w', a.f, Replayed(w.flights[a.f]))
  {
    hide EvaluateIdentities;
  }

  lemma ReplayServes(w: World, a: Action, w': World)
    requires FlightsOk(w) && a.CommitReplay? && Step(w, a, w')
    ensures a.f in w.flights && w.flights[a.f].op.Submit?
    ensures w.flights[a.f].op.message.Some? ==>
              && a.f in w'.consumers && w'.consumers[a.f].Handled? && Served(w', w'.consumers[a.f])
              && w'.consumers[a.f].message == w.flights[a.f].op.message.value
              && AnswersFor(w'.consumers[a.f].answer, w.flights[a.f].op)
  {
    hide Step, FlightsOk, AnswersFor, EvaluateIdentities;
    ReplayFlight(w, a, w');
    ReplayLands(w, a, w');
  }

  lemma CommitsTellNobody(w: World, a: Action, w': World)
    requires (a.Open? || a.CommitWake? || a.Reschedule? || a.ClaimReference?) && Step(w, a, w')
    ensures w'.consumers == w.consumers
  {
    hide WakeChanges, CanOpen, CanWake, CanClaim, Complete, Resolve, Outbox.EventsFresh, Commit, Outbox.Queue;
  }

  lemma AroundTells(w: World, a: Action, w': World, h: nat)
    requires a.Publish? || a.Tick? || a.Recognise? || a.Answer? || a.Acknowledge? || a.Forget?
    requires Step(w, a, w') && h in w'.consumers && !(h in w.consumers && w.consumers[h] == w'.consumers[h])
    ensures a == Answer(h) || (a.Recognise? && a.h == h)
  {
    hide Outbox.Step, Decoded;
  }

  /** A consumer of the new state is an old one, or has just been told. */
  lemma OthersCarryOn(w: World, a: Action, w': World, h: nat)
    requires Step(w, a, w') && h in w'.consumers && !(h in w.consumers && w.consumers[h] == w'.consumers[h])
    ensures a == Answer(h) || (a.Recognise? && a.h == h)
            || ((a.CommitNew? || a.CommitReplay?) && a.f == h && h in w.flights && w.flights[h].op.Submit? && w.flights[h].op.message.Some?)
  {
    hide Step, Written;
    if Flies(a) {
      OnlyFlies(w, a, w');
    } else if a.Open? || a.CommitWake? || a.Reschedule? || a.ClaimReference? {
      CommitsTellNobody(w, a, w');
    } else if a.CommitNew? {
      SubmissionLands(w, a, w');
    } else if a.CommitReplay? {
      hide EvaluateIdentities;
      ReplayLands(w, a, w');
    } else {
      AroundTells(w, a, w', h);
    }
  }

  lemma ToldIsServed(w: World, a: Action, w': World)
    requires ConsumersOk(w) && TxsOk(w.db) && (a.Answer? || a.Recognise?) && Step(w, a, w')
    ensures a.h in w'.consumers && Served(w', w'.consumers[a.h])
  {
    hide Decoded;
    if a.Answer? {
      assert Served(w, w.consumers[a.h]);
    }
  }

  lemma ServedStep(w: World, a: Action, w': World, h: nat)
    requires WorldInv(w) && ConsumersOk(w) && Step(w, a, w') && InboxGrows(w, w') && RowsGrow(w.db.txs, w'.db.txs)
    requires h in w'.consumers
    ensures Served(w', w'.consumers[h])
  {
    hide WorldInv, Step, WalletsOk, TxsOk, FlightsOk, SchedulesOk, RowsGrow, InboxGrows;
    if h in w.consumers && w.consumers[h] == w'.consumers[h] {
      ServedStays(w, w', w.consumers[h]);
    } else {
      Parts(w);
      OthersCarryOn(w, a, w', h);
      hide Served;
      if a.CommitNew? {
        SubmissionServes(w, a, w');
      } else if a.CommitReplay? {
        ReplayServes(w, a, w');
      } else {
        ToldIsServed(w, a, w');
      }
    }
  }

  lemma AckedStep(w: World, a: Action, w': World)
    requires ConsumersOk(w) && Step(w, a, w') && InboxGrows(w, w')
    ensures forall k :: k in w'.acked ==> k in w'.inbox
  {
    hide NewChanges, WakeChanges, CanOpen, CanWake, CanLock, CanLockRow, Outbox.Step, EvaluateIdentities, Decoded, CanClaim;
    if a.Acknowledge? {
      assert Served(w, w.consumers[a.h]);
    }
  }

  lemma StepGrows(w: World, a: Action, w': World)
    requires WorldInv(w) && Step(w, a, w')
    ensures InboxGrows(w, w') && RowsGrow(w.db.txs, w'.db.txs)
  {
    hide WorldInv, Step, DbStep, RowsGrow, WalletsGrow, SchedulesGrow, WalletsOk, TxsOk, FlightsOk, SchedulesOk, InboxOk;
    Parts(w);
    InboxPart(w);
    StepWrites(w, a, w');
    DbStepGrows(w.db, w'.db);
    StepInbox(w, a, w');
  }

  lemma ConsumersStep(w: World, a: Action, w': World)
    requires WorldInv(w) && ConsumersOk(w) && Step(w, a, w')
    ensures ConsumersOk(w')
  {
    hide WorldInv, Step, Served, RowsGrow, InboxGrows;
    StepGrows(w, a, w');
    AckedStep(w, a, w');
    forall h | h in w'.consumers ensures Served(w', w'.consumers[h]) {
      ServedStep(w, a, w', h);
    }
  }

  lemma InitConsumers(w: World)
    requires Init(w)
    ensures ConsumersOk(w) && Contents(w)
  {}

  /** In every reachable state consumers were told what is stored, and only completed messages were
      deleted: what a delete presupposes follows from the consumer's own success. */
  lemma {:induction false} ConsumersRun(ws: seq<World>, acts: seq<Action>, i: nat)
    requires Run(ws, acts) && i < |ws|
    ensures ConsumersOk(ws[i])
  {
    hide WorldInv, Step, Init, ConsumersOk, Contents;
    if i == 0 {
      InitConsumers(ws[0]);
    } else {
      ConsumersRun(ws, acts, i - 1);
      Reachable(ws, acts, i - 1);
      ConsumersStep(ws[i - 1], acts[i - 1], ws[i]);
    }
  }

  // ----- What messages say -----

  /** The transaction carries the identity and the content of the input. */
  ghost predicate Owns(i: Identity, input: Input) {
    && SameKey(i, input.provider, input.key) && SameExternal(i, input.provider, input.external)
    && i.hash == Payload.Canonical(input)
  }

  ghost predicate FlightDecoded(f: Flight) {
    f.op.Submit? && f.op.message.Some? ==> Decoded(f.op.message.value) && f.op.message.value.envelope.input == f.op.input
  }

  ghost predicate ConsumerDecoded(c: Consumer) {
    Decoded(c.message)
  }

  /** The row was written for some message, and its transaction owns that message's input. */
  ghost predicate RowContent(w: World, k: Inbox.Key)
    requires k in w.inbox
  {
    var row := w.inbox[k];
    && row.tx.Some? && row.tx.value in w.db.txs
    && exists e: Payload.Envelope :: row.hash == Payload.CanonicalEnvelope(e) && e.input.amount.Valid()
                                    && Owns(w.db.txs[row.tx.value].ident, e.input)
  }

  ghost predicate Contents(w: World) {
    && (forall f :: f in w.flights ==> FlightDecoded(w.flights[f]))
    && (forall h :: h in w.consumers ==> ConsumerDecoded(w.consumers[h]))
    && (forall k :: k in w.inbox ==> RowContent(w, k))
  }

  lemma FlightDecodedStep(w: World, a: Action, w': World, f: nat)
    requires Step(w, a, w') && f in w'.flights && (f in w.flights ==> FlightDecoded(w.flights[f]))
    ensures FlightDecoded(w'.flights[f])
  {
    hide Step, Payload.Canonical, Decoded;
    OperationStep(w, a, w', f);
  }

  lemma ToldIsDecoded(w: World, a: Action, w': World, h: nat)
    requires Step(w, a, w') && (a == Answer(h) || (a.Recognise? && a.h == h)) && h in w'.consumers
    requires h in w.consumers ==> ConsumerDecoded(w.consumers[h])
    ensures ConsumerDecoded(w'.consumers[h])
  {
    hide Decoded;
  }

  lemma ConsumerDecodedStep(w: World, a: Action, w': World, h: nat)
    requires WorldInv(w) && Contents(w) && Step(w, a, w') && h in w'.consumers
    ensures ConsumerDecoded(w'.consumers[h])
  {
    hide WorldInv, Step, Decoded, RowContent, WalletsOk, TxsOk, FlightsOk, SchedulesOk, Served;
    if !(h in w.consumers && w.consumers[h] == w'.consumers[h]) {
      OthersCarryOn(w, a, w', h);
      if a.CommitNew? {
        SubmissionServes(w, a, w');
        assert FlightDecoded(w.flights[h]);
      } else if a.CommitReplay? {
        Parts(w);
        ReplayServes(w, a, w');
        assert FlightDecoded(w.flights[h]);
      } else {
        ToldIsDecoded(w, a, w', h);
      }
    } else {
      assert ConsumerDecoded(w.consumers[h]);
    }
  }

  /** Only landings write inbox rows. */
  lemma NewInboxRow(w: World, a: Action, w': World, k: Inbox.Key)
    requires Step(w, a, w') && k in w'.inbox && k !in w.inbox
    ensures (a.CommitNew? || a.CommitReplay?) && a.f in w.flights && w.flights[a.f].op.Submit?
    ensures w.flights[a.f].op.message.Some? && w.flights[a.f].op.message.value.key == k
  {
    hide NewChanges, WakeChanges, CanOpen, CanWake, CanLock, CanLockRow, Outbox.Step, EvaluateIdentities, Decoded, CanClaim;
  }

  lemma ContentStays(w: World, w': World, k: Inbox.Key)
    requires k in w.inbox && RowContent(w, k) && InboxGrows(w, w') && RowsGrow(w.db.txs, w'.db.txs)
    ensures k in w'.inbox && RowContent(w', k)
  {
    hide Payload.CanonicalEnvelope, Payload.Canonical, Owns;
    var row := w.inbox[k];
    var e: Payload.Envelope :| row.hash == Payload.CanonicalEnvelope(e) && e.input.amount.Valid()
                               && Owns(w.db.txs[row.tx.value].ident, e.input);
    assert w'.db.txs[row.tx.value].ident == w.db.txs[row.tx.value].ident;
  }

  /** The landing's transaction owns the input of its message. */
  lemma LandingOwns(w: World, a: Action, w': World)
    requires WorldInv(w) && Hashed(w) && Contents(w) && (a.CommitNew? || a.CommitReplay?) && Step(w, a, w')
    requires a.f in w.flights && w.flights[a.f].op.Submit? && w.flights[a.f].op.message.Some?
    ensures a.f in w'.consumers && w'.consumers[a.f].Handled? && Served(w', w'.consumers[a.f])
    ensures w'.consumers[a.f].message == w.flights[a.f].op.message.value && Decoded(w'.consumers[a.f].message)
    ensures Owns(w'.consumers[a.f].answer.ident, w'.consumers[a.f].message.envelope.input)
  {
    hide WorldInv, Step, Decoded, RowContent, WalletsOk, TxsOk, FlightsOk, SchedulesOk, Served, Payload.Canonical;
    assert FlightDecoded(w.flights[a.f]) && FlightHashed(w.flights[a.f]);
    if a.CommitNew? {
      SubmissionServes(w, a, w');
    } else {
      Parts(w);
      ReplayServes(w, a, w');
    }
  }

  lemma ServedContent(w: World, h: nat)
    requires h in w.consumers && w.consumers[h].Handled? && Served(w, w.consumers[h]) && Decoded(w.consumers[h].message)
    requires Owns(w.consumers[h].answer.ident, w.consumers[h].message.envelope.input)
    ensures RowContent(w, w.consumers[h].message.key)
  {
    hide Payload.CanonicalEnvelope, Payload.Canonical, Owns;
    var m := w.consumers[h].message;
    assert w.inbox[m.key].hash == Payload.CanonicalEnvelope(m.envelope);
  }

  lemma RowContentStep(w: World, a: Action, w': World, k: Inbox.Key)
    requires WorldInv(w) && Hashed(w) && Contents(w) && Step(w, a, w') && k in w'.inbox
    ensures RowContent(w', k)
  {
    hide WorldInv, Step, RowContent, Decoded, Served, Owns, FlightDecoded, ConsumerDecoded, Hashed, RowsGrow, InboxGrows;
    StepGrows(w, a, w');
    if k in w.inbox {
      ContentStays(w, w', k);
    } else {
      NewInboxRow(w, a, w', k);
      LandingOwns(w, a, w');
      ServedContent(w', a.f);
    }
  }

  lemma ContentsStep(w: World, a: Action, w': World)
    requires WorldInv(w) && Hashed(w) && Contents(w) && Step(w, a, w')
    ensures Contents(w')
  {
    hide WorldInv, Step, RowContent, FlightDecoded, ConsumerDecoded, Hashed;
    forall f | f in w'.flights ensures FlightDecoded(w'.flights[f]) {
      FlightDecodedStep(w, a, w', f);
    }
    forall h | h in w'.consumers ensures ConsumerDecoded(w'.consumers[h]) {
      ConsumerDecodedStep(w, a, w', h);
    }
    forall k | k in w'.inbox ensures RowContent(w', k) {
      RowContentStep(w, a, w', k);
    }
  }

  lemma {:induction false} ContentsRun(ws: seq<World>, acts: seq<Action>, i: nat)
    requires Run(ws, acts) && i < |ws|
    ensures Contents(ws[i])
  {
    hide WorldInv, Step, Init, ConsumersOk, Contents, Hashed;
    if i == 0 {
      InitConsumers(ws[0]);
    } else {
      ContentsRun(ws, acts, i - 1);
      Reachable(ws, acts, i - 1);
      HashedRun(ws, acts, i - 1);
      ContentsStep(ws[i - 1], acts[i - 1], ws[i]);
    }
  }

  // ----- The promises -----

  /** Equal hashes mean equal messages, so the stored transaction owns the redelivered input too. */
  lemma SameMessageSameOwner(e: Payload.Envelope, f: Payload.Envelope, i: Identity)
    requires e.input.amount.Valid() && f.input.amount.Valid() && Owns(i, e.input)
    requires Payload.CanonicalEnvelope(e) == Payload.CanonicalEnvelope(f)
    ensures Owns(i, f.input)
  {
    hide Payload.CanonicalEnvelope, Payload.Canonical;
    Payload.EnvelopeInjective(e, f);
    Payload.CanonicalInjective(e.input, f.input);
  }

  lemma AnswerOwns(w: World, h: nat)
    requires ConsumersOk(w) && Contents(w) && h in w.consumers && w.consumers[h].Handled?
    ensures Owns(w.consumers[h].answer.ident, w.consumers[h].message.envelope.input)
  {
    hide Payload.CanonicalEnvelope, Payload.Canonical, Owns;
    var c := w.consumers[h];
    assert Served(w, c) && ConsumerDecoded(c) && RowContent(w, c.message.key);
    var row := w.inbox[c.message.key];
    var e: Payload.Envelope :| row.hash == Payload.CanonicalEnvelope(e) && e.input.amount.Valid()
                               && Owns(w.db.txs[row.tx.value].ident, e.input);
    SameMessageSameOwner(e, c.message.envelope, c.answer.ident);
  }

  /** A consumer that succeeded, by a first delivery or a redelivery, was answered with the one
      transaction that owns the key, the external id and the content of its message. That
      transaction is stored in every later state, unchanged once it is settled. */
  lemma ConsumerIsAnswered(ws: seq<World>, acts: seq<Action>, i: nat, j: nat, h: nat)
    requires Run(ws, acts) && i <= j < |ws| && h in ws[i].consumers && ws[i].consumers[h].Handled?
    ensures var c := ws[i].consumers[h];
            && Owns(c.answer.ident, c.message.envelope.input) && Known(ws[j].db.txs, c.answer)
            && Known(ws[i].db.txs, c.answer)
            && (ws[i].db.txs[c.answer.ident.id].status.Terminal() ==>
                  ws[j].db.txs[c.answer.ident.id] == ws[i].db.txs[c.answer.ident.id])
  {
    hide Run, Contents, Owns, WalletsGrow, SchedulesGrow;
    ConsumersRun(ws, acts, i);
    ContentsRun(ws, acts, i);
    RunGrows(ws, acts, i, j);
    AnswerOwns(ws[i], h);
    assert Served(ws[i], ws[i].consumers[h]);
  }

  /** Every success with a message is answered alike: a redelivery after a crash before the delete
      gets the transaction of the first delivery. */
  lemma RedeliveryGetsTheSame(ws: seq<World>, acts: seq<Action>, i: nat, j: nat, g: nat, h: nat)
    requires Run(ws, acts) && i <= j < |ws|
    requires g in ws[i].consumers && ws[i].consumers[g].Handled? && h in ws[j].consumers && ws[j].consumers[h].Handled?
    requires ws[i].consumers[g].message.key == ws[j].consumers[h].message.key
    ensures ws[i].consumers[g].answer.ident == ws[j].consumers[h].answer.ident
    ensures ws[i].consumers[g].message.hash == ws[j].consumers[h].message.hash
  {
    hide Run, WalletsGrow, SchedulesGrow;
    ConsumersRun(ws, acts, i);
    ConsumersRun(ws, acts, j);
    RunInbox(ws, acts, i, j);
    RunGrows(ws, acts, i, j);
    assert Served(ws[i], ws[i].consumers[g]) && Served(ws[j], ws[j].consumers[h]);
  }

  /** A landing tells its consumer the transaction that it stored or replayed. */
  lemma LandingIsAnswered(ws: seq<World>, acts: seq<Action>, i: nat)
    requires Run(ws, acts) && i < |acts| && (acts[i].CommitNew? || acts[i].CommitReplay?)
    ensures acts[i].f in ws[i].flights && ws[i].flights[acts[i].f].op.Submit?
    ensures var op := ws[i].flights[acts[i].f].op;
            op.message.Some? ==>
              && acts[i].f in ws[i + 1].consumers && ws[i + 1].consumers[acts[i].f].Handled?
              && ws[i + 1].consumers[acts[i].f].message == op.message.value
              && AnswersFor(ws[i + 1].consumers[acts[i].f].answer, op)
  {
    hide WorldInv, Step, Init, FlightsOk, WalletsOk, TxsOk, SchedulesOk, Served;
    Reachable(ws, acts, i);
    Parts(ws[i]);
    assert Step(ws[i], acts[i], ws[i + 1]);
    if acts[i].CommitNew? {
      SubmissionServes(ws[i], acts[i], ws[i + 1]);
    } else {
      hide AnswersFor;
      ReplayServes(ws[i], acts[i], ws[i + 1]);
    }
  }

  /** A redelivery writes nothing but its consumer's answer. */
  lemma RedeliveryWritesNothing(ws: seq<World>, acts: seq<Action>, i: nat)
    requires Run(ws, acts) && i < |acts| && (acts[i].Recognise? || acts[i].Answer?)
    ensures ws[i + 1] == ws[i].(consumers := ws[i + 1].consumers)
  {
    hide Decoded;
    assert Step(ws[i], acts[i], ws[i + 1]);
  }

  /** A recognised redelivery can always be answered: its transaction is stored. */
  lemma RedeliveryCanBeAnswered(ws: seq<World>, acts: seq<Action>, i: nat, h: nat)
    requires Run(ws, acts) && i < |ws| && h in ws[i].consumers && ws[i].consumers[h].Recognised?
    ensures ws[i].consumers[h].tx in ws[i].db.txs
  {
    hide WorldInv, Step, Init;
    ConsumersRun(ws, acts, i);
    Reachable(ws, acts, i);
    InboxPart(ws[i]);
    assert Served(ws[i], ws[i].consumers[h]);
  }

  /** A deleted message is completed in the inbox with a stored transaction. */
  lemma AcknowledgedAfterCommit(ws: seq<World>, acts: seq<Action>, i: nat, key: Inbox.Key)
    requires Run(ws, acts) && i < |ws| && key in ws[i].acked
    ensures key in ws[i].inbox && ws[i].inbox[key].completedAt.Some?
    ensures ws[i].inbox[key].tx.Some? && ws[i].inbox[key].tx.value in ws[i].db.txs
  {
    hide WorldInv, Step, Init;
    ConsumersRun(ws, acts, i);
    Reachable(ws, acts, i);
    InboxPart(ws[i]);
  }
}
