/** The identity protocol over whole runs: lookups that see different snapshots, the one retry
    after a lost race, and the payload hash. */
module Identities {
  import opened Text
  import opened Wrappers
  import opened Monetary
  import opened Model
  import opened Settlement
  import opened Store
  import opened Accounting
  import opened Invariant
  import opened Engine
  import opened Opening
  import opened Machine
  import opened Safety
  import opened Runs
  import opened Leases
  import Payload
  import Outbox

  // ----- Lookups on growing tables -----

  /** Two tables of one run, the first no later than the second. */
  ghost predicate Later(txs: map<string, Tx>, txs': map<string, Tx>) {
    RowsGrow(txs, txs') && IdentitiesUnique(txs')
  }

  lemma RunIsLater(ws: seq<World>, acts: seq<Action>, i: nat, j: nat)
    requires Run(ws, acts) && i <= j < |ws|
    ensures Later(ws[i].db.txs, ws[j].db.txs)
  {
    hide Step, Init, RowsGrow, WalletsGrow, SchedulesGrow;
    RunGrows(ws, acts, i, j);
    Reachable(ws, acts, j);
  }

  /** A row found once is found again, under the same identity. */
  lemma KeyFoundAgain(txs: map<string, Tx>, txs': map<string, Tx>, provider: string, key: string, found: Tx, again: Option<Tx>)
    requires Later(txs, txs') && KeyAnswer(txs, provider, key, Some(found)) && KeyAnswer(txs', provider, key, again)
    ensures again.Some? && again.value.ident == found.ident
  {
    var id := found.ident.id;
    assert id in txs' && txs'[id].ident == found.ident;
    if again.Some? {
      assert Clashes(txs'[id].ident, txs'[again.value.ident.id].ident);
    }
  }

  /** A row with this external id answers the lookup by external id. */
  lemma ExternalFound(txs: map<string, Tx>, provider: string, external: string, id: string, answer: Option<Tx>)
    requires IdentitiesUnique(txs) && id in txs && SameExternal(txs[id].ident, provider, external)
    requires ExternalAnswer(txs, provider, external, answer)
    ensures answer.Some? && answer.value == txs[id]
  {
    if answer.Some? {
      assert Clashes(txs[id].ident, txs[answer.value.ident.id].ident);
    }
  }

  // ----- The race -----

  lemma RaceIsSeen(txs: map<string, Tx>, byKeyTxs: map<string, Tx>, byExternalTxs: map<string, Tx>, op: Op,
                   byKey: Option<Tx>, byExternal: Option<Tx>)
    requires op.Submit? && RowsGrow(txs, byKeyTxs) && RowsGrow(txs, byExternalTxs)
    requires !IdentityFree(txs, NewTx(op.input, op.hash, op.id, op.received).ident)
    requires KeyAnswer(byKeyTxs, op.input.provider, op.input.key, byKey)
    requires ExternalAnswer(byExternalTxs, op.input.provider, op.input.external, byExternal)
    ensures !EvaluateIdentities(op.input, op.hash, byKey, byExternal).Fresh?
  {
    var i := NewTx(op.input, op.hash, op.id, op.received).ident;
    var k :| k in txs && Clashes(txs[k].ident, i);
    assert byKeyTxs[k].ident == txs[k].ident && byExternalTxs[k].ident == txs[k].ident;
  }

  /** When a unique index refuses an insert at state `i`, the identity check of any later attempt
      finds the winner, whichever snapshots its two lookups see: the attempt never inserts, so the
      race cannot be lost twice. */
  lemma OneRetrySuffices(ws: seq<World>, acts: seq<Action>, i: nat, j: nat, k: nat, op: Op,
                         byKey: Option<Tx>, byExternal: Option<Tx>)
    requires Run(ws, acts) && i <= j < |ws| && i <= k < |ws| && op.Submit?
    requires !IdentityFree(ws[i].db.txs, NewTx(op.input, op.hash, op.id, op.received).ident)
    requires KeyAnswer(ws[j].db.txs, op.input.provider, op.input.key, byKey)
    requires ExternalAnswer(ws[k].db.txs, op.input.provider, op.input.external, byExternal)
    ensures !EvaluateIdentities(op.input, op.hash, byKey, byExternal).Fresh?
  {
    hide Run, WalletsGrow, SchedulesGrow, KeyAnswer, ExternalAnswer, IdentityFree, EvaluateIdentities;
    RunGrows(ws, acts, i, j);
    RunGrows(ws, acts, i, k);
    RaceIsSeen(ws[i].db.txs, ws[j].db.txs, ws[k].db.txs, op, byKey, byExternal);
  }

  // ----- Lookups that see different snapshots -----

  lemma SplitReads(txs: map<string, Tx>, txs': map<string, Tx>, input: Input, hash: string,
                   byKey: Option<Tx>, byKey': Option<Tx>, byExternal: Option<Tx>)
    requires Later(txs, txs') && KeyAnswer(txs, input.provider, input.key, byKey)
    requires KeyAnswer(txs', input.provider, input.key, byKey')
    requires ExternalAnswer(txs', input.provider, input.external, byExternal)
    ensures var split, whole := EvaluateIdentities(input, hash, byKey, byExternal), EvaluateIdentities(input, hash, byKey', byExternal);
            && (split.Replay? <==> whole.Replay?) && (split.Replay? ==> split.tx.ident == whole.tx.ident)
            && (split.Conflict? ==> whole.Conflict?)
            && (split.Fresh? && !whole.Fresh? ==> exists k :: k in txs' && SameKey(txs'[k].ident, input.provider, input.key))
  {
    if byKey.Some? {
      KeyFoundAgain(txs, txs', input.provider, input.key, byKey.value, byKey');
    } else if byExternal.Some? && byExternal.value.ident.key == input.key {
      assert SameKey(byExternal.value.ident, input.provider, input.key);
      if byKey'.Some? {
        assert Clashes(txs'[byKey'.value.ident.id].ident, txs'[byExternal.value.ident.id].ident);
      }
    } else if byKey'.Some? {
      assert txs'[byKey'.value.ident.id].ident == byKey'.value.ident;
    }
  }

  /** The key is looked up at state `j` and the external id at state `k`. The verdict is a replay
      exactly when both lookups at `k` would say so, with the same transaction; a conflict is a
      conflict at `k`; and an identity that looks fresh but is not clashes with a stored key, so
      that the insert is refused. */
  lemma SplitReadsAreSound(ws: seq<World>, acts: seq<Action>, j: nat, k: nat, input: Input, hash: string,
                           byKey: Option<Tx>, byKey': Option<Tx>, byExternal: Option<Tx>)
    requires Run(ws, acts) && j <= k < |ws|
    requires KeyAnswer(ws[j].db.txs, input.provider, input.key, byKey)
    requires KeyAnswer(ws[k].db.txs, input.provider, input.key, byKey')
    requires ExternalAnswer(ws[k].db.txs, input.provider, input.external, byExternal)
    ensures var split, whole := EvaluateIdentities(input, hash, byKey, byExternal), EvaluateIdentities(input, hash, byKey', byExternal);
            && (split.Replay? <==> whole.Replay?) && (split.Replay? ==> split.tx.ident == whole.tx.ident)
            && (split.Conflict? ==> whole.Conflict?)
            && (split.Fresh? && !whole.Fresh? ==>
                  exists t :: t in ws[k].db.txs && SameKey(ws[k].db.txs[t].ident, input.provider, input.key))
  {
    hide Run, KeyAnswer, ExternalAnswer, EvaluateIdentities, Later;
    RunIsLater(ws, acts, j, k);
    SplitReads(ws[j].db.txs, ws[k].db.txs, input, hash, byKey, byKey', byExternal);
  }

  // ----- Hashes -----

  /** The business fields of a stored submission. */
  function InputOf(i: Identity): Input {
    Input(i.provider, i.external, i.key, i.wallet, i.player, i.round, i.game, i.kind, i.amount, i.reference, "")
  }

  ghost predicate RowHashed(i: Identity) {
    i.origin.External? ==> i.hash == Payload.Canonical(InputOf(i))
  }

  ghost predicate FlightHashed(f: Flight) {
    f.op.Submit? ==> f.op.hash == Payload.Canonical(f.op.input)
  }

  ghost predicate Hashed(w: World) {
    && (forall k :: k in w.db.txs ==> RowHashed(w.db.txs[k].ident))
    && (forall f :: f in w.flights ==> FlightHashed(w.flights[f]))
  }

  /** A flight keeps its operation; a new flight's operation has passed its checks. */
  lemma OperationStep(w: World, a: Action, w': World, f: nat)
    requires Step(w, a, w') && f in w'.flights
    ensures || (f in w.flights && w'.flights[f].op == w.flights[f].op)
            || (a.Begin? && a.f == f && w'.flights[f].op == a.op
                && (a.op.Submit? ==> a.op.hash == Payload.Canonical(a.op.input))
                && (a.op.Submit? && a.op.message.Some? ==>
                      Decoded(a.op.message.value) && a.op.message.value.envelope.input == a.op.input))
  {
    hide Payload.Canonical, Decoded, Outbox.Step, NewChanges, WakeChanges, CanOpen, CanWake, CanCommitNew, CanCommitReplay, CanBegin,
         CanClaim, Prepared, Complete, Resolve, KeyAnswer, ExternalAnswer, HasReversal, EvaluateIdentities;
  }

  lemma FlightHashedStep(w: World, a: Action, w': World, f: nat)
    requires Step(w, a, w') && f in w'.flights && (f in w.flights ==> FlightHashed(w.flights[f]))
    ensures FlightHashed(w'.flights[f])
  {
    hide Step, Payload.Canonical, Decoded;
    OperationStep(w, a, w', f);
  }

  lemma SubmissionRows(w: World, a: Action, w': World)
    requires WorldInv(w) && a.CommitNew? && Step(w, a, w')
    ensures a.f in w.flights && w.flights[a.f].op.Submit? && w.flights[a.f].op.input.amount.Valid()
    ensures var id := Subject(w.flights[a.f]).ident.id;
            w'.db.txs.Keys == w.db.txs.Keys + {id} && w'.db.txs[id].ident == Subject(w.flights[a.f]).ident
  {
    hide WorldInv, Step, Legit, Written;
    CommitNewWrites(w, a, w');
    SubmissionIdentity(w, a, w');
  }

  lemma OpeningRows(w: World, a: Action, w': World, k: string)
    requires a.Open? && Step(w, a, w') && k in w'.db.txs
    ensures k in w.db.txs || w'.db.txs[k].ident.origin.Internal?
  {
    hide CanOpen;
  }

  lemma OtherRows(w: World, a: Action, w': World, k: string)
    requires WorldInv(w) && !a.CommitNew? && Step(w, a, w') && k in w'.db.txs
    ensures k in w.db.txs || w'.db.txs[k].ident.origin.Internal?
  {
    hide WorldInv, Step, FlightsOk, WalletsOk, TxsOk, SchedulesOk;
    Parts(w);
    if a.Open? {
      OpeningRows(w, a, w', k);
    } else if a.CommitWake? {
      WakeRows(w, a, w');
    } else if a.Reschedule? || a.ClaimReference? {
      ScheduleWrites(w, a, w');
    } else {
      OtherWrites(w, a, w');
    }
  }

  lemma WakeRows(w: World, a: Action, w': World)
    requires WorldInv(w) && a.CommitWake? && Step(w, a, w')
    ensures w'.db.txs.Keys == w.db.txs.Keys
  {
    hide WorldInv, Step, FlightsOk, Legit, Written;
    CommitWakeWrites(w, a, w');
    WakeIdentity(w, a, w');
  }

  lemma WakeIdentity(w: World, a: Action, w': World)
    requires WorldInv(w) && a.CommitWake? && Step(w, a, w')
    ensures Written(w, a, w').tx.Some? && Written(w, a, w').tx.value.ident.id in w.db.txs
  {
    hide WorldInv, FlightsOk, WalletsOk, TxsOk, SchedulesOk;
    Parts(w);
    FlightHolds(w, a.f);
    WakeSubject(w, a.f, a.ids);
    hide WakeChanges, CanWake, Outbox.EventsFresh;
  }

  lemma SubjectHashed(f: Flight)
    requires f.op.Submit? && FlightHashed(f) && f.op.input.amount.Valid()
    ensures RowHashed(Subject(f).ident)
  {
    hide Payload.Canonical;
    Payload.CanonicalInjective(f.op.input, InputOf(Subject(f).ident));
  }

  /** Every stored submission carries the hash of its own canonical payload. */
  lemma HashedStep(w: World, a: Action, w': World)
    requires WorldInv(w) && Hashed(w) && Step(w, a, w')
    ensures Hashed(w')
  {
    hide WorldInv, Step, RowHashed, FlightHashed, WalletsOk, TxsOk, FlightsOk, SchedulesOk;
    forall f | f in w'.flights ensures FlightHashed(w'.flights[f]) {
      FlightHashedStep(w, a, w', f);
    }
    forall k | k in w'.db.txs ensures RowHashed(w'.db.txs[k].ident) {
      RowHashedStep(w, a, w', k);
    }
  }

  lemma RowHashedStep(w: World, a: Action, w': World, k: string)
    requires WorldInv(w) && Hashed(w) && Step(w, a, w') && k in w'.db.txs
    ensures RowHashed(w'.db.txs[k].ident)
  {
    hide WorldInv, Step, FlightHashed, WalletsOk, TxsOk, FlightsOk, SchedulesOk, Payload.Canonical;
    if k in w.db.txs {
      Parts(w);
      StepWrites(w, a, w');
      hide DbStep;
      DbStepGrows(w.db, w'.db);
    } else if a.CommitNew? {
      SubmissionRows(w, a, w');
      SubjectHashed(w.flights[a.f]);
    } else {
      OtherRows(w, a, w', k);
    }
  }

  lemma {:induction false} HashedRun(ws: seq<World>, acts: seq<Action>, i: nat)
    requires Run(ws, acts) && i < |ws|
    ensures Hashed(ws[i])
  {
    hide WorldInv, Step, RowHashed, FlightHashed;
    if i > 0 {
      HashedRun(ws, acts, i - 1);
      Reachable(ws, acts, i - 1);
      HashedStep(ws[i - 1], acts[i - 1], ws[i]);
    }
  }

  /** What the verdict of the identity check means, with both lookups at one state. */
  ghost predicate VerdictMeans(input: Input, hash: string, byKey: Option<Tx>, byExternal: Option<Tx>) {
    var verdict := EvaluateIdentities(input, hash, byKey, byExternal);
    && (verdict.Replay? <==> byKey.Some? && Payload.SameBusiness(InputOf(byKey.value.ident), input))
    && (verdict.Replay? ==> verdict.tx == byKey.value && byExternal == byKey)
    && (verdict == Conflict(IdempotencyConflict) <==> byKey.Some? && !Payload.SameBusiness(InputOf(byKey.value.ident), input))
    && (verdict == Conflict(ExternalIDConflict) <==> byKey.None? && byExternal.Some?)
    && (verdict.Fresh? <==> byKey.None? && byExternal.None?)
  }

  lemma HashTells(txs: map<string, Tx>, input: Input, byKey: Option<Tx>, byExternal: Option<Tx>)
    requires IdentitiesUnique(txs) && input.amount.Valid()
    requires forall k :: k in txs ==> RowHashed(txs[k].ident) && txs[k].ident.amount.Valid()
    requires KeyAnswer(txs, input.provider, input.key, byKey) && ExternalAnswer(txs, input.provider, input.external, byExternal)
    ensures VerdictMeans(input, Payload.Canonical(input), byKey, byExternal)
  {
    hide Payload.Canonical;
    if byKey.Some? {
      var id := byKey.value.ident.id;
      Payload.CanonicalInjective(InputOf(txs[id].ident), input);
      if Payload.SameBusiness(InputOf(txs[id].ident), input) {
        ExternalFound(txs, input.provider, input.external, id, byExternal);
      }
    } else if byExternal.Some? {
      assert !SameKey(txs[byExternal.value.ident.id].ident, input.provider, input.key);
    }
  }

  /** A submission is a replay exactly when its key is stored with the same business content, an
      idempotency conflict exactly when its key is stored with other content, and an external id
      conflict exactly when its key is unknown and its external id is not. The branch that reports
      an external id conflict for a known key with an equal hash is never taken. */
  lemma VerdictsAreExact(ws: seq<World>, acts: seq<Action>, i: nat, input: Input, byKey: Option<Tx>, byExternal: Option<Tx>)
    requires Run(ws, acts) && i < |ws| && InputValid(input)
    requires KeyAnswer(ws[i].db.txs, input.provider, input.key, byKey)
    requires ExternalAnswer(ws[i].db.txs, input.provider, input.external, byExternal)
    ensures VerdictMeans(input, Payload.Canonical(input), byKey, byExternal)
  {
    hide Init, Step, VerdictMeans, RowHashed, KeyAnswer, ExternalAnswer, Payload.Canonical;
    HashedRun(ws, acts, i);
    Reachable(ws, acts, i);
    RowAmounts(ws[i].db);
    HashTells(ws[i].db.txs, input, byKey, byExternal);
  }

  lemma RowAmounts(db: Store)
    requires Invariant.Inv(db)
    ensures IdentitiesUnique(db.txs) && forall k :: k in db.txs ==> db.txs[k].ident.amount.Valid()
  {
    forall k | k in db.txs ensures db.txs[k].ident.amount.Valid() {
      assert RowOk(db.wallets, db.txs[k]);
    }
  }
}
