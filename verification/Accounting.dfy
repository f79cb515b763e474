/** The reversal accounting identity: which bets and wins are in force, and how one more
    transaction changes their sum. */
module Accounting {
  import opened Wrappers
  import opened Monetary
  import opened Model
  import opened Settlement
  import opened Store
  import opened Sums

  /** A win counts until it is rolled back; a bet counts unless it was reversed, and counts again
      when the refund that reversed it was itself rolled back. */
  ghost predicate InForce(txs: map<string, Tx>, id: string)
    requires id in txs
  {
    || !HasReversal(txs, id)
    || (txs[id].ident.kind.Bet?
        && exists r :: r in txs && ReversalOf(txs[r], id) && txs[r].ident.kind.Refund? && HasReversal(txs, r))
  }

  /** What a transaction contributes to the balance of wallet `w`. */
  ghost function Contribution(txs: map<string, Tx>, w: string, id: string): int
    requires id in txs
  {
    var t := txs[id];
    var amount := t.ident.amount.minor as int;
    if t.ident.wallet != w || !t.status.Processed? then 0
    else
      match t.ident.kind
      case Opening => amount
      case Win => if InForce(txs, id) then amount else 0
      case Bet => if InForce(txs, id) then -amount else 0
      case _ => 0
  }

  ghost function Contributions(txs: map<string, Tx>, w: string): map<string, int> {
    map id | id in txs :: Contribution(txs, w, id)
  }

  /** The signed amount by which a processed transaction moves its wallet. */
  function Shift(txs: map<string, Tx>, t: Tx): int {
    var effect, amount := EffectOf(txs, t), t.ident.amount.minor as int;
    if effect > 0 then amount else if effect < 0 then -amount else 0
  }

  /** Opening amount, plus wins in force, minus bets in force. */
  ghost function NetInForce(txs: map<string, Tx>, w: string): int {
    SumOf(Contributions(txs, w))
  }

  ghost predicate ReferencesOk(txs: map<string, Tx>) {
    forall k :: k in txs ==>
      && txs[k].ident.id == k && k != ""
      && ReferenceHolds(txs, txs[k])
      && (txs[k].status.Processed? && txs[k].ident.kind.Reversal() ==> txs[k].refId != "")
  }

  ghost predicate OneReversal(txs: map<string, Tx>) {
    forall a, b, id :: a in txs && b in txs && ReversalOf(txs[a], id) && ReversalOf(txs[b], id) ==> a == b
  }

  /** A row that is about to be written: new or not yet processed, with sound references. */
  ghost predicate Writable(txs: map<string, Tx>, t: Tx) {
    && ReferencesOk(txs)
    && t.ident.id != ""
    && (t.ident.id in txs ==> !txs[t.ident.id].status.Processed? && txs[t.ident.id].ident == t.ident)
    && ReferenceHolds(txs, t)
    && (t.ident.kind.Reversal() && t.status.Processed? ==> t.refId != "" && !HasReversal(txs, t.refId))
  }

  lemma NotYetReversed(txs: map<string, Tx>, t: Tx)
    requires Writable(txs, t)
    ensures !HasReversal(txs, t.ident.id)
  {}

  lemma ReversalsAfter(txs: map<string, Tx>, t: Tx, x: string)
    requires Writable(txs, t)
    ensures HasReversal(txs[t.ident.id := t], x) <==> HasReversal(txs, x) || ReversalOf(t, x)
  {
    var txs' := txs[t.ident.id := t];
    if HasReversal(txs, x) {
      var r :| r in txs && ReversalOf(txs[r], x);
      assert r in txs' && ReversalOf(txs'[r], x);
    }
    if ReversalOf(t, x) {
      assert ReversalOf(txs'[t.ident.id], x);
    }
    if HasReversal(txs', x) {
      var r :| r in txs' && ReversalOf(txs'[r], x);
      assert r == t.ident.id || ReversalOf(txs[r], x);
    }
  }

  /** The bet or win whose standing a reversal changes: the reference itself, or the bet behind a
      refund. */
  function Root(txs: map<string, Tx>, t: Tx): string {
    if t.refId in txs && txs[t.refId].ident.kind.Refund? then txs[t.refId].refId else t.refId
  }

  lemma BackInForceStays(txs: map<string, Tx>, t: Tx, x: string, r: string)
    requires Writable(txs, t) && r in txs && r != t.ident.id
    requires ReversalOf(txs[r], x) && txs[r].ident.kind.Refund? && HasReversal(txs, r)
    ensures x in txs && x != t.ident.id && txs[x].ident.kind.Bet? ==> InForce(txs[t.ident.id := t], x)
  {
    var txs' := txs[t.ident.id := t];
    ReversalsAfter(txs, t, r);
    assert r in txs' && ReversalOf(txs'[r], x);
  }

  /** A bet that is not the root of the new reversal keeps its standing. */
  lemma StandingKept(txs: map<string, Tx>, t: Tx, x: string)
    requires Writable(txs, t) && x in txs && txs[x].ident.kind.Bet? && x != t.ident.id
    requires t.status.Processed? && t.ident.kind.Reversal() ==> x != Root(txs, t)
    ensures InForce(txs[t.ident.id := t], x) <==> InForce(txs, x)
  {
    var txs' := txs[t.ident.id := t];
    ReversalsAfter(txs, t, x);
    if InForce(txs, x) && HasReversal(txs, x) {
      var r :| r in txs && ReversalOf(txs[r], x) && txs[r].ident.kind.Refund? && HasReversal(txs, r);
      BackInForceStays(txs, t, x, r);
    }
    if InForce(txs', x) && HasReversal(txs', x) {
      var r :| r in txs' && ReversalOf(txs'[r], x) && txs'[r].ident.kind.Refund? && HasReversal(txs', r);
      ReversalsAfter(txs, t, r);
      NotYetReversed(txs, t);
    }
  }

  /** Only the written transaction and the root of a reversal change their contribution. */
  lemma ContributionKept(txs: map<string, Tx>, t: Tx, w: string, x: string)
    requires Writable(txs, t) && x in txs && x != t.ident.id
    requires t.status.Processed? && t.ident.kind.Reversal() ==> x != Root(txs, t)
    ensures Contribution(txs[t.ident.id := t], w, x) == Contribution(txs, w, x)
  {
    ReversalsAfter(txs, t, x);
    if txs[x].ident.kind.Bet? {
      StandingKept(txs, t, x);
    }
  }

  /** A transaction that is not a processed reversal contributes its own effect. */
  lemma PlainContribution(txs: map<string, Tx>, t: Tx, w: string)
    requires Writable(txs, t) && !(t.status.Processed? && t.ident.kind.Reversal()) && !t.ident.kind.Opening?
    ensures Contribution(txs[t.ident.id := t], w, t.ident.id)
            == if t.ident.wallet == w && t.status.Processed? then Shift(txs, t) else 0
    ensures t.ident.id in txs ==> Contribution(txs, w, t.ident.id) == 0
  {
    ReversalsAfter(txs, t, t.ident.id);
    NotYetReversed(txs, t);
  }

  lemma NetAfterPlain(txs: map<string, Tx>, t: Tx, w: string)
    requires Writable(txs, t) && !(t.status.Processed? && t.ident.kind.Reversal()) && !t.ident.kind.Opening?
    ensures NetInForce(txs[t.ident.id := t], w) == NetInForce(txs, w)
            + if t.ident.wallet == w && t.status.Processed? then Shift(txs, t) else 0
  {
    var id, txs' := t.ident.id, txs[t.ident.id := t];
    var v := Contribution(txs', w, id);
    forall x | x in txs && x != id ensures Contribution(txs', w, x) == Contribution(txs, w, x) {
      ContributionKept(txs, t, w, x);
    }
    assert Contributions(txs', w) == Contributions(txs, w)[id := v];
    SumAfterUpdate(Contributions(txs, w), id, v);
    PlainContribution(txs, t, w);
  }

  /** Reversing a bet or a win takes it out of force; undoing a refund puts its bet back. */
  lemma RootFlips(txs: map<string, Tx>, t: Tx, w: string)
    requires Writable(txs, t) && OneReversal(txs) && t.status.Processed? && t.ident.kind.Reversal()
    ensures var root := Root(txs, t);
            && root in txs && root != t.ident.id
            && Contribution(txs[t.ident.id := t], w, root) == Contribution(txs, w, root)
               + if t.ident.wallet == w then Shift(txs, t) else 0
  {
    if txs[t.refId].ident.kind.Refund? {
      RefundUndone(txs, t);
    } else {
      ReversalStands(txs, t);
    }
  }

  /** Before, the bet behind an unreversed refund is out of force; after the rollback it is back. */
  lemma RefundUndone(txs: map<string, Tx>, t: Tx)
    requires Writable(txs, t) && OneReversal(txs) && t.status.Processed? && t.ident.kind.Reversal() && t.refId in txs
    requires txs[t.refId].ident.kind.Refund?
    ensures var root := Root(txs, t); root in txs && !InForce(txs, root) && InForce(txs[t.ident.id := t], root)
  {
    var txs' := txs[t.ident.id := t];
    var root := Root(txs, t);
    var r := t.refId;
    assert ReversalOf(txs[r], root);
    ReversalsAfter(txs, t, r);
    assert r in txs' && ReversalOf(txs'[r], root) && txs'[r].ident.kind.Refund? && HasReversal(txs', r);
  }

  /** A direct reversal takes its bet or win out of force. */
  lemma ReversalStands(txs: map<string, Tx>, t: Tx)
    requires Writable(txs, t) && t.status.Processed? && t.ident.kind.Reversal() && t.refId in txs
    requires !txs[t.refId].ident.kind.Refund?
    ensures InForce(txs, t.refId) && !InForce(txs[t.ident.id := t], t.refId)
  {
    var txs' := txs[t.ident.id := t];
    var root := t.refId;
    ReversalsAfter(txs, t, root);
    NotYetReversed(txs, t);
    ReversalsAfter(txs, t, t.ident.id);
    forall q | q in txs' && ReversalOf(txs'[q], root) ensures q == t.ident.id {
    }
  }

  lemma NetAfterReversal(txs: map<string, Tx>, t: Tx, w: string)
    requires Writable(txs, t) && OneReversal(txs) && t.status.Processed? && t.ident.kind.Reversal()
    ensures NetInForce(txs[t.ident.id := t], w) == NetInForce(txs, w)
            + if t.ident.wallet == w then Shift(txs, t) else 0
  {
    var id, root, before := t.ident.id, Root(txs, t), Contributions(txs, w);
    RootFlips(txs, t, w);
    var v := Contribution(txs[id := t], w, root);
    ContributionsAfterReversal(txs, t, w);
    SumAfterUpdate(before, id, 0);
    SumAfterUpdate(before[id := 0], root, v);
  }

  lemma ContributionsAfterReversal(txs: map<string, Tx>, t: Tx, w: string)
    requires Writable(txs, t) && t.status.Processed? && t.ident.kind.Reversal()
    requires Root(txs, t) in txs && Root(txs, t) != t.ident.id
    ensures Contributions(txs[t.ident.id := t], w)
            == Contributions(txs, w)[t.ident.id := 0][Root(txs, t) := Contribution(txs[t.ident.id := t], w, Root(txs, t))]
    ensures t.ident.id in txs ==> Contributions(txs, w)[t.ident.id] == 0
  {
    var id, txs', root := t.ident.id, txs[t.ident.id := t], Root(txs, t);
    forall x | x in txs && x != id && x != root ensures Contribution(txs', w, x) == Contribution(txs, w, x) {
      ContributionKept(txs, t, w, x);
    }
  }

  /** One more row moves the sum of what is in force by exactly its effect. */
  lemma NetAfter(txs: map<string, Tx>, t: Tx, w: string)
    requires Writable(txs, t) && OneReversal(txs) && !t.ident.kind.Opening?
    ensures NetInForce(txs[t.ident.id := t], w) == NetInForce(txs, w)
            + if t.ident.wallet == w && t.status.Processed? then Shift(txs, t) else 0
  {
    if t.status.Processed? && t.ident.kind.Reversal() {
      NetAfterReversal(txs, t, w);
    } else {
      NetAfterPlain(txs, t, w);
    }
  }
}
