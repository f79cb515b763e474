/** Delivery of the integration events over every run of the service. */
module Delivery {
  import opened Wrappers
  import opened Model
  import opened Settlement
  import opened Opening
  import opened Machine
  import opened Safety
  import opened Runs
  import Outbox

  /** What one step of the service does to the outbox. */
  ghost predicate OutboxStep(s: Outbox.State, a: Action, s': Outbox.State) {
    || s' == s
    || (a.Publish? && Outbox.Step(s, a.outbox, s'))
    || exists events :: Outbox.EventsFresh(s, events) && s' == Outbox.Queue(s, events)
  }

  lemma CommitQueues(w: World, a: Action, w': World)
    requires (a.Open? || a.CommitNew? || a.CommitWake?) && Step(w, a, w')
    ensures var events := Written(w, a, w').events;
            Outbox.EventsFresh(w.outbox, events) && w'.outbox == Outbox.Queue(w.outbox, events)
  {
    hide Outbox.Queue, Outbox.EventsFresh;
  }

  lemma OthersLeaveOutbox(w: World, a: Action, w': World)
    requires !(a.Open? || a.CommitNew? || a.CommitWake?) && Step(w, a, w')
    ensures w'.outbox == w.outbox || (a.Publish? && Outbox.Step(w.outbox, a.outbox, w'.outbox))
  {
    hide Outbox.Step;
  }

  lemma StepOutbox(w: World, a: Action, w': World)
    requires Step(w, a, w')
    ensures OutboxStep(w.outbox, a, w'.outbox)
  {
    hide Step, Written, Outbox.Step, Outbox.Queue, Outbox.EventsFresh;
    if a.Open? || a.CommitNew? || a.CommitWake? {
      CommitQueues(w, a, w');
    } else {
      OthersLeaveOutbox(w, a, w');
    }
  }

  /** Rows stay, published rows are final, and a replaced token never comes back. */
  ghost predicate OutboxGrows(s: Outbox.State, s': Outbox.State, event: string, token: string) {
    event in s.rows ==>
      && event in s'.rows && s.log <= s'.log
      && (s.rows[event].published.Some? ==> s'.rows[event] == s.rows[event])
      && (Outbox.Claimed(event, token) in s.log && s.rows[event].token != Some(token) ==> s'.rows[event].token != Some(token))
  }

  lemma OutboxStepGrows(s: Outbox.State, a: Action, s': Outbox.State, event: string, token: string)
    requires Outbox.Inv(s) && OutboxStep(s, a, s')
    ensures OutboxGrows(s, s', event, token)
  {
    hide Outbox.Inv, Outbox.Step, Outbox.Queue, Outbox.EventsFresh;
    if event in s.rows && s' != s {
      if a.Publish? && Outbox.Step(s, a.outbox, s') {
        Outbox.StepIsMonotone(s, a.outbox, s', event, token);
      } else {
        var events :| Outbox.EventsFresh(s, events) && s' == Outbox.Queue(s, events);
        Outbox.QueueKeepsInv(s, events);
      }
    }
  }

  lemma OutboxPart(w: World)
    requires WorldInv(w)
    ensures Outbox.Inv(w.outbox) && Queued(w)
  {}

  /** Publication is final, and a stale worker stays stale, over the rest of the run. */
  lemma {:induction false} RunOutbox(ws: seq<World>, acts: seq<Action>, i: nat, j: nat, event: string, token: string)
    requires Run(ws, acts) && i <= j < |ws|
    ensures OutboxGrows(ws[i].outbox, ws[j].outbox, event, token)
  {
    hide WorldInv, Step, Init, Outbox.Inv, OutboxStep;
    if i < j {
      RunOutbox(ws, acts, i, j - 1, event, token);
      Reachable(ws, acts, j - 1);
      OutboxPart(ws[j - 1]);
      StepOutbox(ws[j - 1], acts[j - 1], ws[j]);
      OutboxStepGrows(ws[j - 1].outbox, acts[j - 1], ws[j].outbox, event, token);
      GrowthChains(ws[i].outbox, ws[j - 1].outbox, ws[j].outbox, event, token);
    }
  }

  lemma GrowthChains(s: Outbox.State, t: Outbox.State, u: Outbox.State, event: string, token: string)
    requires OutboxGrows(s, t, event, token) && OutboxGrows(t, u, event, token)
    ensures OutboxGrows(s, u, event, token)
  {
    if event in s.rows && Outbox.Claimed(event, token) in s.log {
      var k :| 0 <= k < |s.log| && s.log[k] == Outbox.Claimed(event, token);
      assert t.log[k] == Outbox.Claimed(event, token);
    }
  }

  /** Every event of the log is in the outbox: its attempts count its claims, it was sent if it is
      marked published, and until then it can be claimed whenever it is due. */
  lemma EveryEventIsDelivered(ws: seq<World>, acts: seq<Action>, i: nat, p: nat, now: Time)
    requires Run(ws, acts) && i < |ws| && p < |ws[i].db.events|
    ensures var s, id := ws[i].outbox, ws[i].db.events[p].id;
            && id in s.rows && s.rows[id].attempts == Outbox.ClaimCount(s.log, id)
            && (s.rows[id].published.Some? ==> exists k :: 0 <= k < |s.log| && s.log[k].Sent? && s.log[k].event == id)
            && (Outbox.Eligible(s.rows[id], now) <==> s.rows[id].published.None? && s.rows[id].nextAt <= now)
  {
    hide WorldInv, Step, Init;
    Reachable(ws, acts, i);
    OutboxPart(ws[i]);
    var s, id := ws[i].outbox, ws[i].db.events[p].id;
    assert Outbox.RowInv(s.log, id, s.rows[id]);
    Outbox.ClaimableWhenDue(s, id, now);
  }

  /** An event becomes published only by a confirmation under its current token, after it was sent
      under that token. */
  lemma PublishedAfterSend(ws: seq<World>, acts: seq<Action>, i: nat, event: string)
    requires Run(ws, acts) && i < |acts| && event in ws[i].outbox.rows && ws[i].outbox.rows[event].published.None?
    ensures event in ws[i + 1].outbox.rows
    ensures ws[i + 1].outbox.rows[event].published.Some? ==>
              && acts[i].Publish? && acts[i].outbox.Confirm? && acts[i].outbox.event == event
              && ws[i].outbox.rows[event].token == Some(acts[i].outbox.token)
              && Outbox.Sent(event, acts[i].outbox.token) in ws[i].outbox.log
  {
    hide WorldInv, Step, Init, Outbox.Inv, OutboxStep;
    Reachable(ws, acts, i);
    OutboxPart(ws[i]);
    assert Step(ws[i], acts[i], ws[i + 1]);
    StepOutbox(ws[i], acts[i], ws[i + 1]);
    OutboxStepPublishes(ws[i].outbox, acts[i], ws[i + 1].outbox, event);
  }

  lemma OutboxStepPublishes(s: Outbox.State, a: Action, s': Outbox.State, event: string)
    requires Outbox.Inv(s) && OutboxStep(s, a, s') && event in s.rows && s.rows[event].published.None?
    ensures event in s'.rows
    ensures s'.rows[event].published.Some? ==>
              && a.Publish? && a.outbox.Confirm? && a.outbox.event == event
              && s.rows[event].token == Some(a.outbox.token) && Outbox.Sent(event, a.outbox.token) in s.log
  {
    hide Outbox.Inv, Outbox.Queue, Outbox.EventsFresh;
    if s' != s {
      if a.Publish? && Outbox.Step(s, a.outbox, s') {
        if a.outbox.Confirm? || a.outbox.Retry? {
          Outbox.StaleTokensChangeNothing(s, a.outbox, s');
        }
      } else {
        var events :| Outbox.EventsFresh(s, events) && s' == Outbox.Queue(s, events);
        Outbox.QueueKeepsInv(s, events);
      }
    }
  }
}
