/** Schedules in which an order is claimed only when no other worker still holds it. */
module SingleWorker {
  import opened Base
  import opened Tables
  import opened Consistency
  import opened Transactions
  import opened Queue
  import opened Machine
  import opened Safety
  import opened History
  import opened Replays
  import opened Truth

  predicate Holds(x: Worker, o: nat) {
    (x.Claimed? || x.Pass? || x.Judging?) && x.order == o
  }

  predicate NobodyHolds(s: State, o: nat) {
    forall v | v in s.workers :: !Holds(s.workers[v], o)
  }

  // The assumption behind the stale threshold: a requeued order's previous worker is gone.
  predicate Exclusive(actions: seq<Action>) {
    if actions == [] then true
    else
      var before, a := actions[..|actions| - 1], actions[|actions| - 1];
      Exclusive(before) && (a.ClaimOrder? ==> NobodyHolds(Run(before), a.o))
  }

  ghost predicate OneHolder(s: State) {
    forall v, u, o: nat | v in s.workers && u in s.workers && Holds(s.workers[v], o) && Holds(s.workers[u], o) :: v == u
  }

  // A decision whose event is still to be written is still only a decision.
  ghost predicate DecisionsStand(s: State) {
    forall v | v in s.workers && AtItem(s.workers[v]) && s.workers[v].phase.Undocumented? ::
      ValidKey(s.t, KeyOf(s.workers[v])) && ItemAt(s.t, KeyOf(s.workers[v])).status == Refunding
  }

  predicate Rewrites(s: State, a: Action, o: nat) {
    (a.Deliver? || a.GiveUp? || a.Settle?) && At(s, a.w).Pass? && At(s, a.w).order == o
  }

  lemma DeliverRewrites(s: State, w: nat, now: int, o: nat)
    requires o < |s.t.orders| && !Rewrites(s, Deliver(w, now), o)
    ensures o < |DoDeliver(s, w, now).t.orders| && DoDeliver(s, w, now).t.orders[o].items == s.t.orders[o].items
  {
    var x := At(s, w);
    if AtItem(x) && x.phase.Confirmed? {
      var d := Delivery(x.phase.requestId, x.phase.supplier, x.phase.code);
      if Complete(s.t, KeyOf(x), x.items[x.next].amount, d, now).Done? {
        CompleteTouches(s.t, KeyOf(x), x.items[x.next].amount, d, now);
      }
      hide Complete;
    }
  }

  lemma SettleRewrites(s: State, w: nat, now: int, o: nat)
    requires o < |s.t.orders| && !Rewrites(s, Settle(w, now), o)
    ensures o < |DoSettle(s, w, now).t.orders| && DoSettle(s, w, now).t.orders[o].items == s.t.orders[o].items
  {
  }

  // Only a holder's settlement steps rewrite an order's items.
  lemma ItemsStand(s: State, a: Action, o: nat)
    requires o < |s.t.orders| && !Rewrites(s, a, o)
    ensures o < |Next(s, a).t.orders| && Next(s, a).t.orders[o].items == s.t.orders[o].items
  {
    hide DoDeliver, DoSettle, DoCreate, DoReceive;
    if IsQueueStep(a) {
      QueueStands(s, a, o);
    } else if !WritesTables(a) {
      OthersWriteNothing(s, a);
    } else {
      match a
      case Deliver(w, now) => DeliverRewrites(s, w, now, o);
      case Settle(w, now) => SettleRewrites(s, w, now, o);
      case Create(currency, units, now) => CreateAppends(s, currency, units, now, o);
      case Receive(webhook, now) => ReceiveStands(s, webhook, now, o);
      case _ =>
    }
  }

  lemma QueueStands(s: State, a: Action, o: nat)
    requires o < |s.t.orders| && IsQueueStep(a)
    ensures o < |Next(s, a).t.orders| && Next(s, a).t.orders[o].items == s.t.orders[o].items
  {
    hide FinalStatus;
  }

  lemma CreateAppends(s: State, currency: string, units: seq<Unit>, now: int, o: nat)
    requires o < |s.t.orders|
    ensures o < |DoCreate(s, currency, units, now).t.orders| && DoCreate(s, currency, units, now).t.orders[o] == s.t.orders[o]
  {
  }

  lemma ReceiveStands(s: State, w: Webhook, now: int, o: nat)
    requires o < |s.t.orders|
    ensures o < |DoReceive(s, w, now).t.orders| && DoReceive(s, w, now).t.orders[o].items == s.t.orders[o].items
  {
    if HandleWebhook(s.t, w, now).Some? {
      WebhookSameItems(s.t, w, now);
    }
  }

  predicate HasWorker(a: Action) {
    !a.Create? && !a.Receive? && !a.BookCode?
  }

  // A step moves its own worker only, and only a claim takes hold of an order.
  lemma WorkersMoveAlone(s: State, a: Action)
    ensures !HasWorker(a) ==> Next(s, a).workers == s.workers
    ensures HasWorker(a) ==> forall v: nat | v != a.w :: At(Next(s, a), v) == At(s, v)
    ensures HasWorker(a) ==> forall o: nat | Holds(At(Next(s, a), a.w), o) :: Holds(At(s, a.w), o) || (a.ClaimOrder? && a.o == o)
  {
    hide HandleWebhook, CreateOrder, IdsFree, Claim, Complete, Decide, BookRefund, LogDecision, MoveOrder, Requeue, Verdict, PayOut;
  }

  lemma HoldersStep(s: State, a: Action)
    requires OneHolder(s)
    requires a.ClaimOrder? ==> NobodyHolds(s, a.o)
    ensures OneHolder(Next(s, a))
  {
    var s' := Next(s, a);
    WorkersMoveAlone(s, a);
    hide Next;
    forall v, u, o: nat | v in s'.workers && u in s'.workers && Holds(s'.workers[v], o) && Holds(s'.workers[u], o)
      ensures v == u
    {
      assert At(s', v) == s'.workers[v] && At(s', u) == s'.workers[u];
      assert Holds(At(s, v), o) || (a.ClaimOrder? && a.o == o && v == a.w);
      assert Holds(At(s, u), o) || (a.ClaimOrder? && a.o == o && u == a.w);
    }
  }

  lemma OwnDecision(s: State, a: Action)
    requires Inv(s) && HasWorker(a)
    requires AtItem(At(Next(s, a), a.w)) && At(Next(s, a), a.w).phase.Undocumented?
    ensures Next(s, a) == s || (a.GiveUp? && At(Next(s, a), a.w).order == At(s, a.w).order && At(s, a.w).Pass?
                                && ValidKey(Next(s, a).t, KeyOf(At(Next(s, a), a.w)))
                                && ItemAt(Next(s, a).t, KeyOf(At(Next(s, a), a.w))).status == Refunding)
  {
    assert WorkerOk(s, At(s, a.w));
  }

  lemma DecisionsStep(s: State, a: Action)
    requires Inv(s) && OneHolder(s) && DecisionsStand(s)
    ensures DecisionsStand(Next(s, a))
  {
    var s' := Next(s, a);
    WorkersMoveAlone(s, a);
    forall v | v in s'.workers && AtItem(s'.workers[v]) && s'.workers[v].phase.Undocumented?
      ensures ValidKey(s'.t, KeyOf(s'.workers[v])) && ItemAt(s'.t, KeyOf(s'.workers[v])).status == Refunding
    {
      assert At(s', v) == s'.workers[v];
      if HasWorker(a) && v == a.w {
        OwnDecision(s, a);
      } else {
        assert At(s, v) == s'.workers[v];
        KeptDecision(s, a, v);
      }
    }
  }

  lemma KeptDecision(s: State, a: Action, v: nat)
    requires Inv(s) && OneHolder(s) && DecisionsStand(s) && (HasWorker(a) ==> v != a.w)
    requires v in s.workers && AtItem(s.workers[v]) && s.workers[v].phase.Undocumented?
    ensures ValidKey(Next(s, a).t, KeyOf(s.workers[v])) && ItemAt(Next(s, a).t, KeyOf(s.workers[v])).status == Refunding
  {
    var o := s.workers[v].order;
    hide Next;
    assert Holds(s.workers[v], o);
    assert HasWorker(a) && a.w in s.workers ==> !Holds(s.workers[a.w], o);
    ItemsStand(s, a, o);
  }

  // One worker per order: no decision is ever written late, so every replay is the truth, even
  // though the decision and its event are separate commits and a crash may fall between them.
  lemma {:induction false} ExclusiveRunsAreNeverLate(actions: seq<Action>)
    requires Exclusive(actions)
    ensures OneHolder(Run(actions)) && DecisionsStand(Run(actions))
    ensures LateDecisions(actions) == {}
  {
    if actions != [] {
      var before, a := actions[..|actions| - 1], actions[|actions| - 1];
      ExclusiveRunsAreNeverLate(before);
      RunsAreSafe(before);
      HoldersStep(Run(before), a);
      DecisionsStep(Run(before), a);
    }
  }

  // Only a decision whose event a crash has cut off, or is yet to come, is missing from an item's
  // replay, and it moves no money.
  lemma ReplayIsTheTruth(actions: seq<Action>, key: ItemKey)
    requires Exclusive(actions) && ValidKey(Run(actions).t, key)
    ensures var t := Run(actions).t;
            var r := ReplayOf(t, key.order);
            && r.Some? && key.position < |r.value.items|
            && var item, live := r.value.items[key.position], LiveItem(t, key);
            && item == (if key in UnwrittenDecisions(actions) then live.(status := Pending) else live)
            && (key in UnwrittenDecisions(actions) ==> live.status == Refunding)
            && MoneyIn(r.value) == MoneyIn(LiveOrder(t, key.order))
  {
    ExclusiveRunsAreNeverLate(actions);
    ReplayIsTheTruthUnlessLate(actions, key);
    ReplayedMoney(actions, key.order);
  }
}
