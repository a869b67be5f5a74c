/**
 The other side of the bargain: everything the program does elsewhere leaves a held order alone, so
 what a pass expects of the others is what the others do.
 */
module Interference {
  import opened Base
  import opened Tables
  import opened Consistency
  import opened Queue
  import opened Evidence
  import opened Passing
  import opened Outcomes
  import opened Service
  import opened Lifetime
  import Findings

  // Nobody else doing anything is one tolerable schedule.
  lemma QuietIsTolerable(c: Config)
    ensures Tolerable((n, t, held) => t, c)
  {
    hide Ready, FactsOf, Accrues;
    forall t ensures Accrues(t, t) { AccruesAlready(t); }
  }

  lemma SameOrderIsForeign(t: Tables, t': Tables, c: Config, o: nat)
    requires Ready(t', c) && o < |t.orders| && o < |t'.orders| && t'.orders[o] == t.orders[o]
    requires t'.deliveries == t.deliveries && t'.refunds == t.refunds
    requires t'.attempts == t.attempts && t'.discrepancies == t.discrepancies && Accrues(t, t')
    ensures Foreign(t, t', c, o)
  {
    hide Ready, RejectedBy, Accrues;
  }

  // A webhook, even one for the held order itself, is recorded without touching it.
  lemma WebhookIsForeign(t: Tables, c: Config, w: Webhook, now: int, o: nat)
    requires Ready(t, c) && o < |t.orders| && t.orders[o].status == Delivering
    ensures HandleWebhook(t, w, now).Some?
    ensures Foreign(t, HandleWebhook(t, w, now).value.0, c, o)
  {
    WebhookIsReady(t, c, w, now);
    WebhookPassesBy(t, w, now, o);
    hide HandleWebhook, Ready, Accrues;
    SameOrderIsForeign(t, HandleWebhook(t, w, now).value.0, c, o);
  }

  lemma WebhookPassesBy(t: Tables, w: Webhook, now: int, o: nat)
    requires o < |t.orders| && t.orders[o].status == Delivering && HandleWebhook(t, w, now).Some?
    ensures var t' := HandleWebhook(t, w, now).value.0;
            && o < |t'.orders| && t'.orders[o] == t.orders[o]
            && t'.deliveries == t.deliveries && t'.refunds == t.refunds
            && t'.attempts == t.attempts && t'.discrepancies == t.discrepancies
  {
    hide Clashes;
  }

  lemma CreateIsForeign(t: Tables, c: Config, currency: string, units: seq<Unit>, now: int, o: nat)
    requires Ready(t, c) && FreshIds(t, units) && CreateOrder(t, currency, units, now).Some? && o < |t.orders|
    ensures Foreign(t, CreateOrder(t, currency, units, now).value, c, o)
  {
    CreateIsReady(t, c, currency, units, now);
    hide Ready;
    SameOrderIsForeign(t, CreateOrder(t, currency, units, now).value, c, o);
  }

  // Claims, requeues and retries of another order.
  lemma QueueMovesAreForeign(t: Tables, c: Config, p: nat, previous: OrderStatus, now: int, o: nat)
    requires Ready(t, c) && o < |t.orders| && p < |t.orders| && p != o
    ensures Claim(t, p, now).Some? ==> Foreign(t, Claim(t, p, now).value, c, o)
    ensures IsPaid(t.orders[p].status) && IsPaid(previous) ==> Foreign(t, Requeue(t, p, previous, now), c, o)
    ensures MoveOrder(t, p, DeliveryFailed, Paid, NoExtra).Some? ==>
              Foreign(t, MoveOrder(t, p, DeliveryFailed, Paid, NoExtra).value, c, o)
  {
    hide Ready, OwnOrder, Claim, Requeue, MoveOrder;
    if Claim(t, p, now).Some? {
      ClaimOwn(t, c, p, now);
      OwnOrderIsForeign(t, Claim(t, p, now).value, c, p, o);
    }
    if IsPaid(t.orders[p].status) && IsPaid(previous) {
      RequeueOwn(t, c, p, previous, now);
      OwnOrderIsForeign(t, Requeue(t, p, previous, now), c, p, o);
    }
    if MoveOrder(t, p, DeliveryFailed, Paid, NoExtra).Some? {
      RetryOwn(t, c, p);
      OwnOrderIsForeign(t, MoveOrder(t, p, DeliveryFailed, Paid, NoExtra).value, c, p, o);
    }
  }

  // Findings of the audit reject nothing, whatever they are about.
  lemma AuditIsForeign(t: Tables, c: Config, d: Discrepancy, o: nat)
    requires Ready(t, c) && !Rejecting(d) && d.supplier in c.suppliers && o < |t.orders|
    ensures Foreign(t, AddDiscrepancy(t, d), c, o)
  {
    hide Ready, FactsOf, Accrues;
    Findings.FindingIsReady(t, c, d);
    FindingAccrues(t, d);
    forall j: nat | j < |t.orders[o].items|
      ensures FactsOf(AddDiscrepancy(t, d), c, ItemKey(o, j)) == FactsOf(t, c, ItemKey(o, j))
    {
      if !AlreadyFound(t.discrepancies, d) {
        AddedFacts(t, c, d, ItemKey(o, j));
      }
    }
  }
}
