/** The worker's queue: which order is claimed next, and how wake-up calls fold into running drains. */
module Worker {
  import opened Base
  import opened Tables

  // By time of payment; an order without one comes last.
  predicate PaidNoLater(a: Order, b: Order) {
    b.paidAt.None? || (a.paidAt.Some? && a.paidAt.value <= b.paidAt.value)
  }

  // The paid order whose time has come and that was paid first, if there is any such order.
  ghost predicate IsNext(orders: seq<Order>, now: int, next: Option<nat>) {
    match next
    case None =>
      forall o | 0 <= o < |orders| && orders[o].status == Paid :: orders[o].notBefore.Some? && orders[o].notBefore.value > now
    case Some(n) =>
      && n < |orders|
      && orders[n].status == Paid && (orders[n].notBefore.Some? ==> orders[n].notBefore.value <= now)
      && forall o | 0 <= o < |orders| && orders[o].status == Paid && orders[o].paidAt.Some? ::
           || (orders[o].notBefore.Some? && orders[o].notBefore.value > now)
           || (orders[n].paidAt.Some? && orders[n].paidAt.value <= orders[o].paidAt.value)
  }

  // Among the orders due now the one paid first; having been deferred does not cost an order its rank.
  method PickNext(orders: seq<Order>, now: int) returns (next: Option<nat>)
    ensures IsNext(orders, now, next)
  {
    next := None;
    for o := 0 to |orders|
      invariant next.None? <==> forall p | 0 <= p < o :: !IsDue(orders[p], now)
      invariant next.Some? ==>
          && next.value < o && IsDue(orders[next.value], now)
          && forall p | 0 <= p < o && IsDue(orders[p], now) :: PaidNoLater(orders[next.value], orders[p])
    {
      if IsDue(orders[o], now) && (next.None? || !PaidNoLater(orders[next.value], orders[o])) {
        next := Some(o);
      }
    }
  }

  // However many wake-ups find a drain running, they leave one mark between them.
  class WakeSignal {
    var current: bool        // a drain is running
    var wakeRequested: bool
    var stopping: bool
    ghost var drains: nat    // drains started so far
    ghost var unserved: bool // a wake-up came after the last drain started

    // A wake-up not served yet is remembered by a drain that is still running.
    ghost predicate Valid()
      reads this
    {
      unserved <==> current && wakeRequested
    }

    constructor ()
      ensures Valid() && !current && !stopping && drains == 0
    {
      current, wakeRequested, stopping, drains, unserved := false, false, false, 0, false;
    }

    method Start()
      modifies this`wakeRequested, this`drains, this`unserved
      ensures !wakeRequested && !unserved && drains == old(drains) + 1
    {
      wakeRequested, drains, unserved := false, drains + 1, false;
    }

    method Wake()
      requires Valid()
      modifies this
      ensures Valid() && current && stopping == old(stopping)
      ensures if old(current) then unserved && drains == old(drains) else !unserved && drains == old(drains) + 1
    {
      if current {
        wakeRequested, unserved := true, true;
        return;
      }
      current := true;
      Start();
    }

    method Stop()
      requires Valid()
      modifies this`stopping
      ensures Valid() && stopping
    {
      stopping := true;
    }

    // The running drain returned or threw. A folded wake-up gets its own drain, except that it is
    // lost exactly when the drain threw or the worker is stopping.
    method DrainEnds(failed: bool) returns (lost: bool)
      requires Valid() && current
      modifies this
      ensures Valid() && stopping == old(stopping)
      ensures lost <==> old(unserved) && (failed || stopping)
      ensures old(unserved) && !lost ==> current && drains == old(drains) + 1
      ensures !old(unserved) || lost ==> !current && drains == old(drains)
      ensures !unserved
    {
      if !failed && wakeRequested && !stopping {
        Start();
        return false;
      }
      lost := wakeRequested;
      current, unserved := false, false;
    }
  }
}
