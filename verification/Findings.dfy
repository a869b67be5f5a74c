/**
 What the audit makes of one entry on a supplier's statement. What was delivered, which item a
 request id belongs to and what was already explained are read one after the other, and the passes
 of the same process go on in between, so a finding is relative to what was read; whether it is so
 is a question of its own.
 */
module Findings {
  import opened Base
  import opened Tables
  import opened RequestIds
  import opened Consistency
  import opened Evidence
  import opened Requests

  datatype StatementEntry = StatementEntry(requestId: string, code: string)

  predicate DeliveredUnder(t: Tables, supplier: string, requestId: string, key: ItemKey) {
    key in t.deliveries && t.deliveries[key].supplier == supplier && t.deliveries[key].requestId == requestId
  }

  predicate Explained(t: Tables, supplier: string, requestId: string) {
    exists i :: 0 <= i < |t.discrepancies| && t.discrepancies[i].supplier == supplier && t.discrepancies[i].requestId == requestId
  }

  // The tables at the three reads.
  datatype Views = Views(delivered: Tables, asked: Tables, noted: Tables)

  ghost predicate ViewsOk(v: Views, c: Config) {
    && Ready(v.delivered, c) && Ready(v.asked, c) && Ready(v.noted, c)
    && Accrues(v.delivered, v.asked) && Accrues(v.asked, v.noted)
  }

  ghost predicate DeliveredAs(t: Tables, supplier: string, e: StatementEntry) {
    exists key :: DeliveredUnder(t, supplier, e.requestId, key) && t.deliveries[key].code == e.code
  }

  ghost predicate OfOpenItem(t: Tables, supplier: string, requestId: string) {
    exists key :: AskedUnder(t, supplier, requestId, key) && IsOpen(ItemAt(t, key).status)
  }

  // By what was read: delivered exactly as booked, written down as a discrepancy, or of an item still open.
  ghost predicate Accounted(v: Views, supplier: string, e: StatementEntry) {
    || DeliveredAs(v.delivered, supplier, e)
    || Explained(v.noted, supplier, e.requestId)
    || OfOpenItem(v.asked, supplier, e.requestId)
  }

  // A request id names one item, in the attempts as in the deliveries.
  lemma OneItemPerRequest(t: Tables, c: Config, supplier: string, requestId: string, a: ItemKey, b: ItemKey)
    requires Ready(t, c)
    requires AskedUnder(t, supplier, requestId, a) || DeliveredUnder(t, supplier, requestId, a)
    requires AskedUnder(t, supplier, requestId, b) || DeliveredUnder(t, supplier, requestId, b)
    ensures a == b
  {
    OwnRequestOf(t, c, supplier, requestId, a);
    OwnRequestOf(t, c, supplier, requestId, b);
    hide EvidenceOk, RequestId;
    var r: nat :| r >= 1 && requestId == RequestId(ItemAt(t, a).id, supplier, r);
    var q: nat :| q >= 1 && requestId == RequestId(ItemAt(t, b).id, supplier, q);
    assert IdsOk(t);
    RequestIdsInjective(ItemAt(t, a).id, supplier, r, ItemAt(t, b).id, supplier, q);
  }

  lemma OwnRequestOf(t: Tables, c: Config, supplier: string, requestId: string, key: ItemKey)
    requires Ready(t, c)
    requires AskedUnder(t, supplier, requestId, key) || DeliveredUnder(t, supplier, requestId, key)
    ensures ValidKey(t, key) && NoColon(supplier) && OwnRequest(ItemAt(t, key), supplier, requestId)
  {
    if AskedUnder(t, supplier, requestId, key) {
      var f := FactsOf(t, c, key);
      assert FactsOk(c, f);
      var i :| 0 <= i < |f.log| && f.log[i].supplier == supplier && f.log[i].requestId == requestId;
      assert OwnAttempt(c, f.row, f.log[i]);
    } else {
      assert DeliveriesOk(t);
    }
  }

  // ---- Deliveries and settled items stay what they are ----

  lemma DeliveryStays(t: Tables, t': Tables, supplier: string, requestId: string, key: ItemKey)
    requires Accrues(t, t') && DeliveredUnder(t, supplier, requestId, key)
    ensures DeliveredUnder(t', supplier, requestId, key) && t'.deliveries[key] == t.deliveries[key]
  {
    hide Advances;
  }

  lemma DeliveredIsSettled(t: Tables, c: Config, key: ItemKey)
    requires Ready(t, c) && key in t.deliveries
    ensures ValidKey(t, key) && ItemAt(t, key).status == ItemStatus.Delivered
  {
    assert KeyOk(t, key);
  }

  lemma SettledStays(t: Tables, t': Tables, c: Config, key: ItemKey)
    requires Ready(t, c) && Ready(t', c) && Accrues(t, t') && ValidKey(t, key) && !IsOpen(ItemAt(t, key).status)
    ensures ValidKey(t', key) && ItemAt(t', key) == ItemAt(t, key)
    ensures key in t'.deliveries <==> key in t.deliveries
    ensures key in t.deliveries ==> t'.deliveries[key] == t.deliveries[key]
  {
    assert ItemsAdvance(t.orders[key.order].items, t'.orders[key.order].items);
    assert ItemAdvances(t.orders[key.order].items[key.position], t'.orders[key.order].items[key.position]);
    assert KeyOk(t, key) && KeyOk(t', key);
  }

  // ---- What a finding says ----

  // What was read when the finding was made.
  ghost predicate Justified(v: Views, supplier: string, e: StatementEntry, d: Discrepancy) {
    && d.supplier == supplier && d.requestId == e.requestId && d.supplierCode == e.code
    && !Explained(v.noted, supplier, e.requestId)
    && match d.kind
       case CodeMismatch =>
         exists key :: DeliveredUnder(v.delivered, supplier, e.requestId, key)
                       && d.ourCode == Some(v.delivered.deliveries[key].code) != Some(e.code)
       case UnknownRequest =>
         && (forall key :: !DeliveredUnder(v.delivered, supplier, e.requestId, key))
         && !Asked(v.asked, supplier, e.requestId)
       case UnusedIssue =>
         && (forall key :: !DeliveredUnder(v.delivered, supplier, e.requestId, key))
         && (exists key :: d.item == Some(key) && AskedUnder(v.asked, supplier, e.requestId, key)
                           && !IsOpen(ItemAt(v.asked, key).status))
       case _ => false
  }

  // A finding is about an entry that nothing the audit read accounts for.
  lemma JudgedIsUnaccounted(v: Views, c: Config, supplier: string, e: StatementEntry, d: Discrepancy)
    requires ViewsOk(v, c) && Justified(v, supplier, e, d)
    ensures !Accounted(v, supplier, e) && !Rejecting(d)
  {
    hide Ready, Accrues, DeliveredUnder, Explained;
    forall key | AskedUnder(v.asked, supplier, e.requestId, key) && IsOpen(ItemAt(v.asked, key).status)
      ensures forall other :: !DeliveredUnder(v.delivered, supplier, e.requestId, other)
    {
      if other :| DeliveredUnder(v.delivered, supplier, e.requestId, other) {
        NotBoth(v, c, supplier, e.requestId, key, other);
      }
    }
    SameItem(v, c, supplier, e.requestId);
  }

  lemma NotBoth(v: Views, c: Config, supplier: string, requestId: string, asked: ItemKey, delivered: ItemKey)
    requires ViewsOk(v, c) && AskedUnder(v.asked, supplier, requestId, asked) && DeliveredUnder(v.delivered, supplier, requestId, delivered)
    ensures !IsOpen(ItemAt(v.asked, asked).status)
  {
    DeliveryStays(v.delivered, v.asked, supplier, requestId, delivered);
    OneItemPerRequest(v.asked, c, supplier, requestId, asked, delivered);
    DeliveredIsSettled(v.asked, c, delivered);
    hide Ready, Accrues, AskedUnder;
  }

  lemma SameItem(v: Views, c: Config, supplier: string, requestId: string)
    requires ViewsOk(v, c)
    ensures forall a, b | AskedUnder(v.asked, supplier, requestId, a) && AskedUnder(v.asked, supplier, requestId, b) :: a == b
    ensures forall a, b | DeliveredUnder(v.delivered, supplier, requestId, a) && DeliveredUnder(v.delivered, supplier, requestId, b) :: a == b
  {
    hide Ready, Accrues, AskedUnder, DeliveredUnder;
    forall a, b | AskedUnder(v.asked, supplier, requestId, a) && AskedUnder(v.asked, supplier, requestId, b) ensures a == b {
      OneItemPerRequest(v.asked, c, supplier, requestId, a, b);
    }
    forall a, b | DeliveredUnder(v.delivered, supplier, requestId, a) && DeliveredUnder(v.delivered, supplier, requestId, b)
      ensures a == b
    {
      OneItemPerRequest(v.delivered, c, supplier, requestId, a, b);
    }
  }

  // "Item settled without this code" is false, then and for ever after, iff the item was delivered
  // under that very id between the read of the deliveries and the read of the requests.
  lemma UnusedIssueIsFalse(v: Views, c: Config, supplier: string, e: StatementEntry, d: Discrepancy, t: Tables)
    requires ViewsOk(v, c) && Justified(v, supplier, e, d) && d.kind == UnusedIssue
    requires Ready(t, c) && Accrues(v.asked, t)
    ensures d.item.Some? && !DeliveredUnder(v.delivered, supplier, e.requestId, d.item.value)
    ensures (exists key :: DeliveredUnder(t, supplier, e.requestId, key)) <==>
            DeliveredUnder(v.asked, supplier, e.requestId, d.item.value)
  {
    var key := d.item.value;
    SameItem(v, c, supplier, e.requestId);
    LaterDeliveries(v.asked, t, c, supplier, e.requestId, key);
    hide ViewsOk, Ready, Accrues, AskedUnder, DeliveredUnder;
  }

  // A settled item's deliveries under an id it was asked under.
  lemma LaterDeliveries(t: Tables, t': Tables, c: Config, supplier: string, requestId: string, key: ItemKey)
    requires Ready(t, c) && Ready(t', c) && Accrues(t, t')
    requires AskedUnder(t, supplier, requestId, key) && !IsOpen(ItemAt(t, key).status)
    ensures (exists other :: DeliveredUnder(t', supplier, requestId, other)) <==> DeliveredUnder(t, supplier, requestId, key)
  {
    hide Ready, Accrues;
    SettledStays(t, t', c, key);
    AskedStays(t, t', supplier, requestId, key);
    forall other | DeliveredUnder(t', supplier, requestId, other) ensures other == key {
      OneItemPerRequest(t', c, supplier, requestId, key, other);
    }
    if DeliveredUnder(t, supplier, requestId, key) {
      DeliveryStays(t, t', supplier, requestId, key);
    }
  }

  // "Never requested by us" is false iff a call under the id had been made and not written down when
  // the requests were read: still waiting for its answer, or cut off by a crash.
  lemma UnknownRequestIsFalse(
    v: Views, c: Config, supplier: string, e: StatementEntry, d: Discrepancy, calls: seq<Call>, lost: set<(string, string)>)
    requires Justified(v, supplier, e, d) && d.kind == UnknownRequest && CallsOk(calls, lost, c, v.asked)
    ensures Requested(calls, supplier, e.requestId) <==> (supplier, e.requestId) in lost
  {
    hide SoundCall, Asked, Explained, DeliveredUnder;
    if Requested(calls, supplier, e.requestId) {
      var i :| 0 <= i < |calls| && calls[i].kind.IssueCall? && calls[i].supplier == supplier && calls[i].requestId == e.requestId;
    }
  }

  // A code mismatch stands for good: the delivery it is about never changes.
  lemma MismatchStands(v: Views, c: Config, supplier: string, e: StatementEntry, d: Discrepancy, t: Tables)
    requires ViewsOk(v, c) && Justified(v, supplier, e, d) && d.kind == CodeMismatch
    requires Ready(t, c) && Accrues(v.asked, t)
    ensures exists key :: DeliveredUnder(t, supplier, e.requestId, key) && d.ourCode == Some(t.deliveries[key].code)
    ensures !DeliveredAs(t, supplier, e)
  {
    var key :| DeliveredUnder(v.delivered, supplier, e.requestId, key)
               && d.ourCode == Some(v.delivered.deliveries[key].code) != Some(e.code);
    DeliveryStays(v.delivered, v.asked, supplier, e.requestId, key);
    DeliveryStays(v.asked, t, supplier, e.requestId, key);
    forall other | DeliveredUnder(t, supplier, e.requestId, other) ensures other == key {
      OneItemPerRequest(t, c, supplier, e.requestId, key, other);
    }
    hide Ready, Accrues;
  }

  // The finding about one entry, if there is one: none if a row about it was noted before, if it was
  // delivered as it stands there, or if an item it was asked for is still open.
  method Judge(v: Views, supplier: string, e: StatementEntry) returns (d: Option<Discrepancy>)
    ensures d.None? ==> Accounted(v, supplier, e)
    ensures d.Some? ==> Justified(v, supplier, e, d.value)
    ensures d.None? ==>
              || (exists x :: x in v.noted.discrepancies && x.supplier == supplier && x.requestId == e.requestId)
              || (exists key :: key in v.delivered.deliveries && v.delivered.deliveries[key] == Delivery(e.requestId, supplier, e.code))
              || (exists key :: ValidKey(v.asked, key) && ItemAt(v.asked, key).status in {Pending, Refunding} && key in v.asked.attempts
                                && exists a :: a in v.asked.attempts[key] && a.supplier == supplier && a.requestId == e.requestId)
    ensures d.Some? ==> forall x | x in v.noted.discrepancies :: x.supplier != supplier || x.requestId != e.requestId
  {
    if Explained(v.noted, supplier, e.requestId) {
      return None;
    }
    var request := None;
    if key :| key in v.asked.attempts && AskedUnder(v.asked, supplier, e.requestId, key) {
      request := Some(key);
    }
    if key :| key in v.delivered.deliveries && DeliveredUnder(v.delivered, supplier, e.requestId, key) {
      var delivered := v.delivered.deliveries[key].code;
      if delivered == e.code {
        return None;
      }
      return Some(Discrepancy(supplier, e.requestId, request, CodeMismatch, e.code, Some(delivered)));
    }
    if request.None? {
      return Some(Discrepancy(supplier, e.requestId, None, UnknownRequest, e.code, None));
    }
    if IsOpen(ItemAt(v.asked, request.value).status) {
      return None;
    }
    return Some(Discrepancy(supplier, e.requestId, request, UnusedIssue, e.code, None));
  }

  lemma FindingIsReady(t: Tables, c: Config, d: Discrepancy)
    requires Ready(t, c) && !Rejecting(d) && d.supplier in c.suppliers
    ensures Ready(AddDiscrepancy(t, d), c)
  {
    hide Consistent, FactsOf, RejectedBy;
    var t' := AddDiscrepancy(t, d);
    if !AlreadyFound(t.discrepancies, d) {
      SameTables(t, t');
      forall key | ValidKey(t', key) ensures FactsOk(c, FactsOf(t', c, key)) {
        AddedFacts(t, c, d, key);
        assert FactsOk(c, FactsOf(t, c, key));
      }
    }
  }

  lemma FoundIsExplained(found: Tables, d: Discrepancy)
    requires AlreadyFound(found.discrepancies, d)
    ensures Explained(found, d.supplier, d.requestId)
  {
    var i :| 0 <= i < |found.discrepancies| && SameFinding(found.discrepancies[i], d);
    assert found.discrepancies[i].supplier == d.supplier && found.discrepancies[i].requestId == d.requestId;
  }

  lemma ExplainedStays(t: Tables, t': Tables, supplier: string, requestId: string)
    requires Explained(t, supplier, requestId) && t.discrepancies <= t'.discrepancies
    ensures Explained(t', supplier, requestId)
  {
    var i :| 0 <= i < |t.discrepancies| && t.discrepancies[i].supplier == supplier && t.discrepancies[i].requestId == requestId;
    assert t'.discrepancies[i] == t.discrepancies[i];
  }
}
