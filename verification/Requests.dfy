/** The calls a worker made to suppliers, each with what the tables said when it was made. */
module Requests {
  import opened Base
  import opened Tables
  import opened RequestIds
  import opened Consistency
  import opened Evidence

  // A call turned away asked for nothing.
  datatype CallKind = IssueCall | LookupCall | TurnedAway

  // `open` and `rejected` are what the attempt log and the discrepancies said at that moment.
  datatype Call = Call(
    kind: CallKind,
    key: ItemKey,
    item: string,
    supplier: string,
    requestId: string,
    open: seq<string>,
    rejected: seq<string>)

  // No other supplier was open for the item, and the id is the one of the first round not yet rejected.
  ghost predicate SoundCall(c: Config, x: Call) {
    && x.supplier in c.suppliers
    && (x.open == [] || x.open == [x.supplier])
    && NoColon(x.item)
    && |x.rejected| < c.maxRounds
    && x.rejected == FirstRounds(x.item, x.supplier, |x.rejected|)
    && x.requestId == RequestId(x.item, x.supplier, |x.rejected| + 1)
  }

  // Every call was sound, and every one that asked for a code is written down as an attempt, unless
  // it is among the `lost`: still waiting for its answer, or cut off by a crash.
  ghost predicate CallsOk(calls: seq<Call>, lost: set<(string, string)>, c: Config, t: Tables) {
    && (forall i | 0 <= i < |calls| ::
          SoundCall(c, calls[i]) && calls[i].rejected <= Rejections(t.discrepancies, calls[i].key, calls[i].supplier))
    && (forall i, j | 0 <= i < j < |calls| && calls[i].key == calls[j].key && calls[i].supplier == calls[j].supplier ::
          calls[i].rejected <= calls[j].rejected)
    && (forall i | 0 <= i < |calls| && calls[i].kind.IssueCall? ::
          (calls[i].supplier, calls[i].requestId) in lost || Asked(t, calls[i].supplier, calls[i].requestId))
    && (forall k | k in lost :: Requested(calls, k.0, k.1))
  }

  // A code was asked for under this id.
  ghost predicate Requested(calls: seq<Call>, supplier: string, requestId: string) {
    exists i :: 0 <= i < |calls| && calls[i].kind.IssueCall? && calls[i].supplier == supplier && calls[i].requestId == requestId
  }

  lemma {:induction false} RejectionsGrow(found: seq<Discrepancy>, found': seq<Discrepancy>, key: ItemKey, supplier: string)
    requires found <= found'
    ensures Rejections(found, key, supplier) <= Rejections(found', key, supplier)
  {
    if |found| < |found'| {
      RejectionsGrow(found, found'[..|found'| - 1], key, supplier);
    } else {
      assert found == found';
    }
  }

  lemma CallsStay(calls: seq<Call>, lost: set<(string, string)>, c: Config, t: Tables, t': Tables)
    requires CallsOk(calls, lost, c, t) && Accrues(t, t')
    ensures CallsOk(calls, lost, c, t')
  {
    hide AskedUnder, SoundCall;
    AccruedFindings(t, t');
    forall i | 0 <= i < |calls| ensures calls[i].rejected <= Rejections(t'.discrepancies, calls[i].key, calls[i].supplier) {
      RejectionsGrow(t.discrepancies, t'.discrepancies, calls[i].key, calls[i].supplier);
    }
    forall s, r | Asked(t, s, r) ensures Asked(t', s, r) {
      var key :| AskedUnder(t, s, r, key);
      AskedStays(t, t', s, r, key);
    }
  }

  function Losing(lost: set<(string, string)>, x: Call): set<(string, string)> {
    if x.kind.IssueCall? then lost + {(x.supplier, x.requestId)} else lost
  }

  lemma CallAdded(calls: seq<Call>, lost: set<(string, string)>, c: Config, t: Tables, x: Call)
    requires CallsOk(calls, lost, c, t) && SoundCall(c, x)
    requires x.rejected == Rejections(t.discrepancies, x.key, x.supplier)
    ensures CallsOk(calls + [x], Losing(lost, x), c, t)
  {
    hide SoundCall, Asked;
    var calls' := calls + [x];
    assert calls'[|calls|] == x;
    forall s, r | Requested(calls, s, r) ensures Requested(calls', s, r) {
      var i :| 0 <= i < |calls| && calls[i].kind.IssueCall? && calls[i].supplier == s && calls[i].requestId == r;
      assert calls'[i] == calls[i];
    }
  }

  // At most one id more is lost than before.
  ghost predicate OneMore(lost: set<(string, string)>, lost': set<(string, string)>) {
    lost <= lost' && forall j, k | j in lost' && k in lost' && j !in lost && k !in lost :: j == k
  }

  // The answer to a call is written down. An earlier call under the id that was lost stays lost.
  function Written(lost: set<(string, string)>, k: (string, string), before: bool): set<(string, string)> {
    if before then lost else lost - {k}
  }

  lemma CallWritten(
    calls: seq<Call>, lost: set<(string, string)>, c: Config, t: Tables, supplier: string, requestId: string, before: bool)
    requires CallsOk(calls, lost, c, t) && Asked(t, supplier, requestId)
    ensures CallsOk(calls, Written(lost, (supplier, requestId), before), c, t)
  {
    hide SoundCall, AskedUnder;
  }

  lemma OwnRoundIsNotRejected(c: Config, x: Call)
    requires ConfigOk(c) && SoundCall(c, x)
    ensures x.requestId !in x.rejected
  {
    if x.requestId in x.rejected {
      var r :| 0 <= r < |x.rejected| && x.rejected[r] == x.requestId;
      RequestIdsInjective(x.item, x.supplier, r + 1, x.item, x.supplier, |x.rejected| + 1);
      assert false;
    }
  }

  // Of any two calls for one item at one supplier: an id rejected before the first is not presented
  // by the second, and unless an id was rejected in between both carry the same one.
  lemma RejectedIdsAreNotPresentedAgain(calls: seq<Call>, lost: set<(string, string)>, c: Config, t: Tables, i: nat, j: nat)
    requires ConfigOk(c) && CallsOk(calls, lost, c, t) && i <= j < |calls|
    requires calls[i].key == calls[j].key && calls[i].item == calls[j].item && calls[i].supplier == calls[j].supplier
    ensures calls[j].requestId !in calls[i].rejected
    ensures calls[i].requestId == calls[j].requestId <==> calls[i].rejected == calls[j].rejected
    ensures calls[i].rejected != calls[j].rejected ==> calls[i].requestId in calls[j].rejected
    ensures calls[i].rejected <= calls[j].rejected
  {
    OwnRoundIsNotRejected(c, calls[j]);
    if calls[i].rejected != calls[j].rejected {
      assert calls[j].rejected[|calls[i].rejected|] == calls[i].requestId;
    }
  }

  // Calls of different items or to different suppliers never share an id, nor do different rounds.
  lemma CallsOfOthersDiffer(c: Config, x: Call, y: Call)
    requires ConfigOk(c) && SoundCall(c, x) && SoundCall(c, y)
    ensures x.requestId == y.requestId <==>
            x.item == y.item && x.supplier == y.supplier && |x.rejected| == |y.rejected|
  {
    if x.requestId == y.requestId {
      RequestIdsInjective(x.item, x.supplier, |x.rejected| + 1, y.item, y.supplier, |y.rejected| + 1);
    }
  }
}
