/** What a worker is answered, call by call: by the suppliers, by their books and by the payment provider. */
module Replies {
  import opened Base
  import opened Tables
  import opened Suppliers

  datatype Answer =
    | ToIssue(asked: Entry, reply: IssueReply)
    | ToLookup(looked: Entry, shown: LookupReply)
    | ToRefund(amount: int, acknowledged: bool)

  datatype Heard = Heard(key: ItemKey, answer: Answer)

  // Turned down for want of a slot until then.
  predicate Refuses(a: Answer, at: int) {
    || (a.ToIssue? && a.reply == RateLimited(at))
    || (a.ToLookup? && a.shown == LookupDeferred(at))
  }

  // All that was heard since is about one item.
  ghost predicate OnlyAbout(a: seq<Heard>, b: seq<Heard>, key: ItemKey) {
    a <= b && forall i | |a| <= i < |b| :: b[i].key == key
  }

  lemma AboutAgain(a: seq<Heard>, b: seq<Heard>, c: seq<Heard>, key: ItemKey)
    requires OnlyAbout(a, b, key) && OnlyAbout(b, c, key)
    ensures OnlyAbout(a, c, key)
  {
  }

  lemma NothingAbout(a: seq<Heard>, key: ItemKey)
    ensures OnlyAbout(a, a, key)
  {
  }

  // The last thing heard about an item since `from`.
  function LastAbout(heard: seq<Heard>, from: nat, key: ItemKey): Option<Answer> {
    if |heard| <= from then None
    else if heard[|heard| - 1].key == key then Some(heard[|heard| - 1].answer)
    else LastAbout(heard[..|heard| - 1], from, key)
  }

  // Hearing about one item changes nothing about the others.
  lemma {:induction false} LastAboutOne(a: seq<Heard>, b: seq<Heard>, from: nat, one: ItemKey, key: ItemKey)
    requires OnlyAbout(a, b, one) && from <= |a|
    ensures key != one || b == a ==> LastAbout(b, from, key) == LastAbout(a, from, key)
    ensures key == one && |b| > |a| ==> LastAbout(b, from, key) == Some(b[|b| - 1].answer)
  {
    if |b| > |a| {
      if key != one {
        LastAboutOne(a, b[..|b| - 1], from, one, key);
      }
    } else {
      assert b == a;
    }
  }

  lemma {:induction false} LastAboutIsThere(heard: seq<Heard>, from: nat, key: ItemKey)
    requires LastAbout(heard, from, key).Some?
    ensures exists i :: from <= i < |heard| && heard[i] == Heard(key, LastAbout(heard, from, key).value)
  {
    var n := |heard| - 1;
    if heard[n].key == key {
      assert heard[n] == Heard(key, LastAbout(heard, from, key).value);
    } else {
      LastAboutIsThere(heard[..n], from, key);
      var i :| from <= i < n && heard[..n][i] == Heard(key, LastAbout(heard, from, key).value);
      assert heard[i] == heard[..n][i];
    }
  }
}
