/** The order in which suppliers are asked, and what a pass over all of them adds up to. */
module Chain {
  import opened Base
  import opened Tables
  import opened Evidence
  import opened Passing
  import opened Suppliers
  import opened Outcomes

  datatype Candidate = Candidate(supplier: string, ambiguous: bool)

  function Filter(s: seq<string>, keep: string -> bool): (r: seq<string>)
    ensures |r| <= |s|
    ensures forall x :: x in r <==> x in s && keep(x)
  {
    if s == [] then []
    else
      var rest, x := Filter(s[..|s| - 1], keep), s[|s| - 1];
      if keep(x) then rest + [x] else rest
  }

  ghost predicate Distinct(s: seq<string>) {
    forall i, j | 0 <= i < j < |s| :: s[i] != s[j]
  }

  lemma {:induction false} FilterDistinct(s: seq<string>, keep: string -> bool)
    requires Distinct(s)
    ensures Distinct(Filter(s, keep))
  {
    if s != [] {
      FilterDistinct(s[..|s| - 1], keep);
      var rest := Filter(s[..|s| - 1], keep);
      assert s[|s| - 1] !in s[..|s| - 1];
      assert forall i | 0 <= i < |rest| :: rest[i] in rest;
    }
  }

  lemma {:induction false} FilterSplits(s: seq<string>, keep: string -> bool)
    ensures |Filter(s, keep)| + |Filter(s, x => !keep(x))| == |s|
  {
    if s != [] {
      FilterSplits(s[..|s| - 1], keep);
    }
  }

  // The preferred supplier at the head, the configured order otherwise.
  function Ordered(suppliers: seq<string>, preferred: string): seq<string> {
    Filter(suppliers, s => s == preferred) + Filter(suppliers, s => s != preferred)
  }

  // Open questions jump the queue and are flagged.
  function ChainOf(suppliers: seq<string>, preferred: string, open: seq<string>): seq<Candidate> {
    var rest := RestOf(suppliers, preferred, open);
    seq(|open|, i requires 0 <= i < |open| => Candidate(open[i], true)) +
    seq(|rest|, i requires 0 <= i < |rest| => Candidate(rest[i], false))
  }

  lemma OrderedIsAll(suppliers: seq<string>, preferred: string)
    requires Distinct(suppliers)
    ensures Distinct(Ordered(suppliers, preferred))
    ensures |Ordered(suppliers, preferred)| == |suppliers|
    ensures forall s :: s in Ordered(suppliers, preferred) <==> s in suppliers
    ensures preferred in suppliers ==> Ordered(suppliers, preferred)[0] == preferred
  {
    var first, rest := Filter(suppliers, s => s == preferred), Filter(suppliers, s => s != preferred);
    FilterDistinct(suppliers, s => s == preferred);
    FilterDistinct(suppliers, s => s != preferred);
    FilterSplits(suppliers, s => s == preferred);
    FilterSame(suppliers, x => !(s => s == preferred)(x), s => s != preferred);
    assert forall i | 0 <= i < |first| :: first[i] in first;
    assert forall i | 0 <= i < |rest| :: rest[i] in rest;
  }

  lemma {:induction false} FilterSame(s: seq<string>, f: string -> bool, g: string -> bool)
    requires forall x :: f(x) == g(x)
    ensures Filter(s, f) == Filter(s, g)
  {
    if s != [] {
      FilterSame(s[..|s| - 1], f, g);
    }
  }

  lemma {:induction false} FilterOutOne(s: seq<string>, x: string)
    requires Distinct(s) && x in s
    ensures |Filter(s, y => y !in [x])| == |s| - 1
  {
    var front := s[..|s| - 1];
    if s[|s| - 1] == x {
      FilterAll(front, y => y !in [x]);
    } else {
      FilterOutOne(front, x);
    }
  }

  lemma {:induction false} FilterAll(s: seq<string>, keep: string -> bool)
    requires forall i | 0 <= i < |s| :: keep(s[i])
    ensures Filter(s, keep) == s
  {
    if s != [] {
      var front := s[..|s| - 1];
      assert s == front + [s[|s| - 1]];
      FilterAll(front, keep);
    }
  }

  function RestOf(suppliers: seq<string>, preferred: string, open: seq<string>): seq<string> {
    Filter(Ordered(suppliers, preferred), s => s !in open)
  }

  lemma RestIsTheOthers(suppliers: seq<string>, preferred: string, open: seq<string>)
    requires Distinct(suppliers) && |open| <= 1 && (forall s | s in open :: s in suppliers)
    ensures var rest := RestOf(suppliers, preferred, open);
            && Distinct(rest)
            && |open| + |rest| == |suppliers|
            && (forall s :: s in rest <==> s in suppliers && s !in open)
            && (open == [] && preferred in suppliers ==> rest[0] == preferred)
  {
    var ordered, keep := Ordered(suppliers, preferred), (s: string) => s !in open;
    OrderedIsAll(suppliers, preferred);
    FilterSame(ordered, keep, s => s !in open);
    FilterDistinct(ordered, s => s !in open);
    if open == [] {
      FilterAll(ordered, keep);
    } else {
      assert open == [open[0]];
      FilterOutOne(ordered, open[0]);
      FilterSame(ordered, keep, y => y !in [open[0]]);
    }
  }

  // Every configured supplier is asked once, an open one before the others and flagged.
  lemma ChainCovers(suppliers: seq<string>, preferred: string, open: seq<string>)
    requires Distinct(suppliers) && |open| <= 1 && (forall s | s in open :: s in suppliers)
    ensures Covers(suppliers, open, ChainOf(suppliers, preferred, open))
    ensures open == [] && preferred in suppliers ==> ChainOf(suppliers, preferred, open)[0] == Candidate(preferred, false)
  {
    RestIsTheOthers(suppliers, preferred, open);
    FlaggedFirst(suppliers, open, RestOf(suppliers, preferred, open), ChainOf(suppliers, preferred, open));
  }

  lemma FlaggedFirst(suppliers: seq<string>, open: seq<string>, rest: seq<string>, chain: seq<Candidate>)
    requires |open| <= 1 && (forall s | s in open :: s in suppliers)
    requires Distinct(rest) && |open| + |rest| == |suppliers| && (forall s :: s in rest <==> s in suppliers && s !in open)
    requires |chain| == |open| + |rest|
    requires forall i | 0 <= i < |chain| ::
               chain[i] == if i < |open| then Candidate(open[i], true) else Candidate(rest[i - |open|], false)
    ensures Covers(suppliers, open, chain)
  {
    forall i | |open| <= i < |chain| ensures chain[i].supplier in suppliers && chain[i].supplier !in open {
      assert rest[i - |open|] in rest;
    }
    forall s | s in suppliers ensures exists i :: 0 <= i < |chain| && chain[i].supplier == s {
      if s in open {
        assert chain[0].supplier == s;
      } else {
        var i :| 0 <= i < |rest| && rest[i] == s;
        assert chain[|open| + i].supplier == s;
      }
    }
  }

  ghost predicate Covers(suppliers: seq<string>, open: seq<string>, chain: seq<Candidate>) {
    && |chain| == |suppliers|
    && (forall s | s in suppliers :: exists i :: 0 <= i < |chain| && chain[i].supplier == s)
    && (forall i | 0 <= i < |chain| :: chain[i].supplier in suppliers)
    && (forall i, j | 0 <= i < j < |chain| :: chain[i].supplier != chain[j].supplier)
    && (forall i | 0 <= i < |chain| :: chain[i].ambiguous <==> chain[i].supplier in open)
    && (open != [] ==> |chain| > 0 && chain[0] == Candidate(open[0], true))
  }

  lemma ChainLength(suppliers: seq<string>, open: seq<string>, chain: seq<Candidate>)
    requires Covers(suppliers, open, chain)
    ensures |chain| == |suppliers|
  {
  }

  // Whoever is next is the only one that may be open, and is flagged if it is.
  lemma NextInChain(suppliers: seq<string>, open: seq<string>, chain: seq<Candidate>, i: nat, log: seq<Attempt>)
    requires Covers(suppliers, open, chain) && i < |chain| && |open| <= 1
    requires if i == 0 then OpenSuppliers(log) == open else NoneIsOpen(log)
    ensures chain[i].supplier in suppliers && OnlyOpen(log, chain[i].supplier)
    ensures !chain[i].ambiguous ==> NoneIsOpen(log)
  {
  }

  // What the tables guarantee about an item's open suppliers.
  lemma OneIsOpen(t: Tables, c: Config, key: ItemKey)
    requires Ready(t, c) && ValidKey(t, key)
    ensures FactsOf(t, c, key).log == AttemptsOf(t, key)
    ensures var open := OpenSuppliers(AttemptsOf(t, key)); |open| <= 1 && forall s | s in open :: s in c.suppliers
    ensures Distinct(c.suppliers)
  {
    assert FactsOk(c, FactsOf(t, c, key));
  }

  method StillOpen(attempts: seq<Attempt>) returns (open: seq<string>)
    ensures open == OpenSuppliers(attempts)
  {
    open := [];
    for i := 0 to |attempts|
      invariant open == OpenSuppliers(attempts[..i])
    {
      assert attempts[..i + 1] == attempts[..i] + [attempts[i]];
      OpenAppend(attempts[..i], attempts[i]);
      var a := attempts[i];
      if Unanswered(a.outcome) && a.supplier !in open {
        open := open + [a.supplier];
      }
      if Definite(a.outcome) {
        open := Without(open, a.supplier);
      }
    }
    assert attempts[..|attempts|] == attempts;
  }
}
