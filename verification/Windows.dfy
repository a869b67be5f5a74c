/** Counting stamps in windows of time, over a history nothing is ever removed from. */
module Windows {

  ghost predicate Sorted(h: seq<int>) {
    forall i, j | 0 <= i < j < |h| :: h[i] <= h[j]
  }

  // The stamps in the closed interval, oldest first.
  function InWindow(h: seq<int>, from: int, to: int): (r: seq<int>)
    ensures |r| <= |h|
    ensures forall x | x in r :: from <= x <= to && x in h
  {
    if h == [] then []
    else
      var rest, x := InWindow(h[..|h| - 1], from, to), h[|h| - 1];
      if from <= x <= to then rest + [x] else rest
  }

  lemma WindowAppend(h: seq<int>, x: int, from: int, to: int)
    ensures InWindow(h + [x], from, to) == InWindow(h, from, to) + (if from <= x <= to then [x] else [])
  {
    assert (h + [x])[..|h|] == h;
  }

  lemma {:induction false} WindowConcat(a: seq<int>, b: seq<int>, from: int, to: int)
    ensures InWindow(a + b, from, to) == InWindow(a, from, to) + InWindow(b, from, to)
  {
    if b == [] {
      assert a + b == a;
    } else {
      var front := b[..|b| - 1];
      assert a + b == (a + front) + [b[|b| - 1]];
      WindowConcat(a, front, from, to);
      WindowAppend(a + front, b[|b| - 1], from, to);
    }
  }

  lemma {:induction false} WindowOfNone(h: seq<int>, from: int, to: int)
    requires forall i | 0 <= i < |h| :: !(from <= h[i] <= to)
    ensures InWindow(h, from, to) == []
  {
    if h != [] {
      WindowOfNone(h[..|h| - 1], from, to);
    }
  }

  lemma {:induction false} WindowOfAll(h: seq<int>, from: int, to: int)
    requires forall i | 0 <= i < |h| :: from <= h[i] <= to
    ensures InWindow(h, from, to) == h
  {
    if h != [] {
      WindowOfAll(h[..|h| - 1], from, to);
    }
  }

  // When everything earlier is outside and everything later inside, the window is the later part.
  lemma SuffixIsWindow(h: seq<int>, kept: seq<int>, now: int, width: int)
    requires |kept| <= |h| && kept == h[|h| - |kept|..]
    requires forall i | 0 <= i < |h| :: h[i] <= now
    requires forall i | 0 <= i < |h| :: h[i] < now - width <==> i < |h| - |kept|
    ensures InWindow(h, now - width, now) == kept
  {
    hide InWindow;
    var n := |h| - |kept|;
    assert forall i | 0 <= i < |kept| :: kept[i] == h[n + i];
    WindowOfNone(h[..n], now - width, now);
    WindowOfAll(kept, now - width, now);
    WindowConcat(h[..n], kept, now - width, now);
    assert h[..n] + kept == h;
  }

  lemma {:induction false} WiderWindow(h: seq<int>, from: int, to: int, from': int, to': int)
    requires from' <= from && to <= to'
    ensures |InWindow(h, from, to)| <= |InWindow(h, from', to')|
  {
    if h != [] {
      WiderWindow(h[..|h| - 1], from, to, from', to');
    }
  }

  lemma SliceGrows(h: seq<int>, x: int, i: nat, j: nat)
    requires i <= j <= |h|
    ensures (h + [x])[i..j] == h[i..j]
    ensures (h + [x])[i..|h| + 1] == h[i..] + [x]
  {
  }

  // In a sorted history a window is a slice.
  lemma {:induction false} WindowIsSlice(h: seq<int>, from: int, to: int) returns (i: nat, j: nat)
    requires Sorted(h)
    ensures i <= j <= |h| && InWindow(h, from, to) == h[i..j]
    ensures i < j < |h| ==> h[j] > to
  {
    if h == [] {
      return 0, 0;
    }
    hide InWindow;
    var front, x := h[..|h| - 1], h[|h| - 1];
    i, j := WindowIsSlice(front, from, to);
    var w := InWindow(front, from, to);
    assert h == front + [x];
    WindowAppend(front, x, from, to);
    if i < j {
      assert w[j - 1 - i] in w;
      assert h[j - 1] >= from && x >= h[j - 1];
    }
    SliceGrows(front, x, i, j);
    if from <= x <= to {
      i, j := if i == j then |front| else i, |h|;
      SliceGrows(front, x, i, |front|);
    }
  }

  lemma {:induction false} InTheWindow(h: seq<int>, k: nat, from: int, to: int)
    requires k < |h| && from <= h[k] <= to
    ensures h[k] in InWindow(h, from, to)
  {
    if k < |h| - 1 {
      InTheWindow(h[..|h| - 1], k, from, to);
    }
  }

  // Any `limit + 1` consecutive stamps are further apart than `width`.
  ghost predicate Spaced(h: seq<int>, limit: nat, width: int) {
    forall i, j | 0 <= i && i + limit <= j < |h| :: h[j] - h[i] > width
  }

  lemma SpacedIsBounded(h: seq<int>, limit: nat, width: int, from: int)
    requires Sorted(h) && Spaced(h, limit, width)
    ensures |InWindow(h, from, from + width)| <= limit
  {
    hide InWindow;
    var i, j := WindowIsSlice(h, from, from + width);
    var w := InWindow(h, from, from + width);
    if i < j {
      assert h[i] == w[0] && h[j - 1] == w[|w| - 1];
      assert w[0] in w && w[|w| - 1] in w;
    }
  }

  function Repeat(x: int, n: nat): (r: seq<int>)
    ensures |r| == n && forall i | 0 <= i < n :: r[i] == x
  {
    seq(n, i => x)
  }
}
