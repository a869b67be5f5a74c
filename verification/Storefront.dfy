/**
 The storefront's keyset pagination. A product's `sku` is its place in the order the database sorts
 skus in; the catalog is the product table joined with its stock, in that order.
 */
module Storefront {
  import opened Base

  datatype Product = Product(sku: int, kind: string, active: bool, available: int)

  ghost predicate IsCatalog(catalog: seq<Product>) {
    forall i, j | 0 <= i < j < |catalog| :: catalog[i].sku < catalog[j].sku
  }

  predicate IsListed(p: Product, kind: Option<string>) {
    p.active && p.available > 0 && (kind.None? || p.kind == kind.value)
  }

  // Everything the storefront would list after the cursor, were there no limit.
  function After(catalog: seq<Product>, kind: Option<string>, cursor: Option<int>): seq<Product> {
    if catalog == [] then []
    else
      var rest := After(catalog[1..], kind, cursor);
      if Shows(catalog[0], kind, cursor) then [catalog[0]] + rest else rest
  }

  predicate Shows(p: Product, kind: Option<string>, cursor: Option<int>) {
    IsListed(p, kind) && (cursor.None? || p.sku > cursor.value)
  }

  // No gap: exactly the products to be listed.
  lemma {:induction false} AfterMembers(catalog: seq<Product>, kind: Option<string>, cursor: Option<int>)
    ensures forall p :: p in After(catalog, kind, cursor) <==>
                        && p in catalog && p.active && p.available > 0
                        && (kind.Some? ==> p.kind == kind.value) && (cursor.Some? ==> p.sku > cursor.value)
  {
    if catalog != [] {
      AfterMembers(catalog[1..], kind, cursor);
      assert forall p :: p in catalog <==> p == catalog[0] || p in catalog[1..];
    }
  }

  lemma {:induction false} AfterIsSorted(catalog: seq<Product>, kind: Option<string>, cursor: Option<int>)
    requires IsCatalog(catalog)
    ensures IsCatalog(After(catalog, kind, cursor))
  {
    if catalog != [] {
      AfterIsSorted(catalog[1..], kind, cursor);
      AfterMembers(catalog[1..], kind, cursor);
      var rest := After(catalog[1..], kind, cursor);
      assert forall i | 0 <= i < |rest| :: rest[i] in rest;
    }
  }

  // What follows a listed product is what follows its sku.
  lemma {:induction false} AfterContinues(catalog: seq<Product>, kind: Option<string>, cursor: Option<int>, n: nat)
    requires IsCatalog(catalog) && n < |After(catalog, kind, cursor)|
    ensures var all := After(catalog, kind, cursor); After(catalog, kind, Some(all[n].sku)) == all[n + 1..]
  {
    var all, rest := After(catalog, kind, cursor), After(catalog[1..], kind, cursor);
    if Shows(catalog[0], kind, cursor) && n == 0 {
      SameAfter(catalog[1..], kind, cursor, Some(all[0].sku));
      assert all[1..] == rest;
    } else {
      var m := if Shows(catalog[0], kind, cursor) then n - 1 else n;
      assert all[n] == rest[m];
      AfterMembers(catalog[1..], kind, cursor);
      assert rest[m] in rest;
      AfterContinues(catalog[1..], kind, cursor, m);
      assert all[n + 1..] == rest[m + 1..];
    }
  }

  lemma {:induction false} SameAfter(catalog: seq<Product>, kind: Option<string>, a: Option<int>, b: Option<int>)
    requires forall i | 0 <= i < |catalog| :: Shows(catalog[i], kind, a) <==> Shows(catalog[i], kind, b)
    ensures After(catalog, kind, a) == After(catalog, kind, b)
  {
    if catalog != [] {
      SameAfter(catalog[1..], kind, a, b);
    }
  }

  function Take(rows: seq<Product>, n: nat): seq<Product> {
    if |rows| <= n then rows else rows[..n]
  }

  function Rest(catalog: seq<Product>, kind: Option<string>, next: Option<int>): seq<Product> {
    if next.Some? then After(catalog, kind, next) else []
  }

  // Asks for one more than fits: it is there exactly when something follows.
  method ReadPage(catalog: seq<Product>, kind: Option<string>, cursor: Option<int>, limit: nat)
    returns (items: seq<Product>, nextCursor: Option<int>)
    requires IsCatalog(catalog) && limit >= 1
    ensures |items| <= limit
    ensures After(catalog, kind, cursor) ==
            items + Rest(catalog, kind, nextCursor)
    ensures nextCursor.Some? ==> |items| == limit && items[limit - 1].sku == nextCursor.value
    ensures nextCursor.None? <==> |After(catalog, kind, cursor)| <= limit
  {
    var rows := Take(After(catalog, kind, cursor), limit + 1);
    items := Take(rows, limit);
    nextCursor := None;
    if |rows| > limit {
      AfterContinues(catalog, kind, cursor, limit - 1);
      nextCursor := Some(items[|items| - 1].sku);
    }
  }

  function Concat(pages: seq<seq<Product>>): seq<Product> {
    if pages == [] then [] else Concat(pages[..|pages| - 1]) + pages[|pages| - 1]
  }

  // Following the cursor ends, and shows every listed product once, in order.
  method ReadAll(catalog: seq<Product>, kind: Option<string>, limit: nat) returns (pages: seq<seq<Product>>)
    requires IsCatalog(catalog) && limit >= 1
    ensures Concat(pages) == After(catalog, kind, None)
    ensures forall k | 0 <= k < |pages| - 1 :: |pages[k]| == limit
  {
    hide After, Concat;
    var items, cursor := ReadPage(catalog, kind, None, limit);
    pages := [items];
    ConcatAppend([], items);
    while cursor.Some?
      invariant Concat(pages) + Rest(catalog, kind, cursor) == After(catalog, kind, None)
      invariant forall k | 0 <= k < |pages| - 1 :: |pages[k]| == limit
      invariant |pages| >= 1 && (cursor.Some? ==> |pages[|pages| - 1]| == limit)
      decreases |Rest(catalog, kind, cursor)|, if cursor.Some? then 1 else 0
    {
      ghost var shown := Concat(pages);
      items, cursor := ReadPage(catalog, kind, cursor, limit);
      ConcatAppend(pages, items);
      assert shown + (items + Rest(catalog, kind, cursor)) == (shown + items) + Rest(catalog, kind, cursor);
      pages := pages + [items];
    }
  }

  lemma ConcatAppend(pages: seq<seq<Product>>, page: seq<Product>)
    ensures Concat(pages + [page]) == Concat(pages) + page
    ensures Concat([page]) == page
    ensures Concat([]) == []
  {
    assert (pages + [page])[..|pages|] == pages;
    assert [page][..0] == [];
  }
}
