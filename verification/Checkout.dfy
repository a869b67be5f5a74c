/** Placing an order: the lines of a request become units, priced by the catalog in one currency. */
module Checkout {
  import opened Base
  import opened Tables
  import opened Storage

  datatype Product = Product(price: int, currency: string)

  type Positive = n: int | n >= 1 witness 1

  // A line without a quantity asks for one unit.
  datatype Line = Line(sku: string, quantity: Option<Positive>)

  type Catalog = map<string, Product>

  datatype Placed = Accepted(id: nat) | NothingAsked | UnknownSku(sku: string) | MixedCurrencies

  function Quantity(line: Line): Positive {
    if line.quantity.Some? then line.quantity.value else 1
  }

  predicate AllKnown(lines: seq<Line>, catalog: Catalog) {
    forall i | 0 <= i < |lines| :: lines[i].sku in catalog
  }

  function Times(n: nat, p: Product): seq<Product> {
    seq(n, i requires 0 <= i < n => p)
  }

  // One unit after the other, line by line.
  function UnitsOf(lines: seq<Line>, catalog: Catalog): (units: seq<Product>)
    requires AllKnown(lines, catalog)
    ensures units == [] <==> lines == []
  {
    if lines == [] then []
    else
      var line := lines[|lines| - 1];
      UnitsOf(lines[..|lines| - 1], catalog) + Times(Quantity(line), catalog[line.sku])
  }

  predicate OneCurrency(products: seq<Product>) {
    forall i | 0 <= i < |products| :: products[i].currency == products[0].currency
  }

  function Priced(products: seq<Product>, ids: nat -> string): seq<Unit> {
    seq(|products|, i requires 0 <= i < |products| => Unit(ids(i), products[i].price))
  }

  // What the lines cost; a line that names no quantity costs one unit.
  function Cost(lines: seq<Line>, catalog: Catalog): int
    requires AllKnown(lines, catalog)
  {
    if lines == [] then 0
    else
      var line := lines[|lines| - 1];
      Cost(lines[..|lines| - 1], catalog) + (if line.quantity.Some? then line.quantity.value else 1) * catalog[line.sku].price
  }

  lemma NoneMore(products: seq<Product>, p: Product)
    ensures products + Times(0, p) == products
  {
  }

  lemma LastUnit(products: seq<Product>, n: nat, p: Product, ids: nat -> string)
    requires n >= 1
    ensures var all, front := Priced(products + Times(n, p), ids), Priced(products + Times(n - 1, p), ids);
            all != [] && all[..|all| - 1] == front && all[|all| - 1].price == p.price
  {
  }

  lemma {:induction false} TimesCost(products: seq<Product>, n: nat, p: Product, ids: nat -> string)
    ensures TotalPrice(Priced(products + Times(n, p), ids)) == TotalPrice(Priced(products, ids)) + n * p.price
  {
    hide Priced, Times;
    if n == 0 {
      NoneMore(products, p);
    } else {
      TimesCost(products, n - 1, p, ids);
      LastUnit(products, n, p, ids);
      assert n * p.price == (n - 1) * p.price + p.price;
    }
  }

  // The order's amount is what its lines cost.
  lemma {:induction false} UnitsCost(lines: seq<Line>, catalog: Catalog, ids: nat -> string)
    requires AllKnown(lines, catalog)
    ensures TotalPrice(Priced(UnitsOf(lines, catalog), ids)) == Cost(lines, catalog)
  {
    if lines != [] {
      var line, front := lines[|lines| - 1], lines[..|lines| - 1];
      UnitsCost(front, catalog, ids);
      TimesCost(UnitsOf(front, catalog), Quantity(line), catalog[line.sku], ids);
    }
  }

  // The checks come in this order, and only an order that passes them all is written.
  method Place(db: Database, lines: seq<Line>, catalog: Catalog, ids: nat -> string, now: int) returns (r: Placed)
    modifies db
    ensures r.NothingAsked? <==> lines == []
    ensures r.UnknownSku? <==> !AllKnown(lines, catalog)
    ensures r.UnknownSku? ==>
              exists i :: 0 <= i < |lines| && lines[i].sku == r.sku && r.sku !in catalog && AllKnown(lines[..i], catalog)
    ensures r.MixedCurrencies? <==> AllKnown(lines, catalog) && !OneCurrency(UnitsOf(lines, catalog))
    ensures r.Accepted? ==>
              var units := UnitsOf(lines, catalog);
              && units != [] && OneCurrency(units)
              && CreateOrder(old(db.Snapshot()), units[0].currency, Priced(units, ids), now) == Some(db.Snapshot())
              && r.id == |old(db.orders)| < |db.orders|
              && db.orders[r.id].amount == Cost(lines, catalog)
              && |db.orders[r.id].items| == |units|
              && forall k | 0 <= k < |units| :: db.orders[r.id].items[k].amount == units[k].price
    ensures !r.Accepted? ==> db.Snapshot() == old(db.Snapshot())
  {
    if |lines| == 0 {
      return NothingAsked;
    }
    var units: seq<Product> := [];
    for i := 0 to |lines|
      invariant AllKnown(lines[..i], catalog) && units == UnitsOf(lines[..i], catalog)
    {
      if lines[i].sku !in catalog {
        return UnknownSku(lines[i].sku);
      }
      assert lines[..i + 1][..i] == lines[..i];
      units := units + Times(Quantity(lines[i]), catalog[lines[i].sku]);
    }
    assert lines[..|lines|] == lines;
    if k :| 0 <= k < |units| && units[k].currency != units[0].currency {
      return MixedCurrencies;
    }
    UnitsCost(lines, catalog, ids);
    var id := db.Create(units[0].currency, Priced(units, ids), now);
    return Accepted(id.value);
  }
}
