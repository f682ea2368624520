/** The register: barcode lookup, the cart updaters, and the session that
    holds the cart and the sales ledger and commits a sale at checkout. */
module App {
  import opened Model
  import Checkout
  import Devices

  /** The fixed fallback table consulted after the operator catalog. */
  const DemoItems: map<string, Item> := map[
    "012345678905" := Item("Sparkling Water 500ml", 1.49),
    "123456789012" := Item("Chocolate Bar", 2.29),
    "978020137962" := Item("Notebook", 4.99)
  ]

  /** The result for a barcode nobody knows. */
  const UnknownItem: Item := Item("Unknown Item", 0.0)

  /** `products.find(p => p.barcode === barcode)`, as the index of the first match. */
  function FirstMatch(products: seq<Product>, barcode: string): (r: Option<nat>)
    ensures r.Some? ==> r.value < |products| && products[r.value].barcode == barcode
    ensures r.Some? ==> forall j :: 0 <= j < r.value ==> products[j].barcode != barcode
    ensures r.None? <==> forall j :: 0 <= j < |products| ==> products[j].barcode != barcode
    decreases |products|
  {
    if products == [] then None
    else if products[0].barcode == barcode then Some(0)
    else match FirstMatch(products[1..], barcode)
      case None => None
      case Some(k) => Some(k + 1)
  }

  /** Resolves a barcode: the first catalog entry with it, else the demo
      table, else the unknown item. Never fails. */
  function MockLookup(barcode: string, products: seq<Product>): (r: Item)
    ensures forall i :: 0 <= i < |products| && products[i].barcode == barcode &&
                        (forall j :: 0 <= j < i ==> products[j].barcode != barcode)
                        ==> r == Item(products[i].name, products[i].price)
    ensures (forall i :: 0 <= i < |products| ==> products[i].barcode != barcode)
            ==> r == (if barcode in DemoItems then DemoItems[barcode] else UnknownItem)
  {
    match FirstMatch(products, barcode)
    case Some(i) => Item(products[i].name, products[i].price)
    case None => if barcode in DemoItems then DemoItems[barcode] else UnknownItem
  }

  /** A catalog entry takes precedence over the demo table: for any code the
      catalog knows, the demo entry is never consulted. */
  lemma CatalogFirst(barcode: string, products: seq<Product>)
    requires exists i :: 0 <= i < |products| && products[i].barcode == barcode
    ensures exists i :: 0 <= i < |products| && products[i].barcode == barcode
                        && MockLookup(barcode, products) == Item(products[i].name, products[i].price)
  {
    var k := FirstMatch(products, barcode);
    assert k.Some?;
    assert products[k.value].barcode == barcode;
  }

  /** The demo codes and the default, looked up with an empty catalog. */
  lemma DemoExamples()
    ensures MockLookup("012345678905", []) == Item("Sparkling Water 500ml", 1.49)
    ensures MockLookup("123456789012", []) == Item("Chocolate Bar", 2.29)
    ensures MockLookup("978020137962", []) == Item("Notebook", 4.99)
    ensures MockLookup("000000000000", []) == Item("Unknown Item", 0.0)
  {
    assert "000000000000" !in DemoItems;
  }

  // ----- the cart -----

  /** Some line of the cart has this barcode. */
  predicate HasLine(cart: seq<CartLine>, barcode: string)
  {
    exists i :: 0 <= i < |cart| && cart[i].barcode == barcode
  }

  /** No barcode appears on two lines. */
  ghost predicate UniqueBarcodes(cart: seq<CartLine>)
  {
    forall i, j :: 0 <= i < j < |cart| ==> cart[i].barcode != cart[j].barcode
  }

  /** Every quantity is at least one. */
  predicate QtyPositive(cart: seq<CartLine>)
  {
    forall i :: 0 <= i < |cart| ==> cart[i].qty >= 1
  }

  ghost predicate ValidCart(cart: seq<CartLine>)
  {
    UniqueBarcodes(cart) && QtyPositive(cart)
  }

  /** The `increment` updater: the matching lines gain one unit, nothing else changes. */
  function Incremented(cart: seq<CartLine>, barcode: string): (r: seq<CartLine>)
    ensures |r| == |cart|
    ensures forall i :: 0 <= i < |cart| ==>
              r[i] == if cart[i].barcode == barcode then cart[i].(qty := cart[i].qty + 1) else cart[i]
    ensures !HasLine(cart, barcode) ==> r == cart
    decreases |cart|
  {
    if cart == [] then []
    else
      var l := cart[0];
      [if l.barcode == barcode then l.(qty := l.qty + 1) else l] + Incremented(cart[1..], barcode)
  }

  /** The `decrement` updater: the matching lines lose one unit, floored at one. */
  function Decremented(cart: seq<CartLine>, barcode: string): (r: seq<CartLine>)
    ensures |r| == |cart|
    ensures forall i :: 0 <= i < |cart| ==>
              r[i] == if cart[i].barcode == barcode then cart[i].(qty := if cart[i].qty - 1 < 1 then 1 else cart[i].qty - 1)
                      else cart[i]
    ensures !HasLine(cart, barcode) ==> r == cart
    ensures QtyPositive(cart) ==> QtyPositive(r)
    decreases |cart|
  {
    if cart == [] then []
    else
      var l := cart[0];
      [if l.barcode == barcode then l.(qty := if l.qty - 1 < 1 then 1 else l.qty - 1) else l]
      + Decremented(cart[1..], barcode)
  }

  lemma HasLineCons(l: CartLine, rest: seq<CartLine>, c: string)
    ensures HasLine([l] + rest, c) <==> l.barcode == c || HasLine(rest, c)
  {
    var cart := [l] + rest;
    if l.barcode == c {
      assert cart[0].barcode == c;
    }
    if HasLine(rest, c) {
      var i :| 0 <= i < |rest| && rest[i].barcode == c;
      assert cart[i + 1].barcode == c;
    }
    if HasLine(cart, c) && l.barcode != c {
      var i :| 0 <= i < |cart| && cart[i].barcode == c;
      assert rest[i - 1].barcode == c;
    }
  }

  lemma UniqueCons(l: CartLine, rest: seq<CartLine>)
    ensures UniqueBarcodes([l] + rest) <==> !HasLine(rest, l.barcode) && UniqueBarcodes(rest)
  {
    var cart := [l] + rest;
    if UniqueBarcodes(cart) {
      forall i, j | 0 <= i < j < |rest| ensures rest[i].barcode != rest[j].barcode {
        assert cart[i + 1] == rest[i] && cart[j + 1] == rest[j];
      }
      forall i | 0 <= i < |rest| ensures rest[i].barcode != l.barcode {
        assert cart[0] == l && cart[i + 1] == rest[i];
      }
    }
    if !HasLine(rest, l.barcode) && UniqueBarcodes(rest) {
      forall i, j | 0 <= i < j < |cart| ensures cart[i].barcode != cart[j].barcode {
        assert cart[j] == rest[j - 1];
        if i > 0 { assert cart[i] == rest[i - 1]; }
      }
    }
  }

  /** The `remove` updater: drops every line with the barcode, keeps the rest in order. */
  function Without(cart: seq<CartLine>, barcode: string): (r: seq<CartLine>)
    ensures forall c :: HasLine(r, c) <==> HasLine(cart, c) && c != barcode
    ensures forall l :: l in r <==> l in cart && l.barcode != barcode
    ensures !HasLine(cart, barcode) ==> r == cart
    ensures UniqueBarcodes(cart) ==> UniqueBarcodes(r)
    decreases |cart|
  {
    if cart == [] then []
    else
      var rest := Without(cart[1..], barcode);
      assert cart == [cart[0]] + cart[1..];
      assert forall c :: HasLine(cart, c) <==> cart[0].barcode == c || HasLine(cart[1..], c) by {
        forall c { HasLineCons(cart[0], cart[1..], c); }
      }
      UniqueCons(cart[0], cart[1..]);
      if cart[0].barcode == barcode then
        rest
      else
        assert forall c :: HasLine([cart[0]] + rest, c) <==> cart[0].barcode == c || HasLine(rest, c) by {
          forall c { HasLineCons(cart[0], rest, c); }
        }
        UniqueCons(cart[0], rest);
        [cart[0]] + rest
  }

  /** Removing from a concatenation removes from each part: the order of the
      remaining lines is kept. */
  lemma {:induction false} WithoutConcat(a: seq<CartLine>, b: seq<CartLine>, barcode: string)
    ensures Without(a + b, barcode) == Without(a, barcode) + Without(b, barcode)
    decreases |a|
  {
    if a == [] {
      assert a + b == b;
    } else {
      assert (a + b)[0] == a[0];
      assert (a + b)[1..] == a[1..] + b;
      WithoutConcat(a[1..], b, barcode);
    }
  }

  /** The `addByBarcode` updater: bump the existing line, or append a new line
      carrying the lookup result. */
  function WithScan(cart: seq<CartLine>, barcode: string, found: Item): (r: seq<CartLine>)
    ensures HasLine(r, barcode)
    ensures |r| == if HasLine(cart, barcode) then |cart| else |cart| + 1
    ensures forall i :: 0 <= i < |cart| ==>
              r[i].barcode == cart[i].barcode && r[i].name == cart[i].name && r[i].price == cart[i].price
    ensures forall i :: 0 <= i < |cart| ==>
              r[i].qty == if cart[i].barcode == barcode then cart[i].qty + 1 else cart[i].qty
    ensures !HasLine(cart, barcode) ==> r[|cart|] == CartLine(barcode, found.name, found.price, 1)
    ensures ValidCart(cart) ==> ValidCart(r)
  {
    if HasLine(cart, barcode) then Incremented(cart, barcode)
    else
      var r := cart + [CartLine(barcode, found.name, found.price, 1)];
      assert r[|cart|].barcode == barcode;
      r
  }

  /** Price snapshot: once a barcode is in the cart, what the lookup says now
      has no effect on a rescan. */
  lemma PriceSnapshot(cart: seq<CartLine>, barcode: string, now: Item, before: Item)
    requires HasLine(cart, barcode)
    ensures WithScan(cart, barcode, now) == WithScan(cart, barcode, before)
  {
  }

  /** One increment undone by one decrement leaves the cart as it was. */
  lemma IncrementDecrement(cart: seq<CartLine>, barcode: string)
    requires QtyPositive(cart)
    ensures Decremented(Incremented(cart, barcode), barcode) == cart
  {
    var r := Decremented(Incremented(cart, barcode), barcode);
    assert forall i :: 0 <= i < |cart| ==> r[i] == cart[i];
  }

  /** Units of the barcode in the cart, over all lines. */
  function QtyOf(cart: seq<CartLine>, barcode: string): int
    decreases |cart|
  {
    if cart == [] then 0
    else (if cart[0].barcode == barcode then cart[0].qty else 0) + QtyOf(cart[1..], barcode)
  }

  /** How often the barcode occurs among the scans. */
  function Count(scans: seq<string>, barcode: string): nat
    decreases |scans|
  {
    if scans == [] then 0
    else Count(scans[..|scans| - 1], barcode) + (if scans[|scans| - 1] == barcode then 1 else 0)
  }

  lemma {:induction false} QtyOfAppend(cart: seq<CartLine>, l: CartLine, barcode: string)
    ensures QtyOf(cart + [l], barcode) == QtyOf(cart, barcode) + (if l.barcode == barcode then l.qty else 0)
    decreases |cart|
  {
    if cart == [] {
      assert [] + [l] == [l];
      assert [l][1..] == [];
    } else {
      assert (cart + [l])[1..] == cart[1..] + [l];
      QtyOfAppend(cart[1..], l, barcode);
    }
  }

  lemma {:induction false} QtyOfIncremented(cart: seq<CartLine>, barcode: string, c: string)
    requires UniqueBarcodes(cart)
    ensures QtyOf(Incremented(cart, barcode), c)
            == QtyOf(cart, c) + (if c == barcode && HasLine(cart, barcode) then 1 else 0)
    decreases |cart|
  {
    if cart != [] {
      var r := Incremented(cart, barcode);
      assert r[1..] == Incremented(cart[1..], barcode);
      QtyOfIncremented(cart[1..], barcode, c);
      if cart[0].barcode == barcode {
        assert !HasLine(cart[1..], barcode) by {
          forall i | 0 <= i < |cart[1..]| ensures cart[1..][i].barcode != barcode {
            assert cart[1..][i] == cart[i + 1];
          }
        }
      } else {
        assert HasLine(cart, barcode) <==> HasLine(cart[1..], barcode) by {
          if HasLine(cart, barcode) {
            var i :| 0 <= i < |cart| && cart[i].barcode == barcode;
            assert cart[1..][i - 1].barcode == barcode;
          }
          if HasLine(cart[1..], barcode) {
            var i :| 0 <= i < |cart[1..]| && cart[1..][i].barcode == barcode;
            assert cart[i + 1].barcode == barcode;
          }
        }
      }
    }
  }

  /** On a cart with distinct barcodes, a scan adds exactly one unit of the
      scanned barcode and nothing of any other. */
  lemma ScanAddsOne(cart: seq<CartLine>, barcode: string, found: Item, c: string)
    requires UniqueBarcodes(cart)
    ensures QtyOf(WithScan(cart, barcode, found), c) == QtyOf(cart, c) + (if c == barcode then 1 else 0)
  {
    if HasLine(cart, barcode) {
      QtyOfIncremented(cart, barcode, c);
    } else {
      QtyOfAppend(cart, CartLine(barcode, found.name, found.price, 1), c);
    }
  }

  /** The cart after scanning `scans` in order into an empty cart, each code
      resolved against `products` at its scan. */
  function Scanned(products: seq<Product>, scans: seq<string>): seq<CartLine>
    decreases |scans|
  {
    if scans == [] then []
    else
      var b := scans[|scans| - 1];
      WithScan(Scanned(products, scans[..|scans| - 1]), b, MockLookup(b, products))
  }

  lemma HasLineWithScan(cart: seq<CartLine>, barcode: string, found: Item, c: string)
    ensures HasLine(WithScan(cart, barcode, found), c) <==> HasLine(cart, c) || c == barcode
  {
    var r := WithScan(cart, barcode, found);
    if HasLine(r, c) && c != barcode {
      var i :| 0 <= i < |r| && r[i].barcode == c;
      assert i < |cart| && cart[i].barcode == c;
    }
    if HasLine(cart, c) {
      var i :| 0 <= i < |cart| && cart[i].barcode == c;
      assert r[i].barcode == c;
    }
  }

  /** After any sequence of scans there is one line per distinct barcode
      scanned, and its quantity is the number of times it was scanned. */
  lemma {:induction false} ScannedCounts(products: seq<Product>, scans: seq<string>)
    ensures ValidCart(Scanned(products, scans))
    ensures forall c :: HasLine(Scanned(products, scans), c) <==> c in scans
    ensures forall c :: QtyOf(Scanned(products, scans), c) == Count(scans, c)
    decreases |scans|
  {
    if scans != [] {
      var prefix := scans[..|scans| - 1];
      var b := scans[|scans| - 1];
      var found := MockLookup(b, products);
      var before := Scanned(products, prefix);
      ScannedCounts(products, prefix);
      assert scans == prefix + [b];
      assert forall c :: c in scans <==> c in prefix || c == b;
      forall c
        ensures QtyOf(WithScan(before, b, found), c) == Count(scans, c)
        ensures HasLine(WithScan(before, b, found), c) <==> c in scans
      {
        ScanAddsOne(before, b, found, c);
        HasLineWithScan(before, b, found, c);
      }
    }
  }

  /** n scans of one code into an empty cart make one line with quantity n. */
  lemma {:induction false} RepeatedScan(products: seq<Product>, barcode: string, n: nat)
    requires n >= 1
    ensures Scanned(products, seq(n, _ => barcode))
            == [CartLine(barcode, MockLookup(barcode, products).name, MockLookup(barcode, products).price, n)]
    decreases n
  {
    var scans := seq(n, _ => barcode);
    if n > 1 {
      assert scans[..n - 1] == seq(n - 1, _ => barcode);
      RepeatedScan(products, barcode, n - 1);
      var before := Scanned(products, scans[..n - 1]);
      assert before[0].barcode == barcode;
    } else {
      assert scans[..0] == [];
    }
  }

  /** The register session: the catalog copy used for lookups, the cart being
      built, and the persisted ledger of committed sales. */
  class Session {
    var products: seq<Product>
    var cart: seq<CartLine>
    var sales: seq<Sale>

    ghost predicate Valid()
      reads this
    {
      ValidCart(cart)
    }

    /** A session over the saved catalog and ledger, with an empty cart. */
    constructor (savedProducts: seq<Product>, savedSales: seq<Sale>)
      ensures Valid()
      ensures products == savedProducts && sales == savedSales && cart == []
    {
      products := savedProducts;
      sales := savedSales;
      cart := [];
    }

    method AddByBarcode(barcode: string)
      requires Valid()
      modifies this
      ensures Valid()
      ensures cart == WithScan(old(cart), barcode, MockLookup(barcode, products))
      ensures products == old(products) && sales == old(sales)
    {
      var found := MockLookup(barcode, products);
      cart := WithScan(cart, barcode, found);
    }

    method Increment(barcode: string)
      requires Valid()
      modifies this
      ensures Valid()
      ensures cart == Incremented(old(cart), barcode)
      ensures products == old(products) && sales == old(sales)
    {
      cart := Incremented(cart, barcode);
    }

    method Decrement(barcode: string)
      requires Valid()
      modifies this
      ensures Valid()
      ensures cart == Decremented(old(cart), barcode)
      ensures products == old(products) && sales == old(sales)
    {
      cart := Decremented(cart, barcode);
    }

    method Remove(barcode: string)
      requires Valid()
      modifies this
      ensures Valid()
      ensures cart == Without(old(cart), barcode)
      ensures products == old(products) && sales == old(sales)
    {
      cart := Without(cart, barcode);
      assert forall l :: l in cart ==> l in old(cart);
    }

    method Clear()
      modifies this
      ensures Valid()
      ensures cart == []
      ensures products == old(products) && sales == old(sales)
    {
      cart := [];
    }

    /** Commits the current cart with the totals it was given: one record is
        appended to the ledger, then the cart is emptied. */
    method OnCheckout(date: int, totals: Totals)
      modifies this
      ensures Valid()
      ensures sales == old(sales) + [Sale(date, old(cart), totals.subtotal, totals.tax, totals.total)]
      ensures cart == []
      ensures products == old(products)
    {
      var sale := Sale(date, cart, totals.subtotal, totals.tax, totals.total);
      var ledger := sales;
      ledger := ledger + [sale];
      sales := ledger;
      Clear();
    }

    /** The checkout button of the cart view: disabled on an empty cart,
        otherwise commits the totals computed from the current lines. */
    method CheckoutAndPrint(date: int)
      requires Valid()
      modifies this
      ensures Valid()
      ensures old(cart) == [] ==> cart == old(cart) && sales == old(sales)
      ensures old(cart) != [] ==>
                && cart == []
                && |sales| == |old(sales)| + 1
                && sales[..|old(sales)|] == old(sales)
                && sales[|old(sales)|] == Sale(date, old(cart), Checkout.LineSum(old(cart)),
                                               Checkout.LineSum(old(cart)) * Checkout.TaxRate,
                                               Checkout.LineSum(old(cart)) * 1.07)
      ensures products == old(products)
    {
      if Checkout.CheckoutEnabled(cart) {
        OnCheckout(date, Checkout.Payload(cart));
      }
    }

    /** The device panel's simulated scan, wired to `AddByBarcode`. */
    method SimulateScan(panel: Devices.Panel)
      requires Valid()
      modifies this, panel
      ensures Valid()
      ensures Devices.CanSimulate(old(panel.simBarcode)) ==>
                && cart == WithScan(old(cart), Devices.Trim(old(panel.simBarcode)),
                                    MockLookup(Devices.Trim(old(panel.simBarcode)), products))
                && panel.simBarcode == ""
      ensures !Devices.CanSimulate(old(panel.simBarcode)) ==>
                cart == old(cart) && panel.simBarcode == old(panel.simBarcode)
      ensures products == old(products) && sales == old(sales)
      ensures panel.hidSupported == old(panel.hidSupported)
      ensures panel.scannerConnected == old(panel.scannerConnected)
      ensures panel.printerConnected == old(panel.printerConnected)
    {
      var code := panel.HandleSimulate();
      if code.Some? {
        AddByBarcode(code.value);
      }
    }
  }
}
