/** The checkout calculator of the cart view: subtotal, tax and total derived
    from the current lines, and the rule that checkout needs a non-empty cart. */
module Checkout {
  import opened Model

  const TaxRate: real := 0.07

  /** What one line contributes to the subtotal. */
  function LineAmount(l: CartLine): real
  {
    l.price * l.qty as real
  }

  /** The reduce of the cart view, one step per line, folded from the left. */
  function Fold(sum: real, items: seq<CartLine>): real
    decreases |items|
  {
    if items == [] then sum else Fold(sum + LineAmount(items[0]), items[1..])
  }

  /** Reference definition: the sum of all line amounts. */
  function LineSum(items: seq<CartLine>): real
    decreases |items|
  {
    if items == [] then 0.0 else LineAmount(items[0]) + LineSum(items[1..])
  }

  lemma {:induction false} FoldOffset(sum: real, items: seq<CartLine>)
    ensures Fold(sum, items) == sum + LineSum(items)
    decreases |items|
  {
    if items != [] {
      FoldOffset(sum + LineAmount(items[0]), items[1..]);
    }
  }

  /** The subtotal, starting the reduce at 0. */
  function Subtotal(items: seq<CartLine>): (r: real)
    ensures r == LineSum(items)
    ensures items == [] ==> r == 0.0
  {
    FoldOffset(0.0, items);
    Fold(0.0, items)
  }

  lemma {:induction false} LineSumConcat(a: seq<CartLine>, b: seq<CartLine>)
    ensures LineSum(a + b) == LineSum(a) + LineSum(b)
    decreases |a|
  {
    if a == [] {
      assert a + b == b;
    } else {
      assert (a + b)[1..] == a[1..] + b;
      LineSumConcat(a[1..], b);
    }
  }

  /** Appending a line raises the subtotal by exactly that line's amount. */
  lemma {:induction false} SubtotalAppend(items: seq<CartLine>, l: CartLine)
    ensures Subtotal(items + [l]) == Subtotal(items) + l.price * l.qty as real
  {
    LineSumConcat(items, [l]);
    assert [l][1..] == [];
  }

  /** With non-negative prices and positive quantities the subtotal is non-negative. */
  lemma {:induction false} SubtotalNonNegative(items: seq<CartLine>)
    requires forall i :: 0 <= i < |items| ==> items[i].price >= 0.0 && items[i].qty >= 1
    ensures Subtotal(items) >= 0.0
    decreases |items|
  {
    if items != [] {
      SubtotalNonNegative(items[1..]);
      assert LineAmount(items[0]) >= 0.0;
    }
  }

  /** The payload handed to checkout: computed from the lines alone, tax unrounded. */
  function Payload(items: seq<CartLine>): (t: Totals)
    ensures t.subtotal == LineSum(items)
    ensures t.tax == t.subtotal * TaxRate
    ensures t.total == t.subtotal + t.tax
    ensures t.total == t.subtotal * 1.07
  {
    var subtotal := Subtotal(items);
    var tax := subtotal * TaxRate;
    Totals(subtotal, tax, subtotal + tax)
  }

  /** The checkout button is enabled only for a non-empty cart. */
  predicate CheckoutEnabled(items: seq<CartLine>)
  {
    |items| != 0
  }

  /** Two chocolate bars and a notebook: 9.57, with tax 0.6699 carried unrounded. */
  lemma CheckoutExample()
    ensures Payload([CartLine("123456789012", "Chocolate Bar", 2.29, 2),
                     CartLine("978020137962", "Notebook", 4.99, 1)])
            == Totals(9.57, 0.6699, 10.2399)
  {
    var items := [CartLine("123456789012", "Chocolate Bar", 2.29, 2),
                  CartLine("978020137962", "Notebook", 4.99, 1)];
    assert LineSum(items[1..][1..]) == 0.0;
    assert LineSum(items) == 9.57;
  }
}
