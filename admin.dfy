/** The admin panel: the operator catalog with its validated upsert and
    remove, the product form, and the rows of the sales export. */
module Admin {
  import opened Model
  import Csv
  import App

  /** The product form; the price is the text typed into the price input. */
  datatype Form = Form(barcode: string, name: string, price: string)

  const EmptyForm: Form := Form("", "", "")

  /** Some catalog entry has this barcode. */
  predicate HasProduct(products: seq<Product>, barcode: string)
  {
    exists i :: 0 <= i < |products| && products[i].barcode == barcode
  }

  /** No barcode appears on two catalog entries. */
  ghost predicate UniqueProducts(products: seq<Product>)
  {
    forall i, j :: 0 <= i < j < |products| ==> products[i].barcode != products[j].barcode
  }

  /** Gives every entry with the barcode the new name and price, in place. */
  function Replaced(products: seq<Product>, barcode: string, name: string, price: real): (r: seq<Product>)
    ensures |r| == |products|
    ensures forall i :: 0 <= i < |products| ==>
              r[i] == if products[i].barcode == barcode then Product(barcode, name, price) else products[i]
    decreases |products|
  {
    if products == [] then []
    else
      var p := products[0];
      [if p.barcode == barcode then p.(name := name, price := price) else p]
      + Replaced(products[1..], barcode, name, price)
  }

  /** The catalog update of a valid save: replace in place when the barcode
      is known, append otherwise. */
  function Upserted(products: seq<Product>, barcode: string, name: string, price: real): (r: seq<Product>)
    ensures HasProduct(products, barcode) ==>
              && |r| == |products|
              && forall i :: 0 <= i < |products| ==>
                   r[i] == if products[i].barcode == barcode then Product(barcode, name, price) else products[i]
    ensures !HasProduct(products, barcode) ==> r == products + [Product(barcode, name, price)]
    ensures HasProduct(r, barcode)
    ensures forall c :: HasProduct(r, c) <==> HasProduct(products, c) || c == barcode
    ensures UniqueProducts(products) ==> UniqueProducts(r)
  {
    if HasProduct(products, barcode) then
      var r := Replaced(products, barcode, name, price);
      assert forall c :: HasProduct(r, c) ==> HasProduct(products, c) by {
        forall c | HasProduct(r, c) ensures HasProduct(products, c) {
          var i :| 0 <= i < |r| && r[i].barcode == c;
          assert products[i].barcode == c;
        }
      }
      assert forall c :: HasProduct(products, c) ==> HasProduct(r, c) by {
        forall c | HasProduct(products, c) ensures HasProduct(r, c) {
          var i :| 0 <= i < |products| && products[i].barcode == c;
          assert r[i].barcode == c;
        }
      }
      r
    else
      var r := products + [Product(barcode, name, price)];
      assert r[|products|].barcode == barcode;
      assert forall c :: HasProduct(products, c) ==> HasProduct(r, c) by {
        forall c | HasProduct(products, c) ensures HasProduct(r, c) {
          var i :| 0 <= i < |products| && products[i].barcode == c;
          assert r[i].barcode == c;
        }
      }
      r
  }

  /** A save leaves catalog and form alone when the barcode or the name is
      empty or the price does not parse; otherwise it upserts the entry and
      clears the form. `parseFloat` gives None where the source gets NaN. */
  function Saved(products: seq<Product>, form: Form, parseFloat: string -> Option<real>): (r: (seq<Product>, Form))
    ensures form.barcode == "" || form.name == "" || parseFloat(form.price).None? ==> r == (products, form)
    ensures form.barcode != "" && form.name != "" && parseFloat(form.price).Some? ==>
              && r.1 == EmptyForm
              && r.0 == Upserted(products, form.barcode, form.name, parseFloat(form.price).value)
  {
    if form.barcode == "" || form.name == "" || parseFloat(form.price).None? then (products, form)
    else (Upserted(products, form.barcode, form.name, parseFloat(form.price).value), EmptyForm)
  }

  /** A lookup against the catalog after a valid save (the catalog a register
      loaded after the save sees) resolves the saved barcode to exactly the
      saved name and price, whatever the demo table says. */
  lemma SavedThenLookup(products: seq<Product>, form: Form, parseFloat: string -> Option<real>)
    requires form.barcode != "" && form.name != "" && parseFloat(form.price).Some?
    ensures App.MockLookup(form.barcode, Saved(products, form, parseFloat).0)
            == Item(form.name, parseFloat(form.price).value)
  {
    var b := form.barcode;
    var r := Saved(products, form, parseFloat).0;
    if HasProduct(products, b) {
      var i :| 0 <= i < |products| && products[i].barcode == b && forall j :: 0 <= j < i ==> products[j].barcode != b by {
        var k := App.FirstMatch(products, b);
        assert k.Some? by {
          var i :| 0 <= i < |products| && products[i].barcode == b;
          assert products[i].barcode == b;
        }
      }
      assert r[i].barcode == b;
    } else {
      assert forall j :: 0 <= j < |products| ==> r[j].barcode != b;
      assert r[|products|].barcode == b;
    }
  }

  /** Validation only asks that the price parse: a negative price is saved. */
  lemma NegativePriceAccepted(products: seq<Product>, parseFloat: string -> Option<real>)
    requires parseFloat("-1") == Some(-1.0)
    ensures Saved(products, Form("1", "Refund", "-1"), parseFloat).0
            == Upserted(products, "1", "Refund", -1.0)
  {
  }

  /** The admin `remove`: drops every entry with the barcode, keeps the rest in order. */
  function Removed(products: seq<Product>, barcode: string): (r: seq<Product>)
    ensures !HasProduct(r, barcode)
    ensures forall p :: p in r <==> p in products && p.barcode != barcode
    ensures !HasProduct(products, barcode) ==> r == products
    decreases |products|
  {
    if products == [] then []
    else
      var rest := Removed(products[1..], barcode);
      if products[0].barcode == barcode then rest
      else
        var r := [products[0]] + rest;
        assert !HasProduct(r, barcode) by {
          forall i | 0 <= i < |r| ensures r[i].barcode != barcode {
            if i > 0 {
              assert r[i] == rest[i - 1];
              assert r[i] in rest;
            }
          }
        }
        assert !HasProduct(products, barcode) ==> rest == products[1..] by {
          if !HasProduct(products, barcode) {
            assert !HasProduct(products[1..], barcode) by {
              forall i | 0 <= i < |products[1..]| ensures products[1..][i].barcode != barcode {
                assert products[1..][i] == products[i + 1];
              }
            }
          }
        }
        r
  }

  /** In a catalog with distinct barcodes, the head and the tail split them apart. */
  lemma UniqueSplit(products: seq<Product>)
    requires products != [] && UniqueProducts(products)
    ensures UniqueProducts(products[1..])
    ensures forall p :: p in products[1..] ==> p.barcode != products[0].barcode
  {
    var tail := products[1..];
    forall i, j | 0 <= i < j < |tail| ensures tail[i].barcode != tail[j].barcode {
      assert tail[i] == products[i + 1] && tail[j] == products[j + 1];
    }
    forall p | p in tail ensures p.barcode != products[0].barcode {
      var k :| 0 <= k < |tail| && tail[k] == p;
      assert products[k + 1] == p;
    }
  }

  /** A remove keeps the catalog's barcodes distinct. */
  lemma {:induction false} RemovedUnique(products: seq<Product>, barcode: string)
    requires UniqueProducts(products)
    ensures UniqueProducts(Removed(products, barcode))
    decreases |products|
  {
    if products != [] {
      var tail := products[1..];
      UniqueSplit(products);
      RemovedUnique(tail, barcode);
      var rest := Removed(tail, barcode);
      if products[0].barcode != barcode {
        var r := [products[0]] + rest;
        forall i, j | 0 <= i < j < |r| ensures r[i].barcode != r[j].barcode {
          assert r[j] == rest[j - 1];
          assert r[j] in rest;
          if i > 0 {
            assert r[i] == rest[i - 1];
          }
        }
      }
    }
  }

  /** Removing from a concatenation removes from each part: the survivors keep their order. */
  lemma {:induction false} RemovedConcat(a: seq<Product>, b: seq<Product>, barcode: string)
    ensures Removed(a + b, barcode) == Removed(a, barcode) + Removed(b, barcode)
    decreases |a|
  {
    if a == [] {
      assert a + b == b;
    } else {
      assert (a + b)[0] == a[0];
      assert (a + b)[1..] == a[1..] + b;
      RemovedConcat(a[1..], b, barcode);
    }
  }

  // ----- the sales export -----

  const Header: seq<string> := ["Date", "Items", "Subtotal", "Tax", "Total"]

  /** One sold line as the export shows it: `name x<qty>`. */
  function ItemText(l: CartLine): string
  {
    l.name + " x" + Csv.IntText(l.qty)
  }

  /** The items cell: every line rendered, joined by "; ". */
  function ItemsCell(items: seq<CartLine>): string
  {
    Csv.Join(seq(|items|, i requires 0 <= i < |items| => ItemText(items[i])), "; ")
  }

  /** The items cell grows by "; " and the new line's text for each further line. */
  lemma ItemsCellAppend(items: seq<CartLine>, l: CartLine)
    ensures ItemsCell(items + [l])
            == if items == [] then ItemText(l) else ItemsCell(items) + "; " + ItemText(l)
  {
    var texts := seq(|items|, i requires 0 <= i < |items| => ItemText(items[i]));
    var all := items + [l];
    assert seq(|all|, i requires 0 <= i < |all| => ItemText(all[i])) == texts + [ItemText(l)];
    if items != [] {
      Csv.JoinAppend(texts, ItemText(l), "; ");
    }
  }

  /** The cells of one sale. The timestamp and the amounts are rendered by
      `isoDate` and `number`, the source's `toISOString` and `String`. */
  function SaleRow(s: Sale, isoDate: int -> string, number: real -> string): (r: seq<string>)
    ensures |r| == 5
    ensures r[0] == isoDate(s.date) && r[1] == ItemsCell(s.items)
    ensures r[2] == number(s.subtotal) && r[3] == number(s.tax) && r[4] == number(s.total)
  {
    [isoDate(s.date), ItemsCell(s.items), number(s.subtotal), number(s.tax), number(s.total)]
  }

  /** The header, then one row per sale in ledger order. */
  function SalesRows(sales: seq<Sale>, isoDate: int -> string, number: real -> string): (rows: seq<seq<string>>)
    ensures |rows| == |sales| + 1
    ensures rows[0] == Header
    ensures forall k :: 0 <= k < |sales| ==> rows[k + 1] == SaleRow(sales[k], isoDate, number)
    ensures forall k :: 0 <= k < |rows| ==> |rows[k]| == 5
  {
    var body := seq(|sales|, k requires 0 <= k < |sales| => SaleRow(sales[k], isoDate, number));
    assert forall k :: 0 <= k < |body| ==> |body[k]| == 5;
    [Header] + body
  }

  /** The text of `sales.csv`. */
  function SalesCsv(sales: seq<Sale>, isoDate: int -> string, number: real -> string): string
  {
    Csv.Document(SalesRows(sales, isoDate, number))
  }

  /** A CSV reader gets back every cell of the export exactly, whatever
      quotes, commas or line feeds the item names hold. */
  lemma SalesCsvReadsBack(sales: seq<Sale>, isoDate: int -> string, number: real -> string)
    ensures Csv.Read(SalesCsv(sales, isoDate, number)) == Some(SalesRows(sales, isoDate, number))
  {
    Csv.ReadBack(SalesRows(sales, isoDate, number));
  }

  /** The admin panel's state: its own copy of the catalog, the form, and
      the ledger as read when the panel was mounted. */
  class Panel {
    var products: seq<Product>
    var form: Form
    var sales: seq<Sale>

    constructor (savedProducts: seq<Product>, savedSales: seq<Sale>)
      ensures products == savedProducts && sales == savedSales && form == EmptyForm
    {
      products := savedProducts;
      sales := savedSales;
      form := EmptyForm;
    }

    /** Typing in the form's inputs. */
    method Edit(barcode: string, name: string, price: string)
      modifies this
      ensures form == Form(barcode, name, price)
      ensures products == old(products) && sales == old(sales)
    {
      form := Form(barcode, name, price);
    }

    /** The Save Product button. */
    method AddOrUpdate(parseFloat: string -> Option<real>)
      modifies this
      ensures (products, form) == Saved(old(products), old(form), parseFloat)
      ensures UniqueProducts(old(products)) ==> UniqueProducts(products)
      ensures sales == old(sales)
    {
      if form.barcode == "" || form.name == "" || parseFloat(form.price).None? {
        return;
      }
      var price := parseFloat(form.price).value;
      products := Upserted(products, form.barcode, form.name, price);
      form := EmptyForm;
    }

    /** The Remove button of an inventory row. */
    method Remove(barcode: string)
      modifies this
      ensures products == Removed(old(products), barcode)
      ensures UniqueProducts(old(products)) ==> UniqueProducts(products)
      ensures form == old(form) && sales == old(sales)
    {
      if UniqueProducts(products) {
        RemovedUnique(products, barcode);
      }
      products := Removed(products, barcode);
    }

    /** The Download CSV button, up to the text handed to the download. */
    method DownloadCsv(isoDate: int -> string, number: real -> string) returns (csv: string)
      ensures Csv.Read(csv) == Some(SalesRows(sales, isoDate, number))
      ensures csv == SalesCsv(sales, isoDate, number)
    {
      csv := SalesCsv(sales, isoDate, number);
      SalesCsvReadsBack(sales, isoDate, number);
    }
  }
}
