/**
 * The line-item algebra of a user's shopping cart.
 *
 * A cart is an ordered sequence of entries, each naming a product by the
 * string form of its id and carrying a quantity. The handlers of the cart
 * controller search it for the first entry of a product, raise or overwrite
 * that entry's quantity, append a new entry, or filter a product out.
 */
module CartLines {

  /** One cart line: the product's id (compared as a string) and a quantity. */
  datatype Entry = Entry(product: string, quantity: int)

  /** A product document, as far as the cart looks at it: its stock (never negative). */
  datatype Product = Product(stock: nat)

  /** The two error statuses the cart handlers set: 404 and 400. */
  datatype Error = NotFound | BadRequest

  datatype Result<T> = Ok(value: T) | Err(error: Error)

  datatype Option<T> = None | Some(value: T)

  /** Some entry of the cart is for `productId`. */
  predicate InCart(cart: seq<Entry>, productId: string)
  {
    exists i :: 0 <= i < |cart| && cart[i].product == productId
  }

  /** The cart invariant: at most one entry per distinct product id. */
  predicate NoDuplicates(cart: seq<Entry>)
  {
    forall i, j :: 0 <= i < j < |cart| ==> cart[i].product != cart[j].product
  }

  /** The total quantity the cart holds for `productId`, over all its entries. */
  function QuantityOf(cart: seq<Entry>, productId: string): int
  {
    if |cart| == 0 then 0
    else (if cart[0].product == productId then cart[0].quantity else 0) + QuantityOf(cart[1..], productId)
  }

  /**
   * The position of the first entry for `productId`, or -1 when there is
   * none: what `findIndex` with a product-id comparison yields.
   */
  function FirstIndex(cart: seq<Entry>, productId: string): (r: int)
    ensures -1 <= r < |cart|
    ensures r == -1 <==> !InCart(cart, productId)
    ensures 0 <= r ==> cart[r].product == productId
    ensures forall j :: 0 <= j < r ==> cart[j].product != productId
  {
    if |cart| == 0 then -1
    else if cart[0].product == productId then 0
    else
      var k := FirstIndex(cart[1..], productId);
      assert InCart(cart[1..], productId) ==> InCart(cart, productId) by {
        if InCart(cart[1..], productId) {
          var i :| 0 <= i < |cart| - 1 && cart[1..][i].product == productId;
          assert cart[i + 1].product == productId;
        }
      }
      if k == -1 then -1 else k + 1
  }

  /**
   * The cart after adding `quantity` of `productId`: the first entry for the
   * product has its quantity raised, or, when there is none, a new entry is
   * appended at the end.
   */
  function Merge(cart: seq<Entry>, productId: string, quantity: int): (r: seq<Entry>)
    ensures InCart(cart, productId) ==>
      var k := FirstIndex(cart, productId);
      |r| == |cart| &&
      r[k] == Entry(productId, cart[k].quantity + quantity) &&
      forall j :: 0 <= j < |r| && j != k ==> r[j] == cart[j]
    ensures !InCart(cart, productId) ==>
      |r| == |cart| + 1 && r[..|cart|] == cart && r[|cart|] == Entry(productId, quantity)
  {
    var k := FirstIndex(cart, productId);
    if k > -1 then cart[k := cart[k].(quantity := cart[k].quantity + quantity)]
    else cart + [Entry(productId, quantity)]
  }

  /** The cart with every entry for `productId` filtered out, the rest in order. */
  function Without(cart: seq<Entry>, productId: string): (r: seq<Entry>)
    ensures |r| <= |cart|
    ensures !InCart(r, productId)
    ensures forall e :: e in r ==> e in cart
    ensures forall e :: e in cart && e.product != productId ==> e in r
  {
    if |cart| == 0 then []
    else if cart[0].product == productId then Without(cart[1..], productId)
    else [cart[0]] + Without(cart[1..], productId)
  }

  /**
   * What adding to the cart yields once the user is found: NotFound without a
   * product, BadRequest when the stock is below the requested quantity, and
   * otherwise the merged cart. Only the requested quantity is compared with
   * the stock, never the merged total.
   */
  function AddItem(cart: seq<Entry>, product: Option<Product>, productId: string, quantity: int): (r: Result<seq<Entry>>)
    ensures r.Err? <==> product.None? || product.value.stock < quantity
    ensures r.Err? ==> r.error == (if product.None? then NotFound else BadRequest)
    ensures r.Ok? ==> InCart(r.value, productId)
    ensures r.Ok? ==> forall other :: QuantityOf(r.value, other) ==
                        QuantityOf(cart, other) + (if other == productId then quantity else 0)
  {
    match product
    case None => Err(NotFound)
    case Some(p) =>
      if p.stock < quantity then Err(BadRequest)
      else
        MergeQuantities(cart, productId, quantity);
        Ok(Merge(cart, productId, quantity))
  }

  /**
   * What updating a cart line yields once the user is found: NotFound when no
   * entry is for `productId`, and otherwise the cart whose first entry for it
   * holds exactly `quantity`. The stock is not consulted.
   */
  function UpdateItem(cart: seq<Entry>, productId: string, quantity: int): (r: Result<seq<Entry>>)
    ensures r.Err? <==> !InCart(cart, productId)
    ensures r.Err? ==> r.error == NotFound
    ensures r.Ok? ==>
      var k := FirstIndex(cart, productId);
      |r.value| == |cart| &&
      r.value[k] == Entry(productId, quantity) &&
      forall j :: 0 <= j < |cart| && j != k ==> r.value[j] == cart[j]
  {
    var k := FirstIndex(cart, productId);
    if k > -1 then Ok(cart[k := cart[k].(quantity := quantity)])
    else Err(NotFound)
  }

  // ---------------------------------------------------------------------
  // Quantities

  lemma {:induction false} QuantityOfAppend(a: seq<Entry>, b: seq<Entry>, productId: string)
    ensures QuantityOf(a + b, productId) == QuantityOf(a, productId) + QuantityOf(b, productId)
  {
    if |a| > 0 {
      assert (a + b)[1..] == a[1..] + b;
      QuantityOfAppend(a[1..], b, productId);
    } else {
      assert a + b == b;
    }
  }

  /** Replacing one entry changes the total of a product by what left and what came. */
  lemma {:induction false} QuantityOfReplace(cart: seq<Entry>, k: nat, e: Entry, productId: string)
    requires k < |cart|
    ensures QuantityOf(cart[k := e], productId) ==
      QuantityOf(cart, productId)
      - (if cart[k].product == productId then cart[k].quantity else 0)
      + (if e.product == productId then e.quantity else 0)
  {
    if k > 0 {
      assert cart[k := e][1..] == cart[1..][k - 1 := e];
      QuantityOfReplace(cart[1..], k - 1, e, productId);
    } else {
      assert cart[k := e][1..] == cart[1..];
    }
  }

  /** A cart without an entry for a product holds none of it. */
  lemma {:induction false} QuantityOfAbsent(cart: seq<Entry>, productId: string)
    requires !InCart(cart, productId)
    ensures QuantityOf(cart, productId) == 0
  {
    if |cart| > 0 {
      assert cart[0].product != productId;
      QuantityOfAbsent(cart[1..], productId);
    }
  }

  /** In a cart with no duplicates, a product's total is the quantity of its one entry. */
  lemma {:induction false} QuantityOfUnique(cart: seq<Entry>, productId: string)
    requires NoDuplicates(cart) && InCart(cart, productId)
    ensures QuantityOf(cart, productId) == cart[FirstIndex(cart, productId)].quantity
  {
    var k := FirstIndex(cart, productId);
    var before, after := cart[..k], cart[k + 1..];
    assert cart == before + [cart[k]] + after;
    assert !InCart(before, productId);
    assert !InCart(after, productId);
    QuantityOfAbsent(before, productId);
    QuantityOfAbsent(after, productId);
    QuantityOfAppend(before + [cart[k]], after, productId);
    QuantityOfAppend(before, [cart[k]], productId);
    assert [cart[k]][1..] == [];
  }

  /** Merging raises the merged product's total by the quantity and leaves every other total. */
  lemma MergeQuantities(cart: seq<Entry>, productId: string, quantity: int)
    ensures forall other :: QuantityOf(Merge(cart, productId, quantity), other) ==
              QuantityOf(cart, other) + (if other == productId then quantity else 0)
  {
    var k := FirstIndex(cart, productId);
    forall other
      ensures QuantityOf(Merge(cart, productId, quantity), other) ==
              QuantityOf(cart, other) + (if other == productId then quantity else 0)
    {
      if k > -1 {
        QuantityOfReplace(cart, k, cart[k].(quantity := cart[k].quantity + quantity), other);
      } else {
        QuantityOfAppend(cart, [Entry(productId, quantity)], other);
        assert QuantityOf([Entry(productId, quantity)], other) == (if other == productId then quantity else 0) by {
          assert [Entry(productId, quantity)][1..] == [];
        }
      }
    }
  }

  /** Filtering a product out zeroes its total and leaves every other total. */
  lemma {:induction false} WithoutQuantities(cart: seq<Entry>, productId: string, other: string)
    ensures QuantityOf(Without(cart, productId), other) ==
            if other == productId then 0 else QuantityOf(cart, other)
  {
    if |cart| > 0 {
      WithoutQuantities(cart[1..], productId, other);
      if cart[0].product != productId {
        assert ([cart[0]] + Without(cart[1..], productId))[1..] == Without(cart[1..], productId);
      }
    }
  }

  /** Updating a line of a duplicate-free cart sets that product's total to exactly the quantity. */
  lemma UpdateQuantities(cart: seq<Entry>, productId: string, quantity: int, other: string)
    requires NoDuplicates(cart) && InCart(cart, productId)
    ensures UpdateItem(cart, productId, quantity).Ok?
    ensures QuantityOf(UpdateItem(cart, productId, quantity).value, other) ==
            if other == productId then quantity else QuantityOf(cart, other)
  {
    var k := FirstIndex(cart, productId);
    QuantityOfReplace(cart, k, cart[k].(quantity := quantity), other);
    if other == productId {
      QuantityOfUnique(cart, productId);
    }
  }

  // ---------------------------------------------------------------------
  // The one-entry-per-product invariant

  lemma MergePreservesNoDuplicates(cart: seq<Entry>, productId: string, quantity: int)
    requires NoDuplicates(cart)
    ensures NoDuplicates(Merge(cart, productId, quantity))
  {
  }

  lemma UpdatePreservesNoDuplicates(cart: seq<Entry>, productId: string, quantity: int)
    requires NoDuplicates(cart)
    ensures UpdateItem(cart, productId, quantity).Ok? ==> NoDuplicates(UpdateItem(cart, productId, quantity).value)
  {
  }

  lemma {:induction false} WithoutPreservesNoDuplicates(cart: seq<Entry>, productId: string)
    requires NoDuplicates(cart)
    ensures NoDuplicates(Without(cart, productId))
  {
    if |cart| > 0 {
      WithoutPreservesNoDuplicates(cart[1..], productId);
      if cart[0].product != productId {
        var rest := Without(cart[1..], productId);
        var r := [cart[0]] + rest;
        forall i, j | 0 <= i < j < |r| ensures r[i].product != r[j].product {
          if i == 0 {
            assert r[j] in cart[1..];
            var m :| 0 <= m < |cart| - 1 && cart[1..][m] == r[j];
            assert cart[m + 1] == r[j];
          } else {
            assert r[i] == rest[i - 1] && r[j] == rest[j - 1];
          }
        }
      }
    }
  }

  /** Adding keeps the invariant: a duplicate-free cart stays duplicate-free after a successful add. */
  lemma AddItemPreservesNoDuplicates(cart: seq<Entry>, product: Option<Product>, productId: string, quantity: int)
    requires NoDuplicates(cart)
    ensures AddItem(cart, product, productId, quantity).Ok? ==>
              NoDuplicates(AddItem(cart, product, productId, quantity).value)
  {
  }

  // ---------------------------------------------------------------------
  // Filtering

  /** Filtering distributes over concatenation: the kept entries stay in their order. */
  lemma {:induction false} WithoutAppend(a: seq<Entry>, b: seq<Entry>, productId: string)
    ensures Without(a + b, productId) == Without(a, productId) + Without(b, productId)
  {
    if |a| == 0 {
      assert a + b == b;
    } else {
      assert (a + b)[0] == a[0];
      assert (a + b)[1..] == a[1..] + b;
      WithoutAppend(a[1..], b, productId);
    }
  }

  /** Filtering out a product the cart does not hold changes nothing. */
  lemma {:induction false} WithoutAbsent(cart: seq<Entry>, productId: string)
    requires !InCart(cart, productId)
    ensures Without(cart, productId) == cart
  {
    if |cart| > 0 {
      assert cart[0].product != productId;
      WithoutAbsent(cart[1..], productId);
      assert [cart[0]] + cart[1..] == cart;
    }
  }

  /** Removing twice is removing once. */
  lemma WithoutIdempotent(cart: seq<Entry>, productId: string)
    ensures Without(Without(cart, productId), productId) == Without(cart, productId)
  {
  }

  /** Filtering out one product never changes which other products the cart holds. */
  lemma WithoutKeepsOthers(cart: seq<Entry>, productId: string, other: string)
    requires other != productId
    ensures InCart(Without(cart, productId), other) <==> InCart(cart, other)
  {
  }

  // ---------------------------------------------------------------------
  // The stock check

  /**
   * The stock check compares only the requested quantity: whenever it fits
   * the stock, adding succeeds, whatever the cart already holds of the
   * product, so the product's total may end above the stock.
   */
  lemma AddItemIgnoresCartTotal(cart: seq<Entry>, stock: nat, productId: string, quantity: int)
    requires quantity <= stock
    ensures AddItem(cart, Some(Product(stock)), productId, quantity).Ok?
    ensures QuantityOf(AddItem(cart, Some(Product(stock)), productId, quantity).value, productId) ==
            QuantityOf(cart, productId) + quantity
  {
  }

  /** A single-entry cart for the product merges into a single entry holding the sum. */
  lemma MergeIntoSingle(productId: string, held: int, quantity: int)
    ensures Merge([Entry(productId, held)], productId, quantity) == [Entry(productId, held + quantity)]
  {
  }

  /**
   * A concrete case: with five held and five in stock, one more is accepted
   * and six are held, while six more at once are refused.
   */
  lemma OversellExample()
    ensures AddItem([Entry("P1", 5)], Some(Product(5)), "P1", 1) == Ok([Entry("P1", 6)])
    ensures QuantityOf([Entry("P1", 6)], "P1") > 5
    ensures AddItem([Entry("P1", 5)], Some(Product(5)), "P1", 6) == Err(BadRequest)
  {
    MergeIntoSingle("P1", 5, 1);
  }

  /**
   * Adding `q1` and then `q2` of one product to an empty cart, each within
   * the stock, leaves one entry holding `q1 + q2`.
   */
  lemma AddTwice(productId: string, stock: nat, q1: int, q2: int)
    requires q1 <= stock && q2 <= stock
    ensures AddItem([], Some(Product(stock)), productId, q1) == Ok([Entry(productId, q1)])
    ensures AddItem([Entry(productId, q1)], Some(Product(stock)), productId, q2) == Ok([Entry(productId, q1 + q2)])
  {
    var r := Merge([], productId, q1);
    assert r == [r[0]];
    MergeIntoSingle(productId, q1, q2);
  }

  /** An instance of AddTwice: two and then three of one product leave one entry holding five. */
  lemma AddTwiceExample()
    ensures AddItem([], Some(Product(5)), "P1", 2) == Ok([Entry("P1", 2)])
    ensures AddItem([Entry("P1", 2)], Some(Product(5)), "P1", 3) == Ok([Entry("P1", 5)])
  {
    AddTwice("P1", 5, 2, 3);
  }
}
