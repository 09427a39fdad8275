/**
 * The cart controller's four handlers over a user document.
 *
 * The user lookup becomes a possibly-null `User`, the product lookup an
 * `Option<Product>`. Each handler returns the cart it would send back, or
 * the error status it would set. The handlers change step by step the same
 * cart that the CartLines functions describe.
 */
module CartController {
  import opened CartLines

  /** A user document, as far as the cart handlers use it: its embedded cart. */
  class User {
    var cart: seq<Entry>

    constructor (cart: seq<Entry>)
      ensures this.cart == cart
    {
      this.cart := cart;
    }
  }

  /** Linear search for the first entry of `productId`; -1 when there is none. */
  method FindIndex(cart: seq<Entry>, productId: string) returns (index: int)
    ensures index == FirstIndex(cart, productId)
  {
    var i := 0;
    while i < |cart|
      invariant 0 <= i <= |cart|
      invariant forall j :: 0 <= j < i ==> cart[j].product != productId
    {
      if cart[i].product == productId {
        return i;
      }
      i := i + 1;
    }
    return -1;
  }

  /** GET /cart: the user's cart, or NotFound when the user is gone. */
  method GetCart(user: User?) returns (r: Result<seq<Entry>>)
    ensures user == null ==> r == Err(NotFound)
    ensures user != null ==> r == Ok(user.cart)
  {
    if user == null {
      return Err(NotFound);
    }
    return Ok(user.cart);
  }

  /**
   * POST /cart: validate the lookups and the stock, then raise the first
   * entry of the product in place or push a new entry. A failing call leaves
   * the cart as it was.
   */
  method AddItemToCart(user: User?, product: Option<Product>, productId: string, quantity: int)
    returns (r: Result<seq<Entry>>)
    modifies user
    ensures user == null ==> r == Err(NotFound)
    ensures user != null ==> r == AddItem(old(user.cart), product, productId, quantity)
    ensures user != null ==> user.cart == if r.Ok? then r.value else old(user.cart)
  {
    if user == null || product.None? {
      return Err(NotFound);
    }
    if product.value.stock < quantity {
      return Err(BadRequest);
    }
    var itemIndex := FindIndex(user.cart, productId);
    if itemIndex > -1 {
      user.cart := user.cart[itemIndex := user.cart[itemIndex].(quantity := user.cart[itemIndex].quantity + quantity)];
    } else {
      user.cart := user.cart + [Entry(productId, quantity)];
    }
    return Ok(user.cart);
  }

  /**
   * PUT /cart/:productId: overwrite the quantity of the first entry of the
   * product, or fail with NotFound when the user or the entry is missing.
   */
  method UpdateCartItem(user: User?, productId: string, quantity: int) returns (r: Result<seq<Entry>>)
    modifies user
    ensures user == null ==> r == Err(NotFound)
    ensures user != null ==> r == UpdateItem(old(user.cart), productId, quantity)
    ensures user != null ==> user.cart == if r.Ok? then r.value else old(user.cart)
  {
    if user == null {
      return Err(NotFound);
    }
    var itemIndex := FindIndex(user.cart, productId);
    if itemIndex > -1 {
      user.cart := user.cart[itemIndex := user.cart[itemIndex].(quantity := quantity)];
      return Ok(user.cart);
    }
    return Err(NotFound);
  }

  /**
   * DELETE /cart/:productId: reassign the cart to its filtered copy. Once the
   * user is found this never fails.
   */
  method RemoveItemFromCart(user: User?, productId: string) returns (r: Result<seq<Entry>>)
    modifies user
    ensures user == null ==> r == Err(NotFound)
    ensures user != null ==> r == Ok(Without(old(user.cart), productId)) && user.cart == r.value
  {
    if user == null {
      return Err(NotFound);
    }
    user.cart := Without(user.cart, productId);
    return Ok(user.cart);
  }

  /**
   * A session against one user: two adds that merge into one entry, an add
   * above the stock, an add whose merged total exceeds the stock, an update
   * of a missing entry, a removal repeated, and a missing user.
   */
  method ExampleSession() {
    var user := new User([]);
    var p1 := Some(Product(5));
    var r := AddItemToCart(user, p1, "P1", 2);
    assert r == Ok([Entry("P1", 2)]) by { AddTwiceExample(); }
    r := AddItemToCart(user, p1, "P1", 3);
    assert r == Ok([Entry("P1", 5)]) by { AddTwiceExample(); }
    r := AddItemToCart(user, p1, "P1", 6);
    assert r == Err(BadRequest) && user.cart == [Entry("P1", 5)] by { OversellExample(); }
    r := AddItemToCart(user, p1, "P1", 1);
    assert r == Ok([Entry("P1", 6)]) by { OversellExample(); }
    r := UpdateCartItem(user, "P2", 1);
    assert [Entry("P1", 6)][0].product != "P2";
    assert r == Err(NotFound) && user.cart == [Entry("P1", 6)];
    r := RemoveItemFromCart(user, "P1");
    assert r == Ok([]);
    r := RemoveItemFromCart(user, "P1");
    assert r == Ok([]);
    r := RemoveItemFromCart(null, "P1");
    assert r == Err(NotFound);
  }
}
