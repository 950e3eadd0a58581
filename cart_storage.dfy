/** The cart helpers of the store's client as they run against the browser's
    key-value store: the cart is read from and written back to one key, and
    every save refreshes the cart badge.  JSON serialisation is taken to be
    the identity, so the store maps keys to carts. */
module CartStorage {
  import opened Wrappers
  import opened CartLedger

  /** The key the cart is kept under. */
  const CART_KEY: string := "simpleStoreCart"

  /** The cart a store holds: the one under CART_KEY, or the empty cart. */
  function Load(storage: map<string, Cart>): (cart: Cart) {
    if CART_KEY in storage then storage[CART_KEY] else []
  }

  /** The store after the cart is written under CART_KEY. */
  function Store(storage: map<string, Cart>, cart: Cart): (s: map<string, Cart>) {
    storage[CART_KEY := cart]
  }

  /** Saving then loading gives back the same ordered cart, other keys are
      untouched, and a store with nothing under the key loads as empty. */
  lemma LoadStore(storage: map<string, Cart>, cart: Cart)
    ensures Load(Store(storage, cart)) == cart
    ensures forall k :: k in storage && k != CART_KEY ==> k in Store(storage, cart) && Store(storage, cart)[k] == storage[k]
    ensures Store(storage, cart).Keys == storage.Keys + {CART_KEY}
    ensures CART_KEY !in storage ==> Load(storage) == []
  {
  }

  /** The page's view of the client: its local storage and the number the
      cart badge shows. */
  class Browser {
    var localStorage: map<string, Cart>
    var cartCount: int

    /** The badge agrees with the stored cart. */
    ghost predicate Valid()
      reads this
    {
      cartCount == Count(Load(localStorage))
    }

    /** Page load: the stored cart is whatever the store already holds, and
        the badge is computed from it. */
    constructor (storage: map<string, Cart>)
      ensures localStorage == storage
      ensures Valid()
    {
      localStorage := storage;
      cartCount := 0;
      new;
      UpdateCartCount();
    }

    /** getCart: the stored cart, or the empty cart when nothing is stored. */
    method GetCart() returns (cart: Cart)
      ensures CART_KEY !in localStorage ==> cart == []
      ensures CART_KEY in localStorage ==> cart == localStorage[CART_KEY]
      ensures cart == Load(localStorage)
    {
      if CART_KEY in localStorage {
        cart := localStorage[CART_KEY];
      } else {
        cart := [];
      }
    }

    /** saveCart: write the cart under CART_KEY, then refresh the badge. */
    method SaveCart(cart: Cart)
      modifies this
      ensures localStorage == Store(old(localStorage), cart)
      ensures Load(localStorage) == cart
      ensures cartCount == Count(cart)
      ensures Valid()
    {
      localStorage := Store(localStorage, cart);
      UpdateCartCount();
    }

    /** updateCartCount: the badge shows the sum of the stored quantities. */
    method UpdateCartCount()
      modifies this`cartCount
      ensures cartCount == Count(Load(localStorage))
      ensures Valid()
    {
      var cart := GetCart();
      var count := Count(cart);
      cartCount := count;
    }

    /** addToCart: bump the product's line or append a new one, then save. */
    method AddToCart(product: Product)
      modifies this
      ensures localStorage == Store(old(localStorage), Add(old(Load(localStorage)), product))
      ensures Valid()
      ensures WellFormed(old(Load(localStorage))) ==> WellFormed(Load(localStorage))
    {
      var cart := GetCart();
      ghost var before := cart;
      var existing := FindIndex(cart, product.id);
      match existing {
        case Some(i) =>
          cart := cart[i := cart[i].(quantity := cart[i].quantity + 1)];
        case None =>
          cart := cart + [NewLine(product)];
      }
      if WellFormed(before) {
        AddPreserves(before, product);
      }
      SaveCart(cart);
    }

    /** removeFromCart: drop every line with the id, then save. */
    method RemoveFromCart(id: int)
      modifies this
      ensures localStorage == Store(old(localStorage), Remove(old(Load(localStorage)), id))
      ensures Valid()
      ensures WellFormed(old(Load(localStorage))) ==> WellFormed(Load(localStorage))
    {
      var cart := GetCart();
      if WellFormed(cart) {
        RemovePreserves(cart, id);
      }
      cart := Remove(cart, id);
      SaveCart(cart);
    }

    /** changeQuantity: with no line for the id nothing happens and nothing
        is saved; otherwise the first matching line's quantity moves by
        delta and the cart is saved, without that id if the quantity fell
        to zero or below. */
    method ChangeQuantity(id: int, delta: int)
      modifies this
      ensures Change(old(Load(localStorage)), id, delta).None? ==>
        localStorage == old(localStorage) && cartCount == old(cartCount)
      ensures Change(old(Load(localStorage)), id, delta).Some? ==>
        localStorage == Store(old(localStorage), Change(old(Load(localStorage)), id, delta).value) && Valid()
      ensures old(Valid()) ==> Valid()
      ensures WellFormed(old(Load(localStorage))) ==> WellFormed(Load(localStorage))
    {
      var cart := GetCart();
      ghost var before := cart;
      var found := FindIndex(cart, id);
      if found.None? {
        return;
      }
      var i := found.value;
      cart := cart[i := cart[i].(quantity := cart[i].quantity + delta)];
      if WellFormed(before) {
        ChangePreserves(before, id, delta);
      }
      if cart[i].quantity <= 0 {
        var filtered := Remove(cart, id);
        RemoveAfterUpdate(before, id, i, cart[i]);
        SaveCart(filtered);
      } else {
        SaveCart(cart);
      }
    }

    /** The summary part of renderCart: nothing for an empty cart, otherwise
        the order total, accumulated over the lines in cart order. */
    method RenderCart() returns (summary: Option<int>)
      ensures summary.None? <==> Load(localStorage) == []
      ensures summary.Some? ==> summary.value == Total(Load(localStorage))
    {
      var cart := GetCart();
      if |cart| == 0 {
        return None;
      }
      var total := 0;
      for k := 0 to |cart|
        invariant total == Total(cart[..k])
      {
        var lineTotal := LineTotal(cart[k]);
        total := total + lineTotal;
        assert cart[..k + 1][..k] == cart[..k];
      }
      assert cart[..|cart|] == cart;
      return Some(total);
    }
  }
}
