/** The cart ledger of the store's client as pure values: the line items, the
    three transitions the cart helpers perform (add a product, remove an id,
    change a quantity by a delta), and the two sums derived from a cart (the
    badge count and the order total).  Prices are integers in minor currency
    units. */
module CartLedger {
  import opened Wrappers

  /** A product as the product grid hands it to the cart: id, name and price. */
  datatype Product = Product(id: int, name: string, price: int)

  /** One cart line.  Name and price are a snapshot taken when the line was
      first created; later additions only touch the quantity. */
  datatype LineItem = LineItem(id: int, name: string, price: int, quantity: int)

  /** A cart is an ordered list of lines, in first-added order. */
  type Cart = seq<LineItem>

  /** The line that adding a product not yet in the cart appends. */
  function NewLine(p: Product): (line: LineItem) {
    LineItem(p.id, p.name, p.price, 1)
  }

  predicate HasId(cart: Cart, id: int) {
    exists k :: 0 <= k < |cart| && cart[k].id == id
  }

  /** No two lines share a product id. */
  predicate UniqueIds(cart: Cart) {
    forall i, j :: 0 <= i < j < |cart| ==> cart[i].id != cart[j].id
  }

  /** Every line has quantity at least 1. */
  predicate PositiveQuantities(cart: Cart) {
    forall k :: 0 <= k < |cart| ==> cart[k].quantity >= 1
  }

  /** The ledger invariant: ids are unique and quantities are positive. */
  predicate WellFormed(cart: Cart) {
    UniqueIds(cart) && PositiveQuantities(cart)
  }

  // ---------------------------------------------------------------------
  // Lookup: the first line with a given id, as `Array.prototype.find` gives it.

  function FindIndex(cart: Cart, id: int): (r: Option<nat>)
    ensures r.Some? ==> r.value < |cart| && cart[r.value].id == id
    ensures r.Some? ==> forall k :: 0 <= k < r.value ==> cart[k].id != id
    ensures r.None? <==> !HasId(cart, id)
  {
    if cart == [] then None
    else if cart[0].id == id then Some(0)
    else match FindIndex(cart[1..], id)
      case None => None
      case Some(i) => Some(i + 1)
  }

  /** Any first match is the one FindIndex reports. */
  lemma FindIndexIsFirst(cart: Cart, id: int, i: nat)
    requires i < |cart| && cart[i].id == id
    requires forall k :: 0 <= k < i ==> cart[k].id != id
    ensures FindIndex(cart, id) == Some(i)
  {
  }

  // ---------------------------------------------------------------------
  // The three transitions.

  /** addToCart: bump the first line with the product's id by one, or append
      a fresh line with quantity 1. */
  function Add(cart: Cart, p: Product): (r: Cart) {
    match FindIndex(cart, p.id)
    case Some(i) => cart[i := cart[i].(quantity := cart[i].quantity + 1)]
    case None => cart + [NewLine(p)]
  }

  /** removeFromCart: keep exactly the lines whose id differs, in order. */
  function Remove(cart: Cart, id: int): (r: Cart)
    ensures |r| <= |cart|
    ensures forall k :: 0 <= k < |r| ==> r[k].id != id
    ensures forall x :: x in r <==> x in cart && x.id != id
  {
    if cart == [] then []
    else if cart[0].id == id then Remove(cart[1..], id)
    else [cart[0]] + Remove(cart[1..], id)
  }

  /** changeQuantity: None when no line has the id (nothing is saved);
      otherwise the cart to save, where the first matching line either has
      its quantity moved by delta or, when that would leave it at zero or
      below, every line with the id is filtered out. */
  function Change(cart: Cart, id: int, delta: int): (r: Option<Cart>) {
    match FindIndex(cart, id)
    case None => None
    case Some(i) =>
      var q := cart[i].quantity + delta;
      if q <= 0 then Some(Remove(cart, id))
      else Some(cart[i := cart[i].(quantity := q)])
  }

  // ---------------------------------------------------------------------
  // Sums over a cart, accumulated left to right in cart order.

  function Sum(cart: Cart, f: LineItem -> int): (s: int) {
    if cart == [] then 0 else Sum(cart[..|cart| - 1], f) + f(cart[|cart| - 1])
  }

  function Quantity(item: LineItem): (q: int) { item.quantity }

  /** The amount a line contributes to the order total. */
  function LineTotal(item: LineItem): (t: int) { item.price * item.quantity }

  /** The badge count: the sum of the quantities. */
  function Count(cart: Cart): (n: int) { Sum(cart, Quantity) }

  /** The order total: the sum of price times quantity over the lines. */
  function Total(cart: Cart): (t: int) { Sum(cart, LineTotal) }

  // ---------------------------------------------------------------------
  // Lookup and remove facts.

  lemma {:induction false} RemoveAbsent(cart: Cart, id: int)
    requires !HasId(cart, id)
    ensures Remove(cart, id) == cart
  {
    if cart != [] {
      assert cart[0].id != id;
      assert !HasId(cart[1..], id) by {
        forall k | 0 <= k < |cart[1..]| ensures cart[1..][k].id != id {
          assert cart[1..][k] == cart[k + 1];
        }
      }
      RemoveAbsent(cart[1..], id);
      assert cart == [cart[0]] + cart[1..];
    }
  }

  /** Filtering distributes over concatenation. */
  lemma {:induction false} RemoveAppend(a: Cart, b: Cart, id: int)
    ensures Remove(a + b, id) == Remove(a, id) + Remove(b, id)
  {
    if a == [] {
      assert a + b == b;
    } else {
      assert (a + b)[0] == a[0];
      assert (a + b)[1..] == a[1..] + b;
      RemoveAppend(a[1..], b, id);
    }
  }

  /** In a cart with unique ids, removing the id of line i leaves exactly the
      other lines, in their original order. */
  lemma RemoveUnique(cart: Cart, id: int, i: nat)
    requires UniqueIds(cart)
    requires i < |cart| && cart[i].id == id
    ensures Remove(cart, id) == cart[..i] + cart[i + 1..]
  {
    var before, after := cart[..i], cart[i + 1..];
    assert cart == before + ([cart[i]] + after);
    RemoveAppend(before, [cart[i]] + after, id);
    RemoveAppend([cart[i]], after, id);
    assert !HasId(before, id) by {
      forall k | 0 <= k < |before| ensures before[k].id != id {
        assert before[k] == cart[k];
      }
    }
    assert !HasId(after, id) by {
      forall k | 0 <= k < |after| ensures after[k].id != id {
        assert after[k] == cart[i + 1 + k];
      }
    }
    RemoveAbsent(before, id);
    RemoveAbsent(after, id);
    assert Remove([cart[i]], id) == [];
  }

  /** Filtering by id does not look at the quantity of the lines it drops. */
  lemma {:induction false} RemoveAfterUpdate(cart: Cart, id: int, i: nat, x: LineItem)
    requires i < |cart| && cart[i].id == id && x.id == id
    ensures Remove(cart[i := x], id) == Remove(cart, id)
  {
    assert cart[i := x] == cart[..i] + [x] + cart[i + 1..];
    assert cart == cart[..i] + [cart[i]] + cart[i + 1..];
    RemoveAppend(cart[..i] + [x], cart[i + 1..], id);
    RemoveAppend(cart[..i], [x], id);
    RemoveAppend(cart[..i] + [cart[i]], cart[i + 1..], id);
    RemoveAppend(cart[..i], [cart[i]], id);
    assert Remove([x], id) == [] == Remove([cart[i]], id);
  }

  // ---------------------------------------------------------------------
  // The listed promises of each transition.

  /** Adding a product already in the cart bumps its first line by exactly
      one; id, name and price stay the snapshot, and nothing else moves. */
  lemma AddExisting(cart: Cart, p: Product, i: nat)
    requires i < |cart| && cart[i].id == p.id
    requires forall k :: 0 <= k < i ==> cart[k].id != p.id
    ensures |Add(cart, p)| == |cart|
    ensures Add(cart, p)[i] ==
      LineItem(cart[i].id, cart[i].name, cart[i].price, cart[i].quantity + 1)
    ensures forall k :: 0 <= k < |cart| && k != i ==> Add(cart, p)[k] == cart[k]
  {
  }

  /** Adding a product whose id is not in the cart appends one fresh line
      with quantity 1 and keeps the existing lines. */
  lemma AddNew(cart: Cart, p: Product)
    requires forall k :: 0 <= k < |cart| ==> cart[k].id != p.id
    ensures Add(cart, p)[..|cart|] == cart
    ensures |Add(cart, p)| == |cart| + 1
    ensures Add(cart, p)[|cart|] == LineItem(p.id, p.name, p.price, 1)
  {
  }

  /** After a removal no line carries the id; the lines kept are the others,
      and if the id was absent the cart is returned as it was. */
  lemma RemoveSpec(cart: Cart, id: int)
    ensures !HasId(Remove(cart, id), id)
    ensures forall x :: x in Remove(cart, id) <==> x in cart && x.id != id
    ensures !HasId(cart, id) ==> Remove(cart, id) == cart
  {
  }

  /** Changing the quantity of an id that no line carries yields nothing to save. */
  lemma ChangeAbsent(cart: Cart, id: int, delta: int)
    ensures Change(cart, id, delta).None? <==> !HasId(cart, id)
  {
  }

  /** A change that takes the first matching line to zero or below removes
      the id; with unique ids that is exactly that one line. */
  lemma ChangeDrops(cart: Cart, id: int, delta: int, i: nat)
    requires i < |cart| && cart[i].id == id
    requires forall k :: 0 <= k < i ==> cart[k].id != id
    requires cart[i].quantity + delta <= 0
    ensures Change(cart, id, delta) == Some(Remove(cart, id))
    ensures UniqueIds(cart) ==> Change(cart, id, delta) == Some(cart[..i] + cart[i + 1..])
  {
    FindIndexIsFirst(cart, id, i);
    if UniqueIds(cart) {
      RemoveUnique(cart, id, i);
    }
  }

  /** A change that leaves the first matching line positive sets its
      quantity to quantity + delta and leaves every other line alone. */
  lemma ChangeKeeps(cart: Cart, id: int, delta: int, i: nat)
    requires i < |cart| && cart[i].id == id
    requires forall k :: 0 <= k < i ==> cart[k].id != id
    requires cart[i].quantity + delta > 0
    ensures Change(cart, id, delta).Some?
    ensures |Change(cart, id, delta).value| == |cart|
    ensures Change(cart, id, delta).value[i] ==
      LineItem(cart[i].id, cart[i].name, cart[i].price, cart[i].quantity + delta)
    ensures forall k :: 0 <= k < |cart| && k != i ==> Change(cart, id, delta).value[k] == cart[k]
  {
  }

  // ---------------------------------------------------------------------
  // Preservation of the ledger invariant.

  lemma AddPreserves(cart: Cart, p: Product)
    requires WellFormed(cart)
    ensures WellFormed(Add(cart, p))
  {
  }

  /** Prepending a line whose id no later line carries keeps the invariant. */
  lemma WellFormedCons(x: LineItem, rest: Cart)
    requires WellFormed(rest) && x.quantity >= 1
    requires forall y :: y in rest ==> y.id != x.id
    ensures WellFormed([x] + rest)
  {
  }

  /** The tail of a well-formed cart is well formed and avoids the head's id. */
  lemma WellFormedTail(cart: Cart)
    requires WellFormed(cart) && cart != []
    ensures WellFormed(cart[1..])
    ensures forall y :: y in cart[1..] ==> y.id != cart[0].id
  {
  }

  lemma {:induction false} RemovePreserves(cart: Cart, id: int)
    requires WellFormed(cart)
    ensures WellFormed(Remove(cart, id))
  {
    if cart != [] {
      WellFormedTail(cart);
      RemovePreserves(cart[1..], id);
      if cart[0].id != id {
        WellFormedCons(cart[0], Remove(cart[1..], id));
      }
    }
  }

  lemma ChangePreserves(cart: Cart, id: int, delta: int)
    requires WellFormed(cart)
    requires Change(cart, id, delta).Some?
    ensures WellFormed(Change(cart, id, delta).value)
  {
    var i := FindIndex(cart, id).value;
    if cart[i].quantity + delta <= 0 {
      RemovePreserves(cart, id);
    }
  }

  /** A user action on the cart page or the product grid. */
  datatype Action = AddProduct(product: Product) | RemoveId(id: int) | ChangeBy(id: int, delta: int)

  /** The cart that is stored after one action. */
  function Apply(cart: Cart, a: Action): (r: Cart) {
    match a
    case AddProduct(p) => Add(cart, p)
    case RemoveId(id) => Remove(cart, id)
    case ChangeBy(id, delta) =>
      match Change(cart, id, delta)
      case None => cart
      case Some(c) => c
  }

  function Run(cart: Cart, actions: seq<Action>): (r: Cart)
    decreases |actions|
  {
    if actions == [] then cart else Run(Apply(cart, actions[0]), actions[1..])
  }

  lemma ApplyPreserves(cart: Cart, a: Action)
    requires WellFormed(cart)
    ensures WellFormed(Apply(cart, a))
  {
    match a
    case AddProduct(p) => AddPreserves(cart, p);
    case RemoveId(id) => RemovePreserves(cart, id);
    case ChangeBy(id, delta) =>
      if Change(cart, id, delta).Some? {
        ChangePreserves(cart, id, delta);
      }
  }

  /** Any sequence of add, remove and change actions keeps ids unique and
      every quantity at least 1. */
  lemma {:induction false} RunPreserves(cart: Cart, actions: seq<Action>)
    requires WellFormed(cart)
    ensures WellFormed(Run(cart, actions))
    decreases |actions|
  {
    if actions != [] {
      ApplyPreserves(cart, actions[0]);
      RunPreserves(Apply(cart, actions[0]), actions[1..]);
    }
  }

  // ---------------------------------------------------------------------
  // The sums.

  lemma {:induction false} SumAppend(a: Cart, b: Cart, f: LineItem -> int)
    ensures Sum(a + b, f) == Sum(a, f) + Sum(b, f)
    decreases |b|
  {
    if b == [] {
      assert a + b == a;
    } else {
      var b' := b[..|b| - 1];
      assert (a + b)[..|a + b| - 1] == a + b';
      SumAppend(a, b', f);
    }
  }

  /** Replacing one line moves a sum by the difference of its contributions. */
  lemma SumUpdate(cart: Cart, i: nat, x: LineItem, f: LineItem -> int)
    requires i < |cart|
    ensures Sum(cart[i := x], f) == Sum(cart, f) - f(cart[i]) + f(x)
  {
    assert cart[i := x] == cart[..i] + [x] + cart[i + 1..];
    assert cart == cart[..i] + [cart[i]] + cart[i + 1..];
    SumAppend(cart[..i] + [x], cart[i + 1..], f);
    SumAppend(cart[..i], [x], f);
    SumAppend(cart[..i] + [cart[i]], cart[i + 1..], f);
    SumAppend(cart[..i], [cart[i]], f);
    assert Sum([x], f) == f(x) by { assert [x][..0] == []; }
    assert Sum([cart[i]], f) == f(cart[i]) by { assert [cart[i]][..0] == []; }
  }

  /** The count is 0 for the empty cart, and a cart whose quantities are all
      positive counts at least one per line. */
  lemma {:induction false} CountAtLeastLines(cart: Cart)
    requires PositiveQuantities(cart)
    ensures Count(cart) >= |cart|
    ensures cart == [] ==> Count(cart) == 0
    decreases |cart|
  {
    if cart != [] {
      var init := cart[..|cart| - 1];
      assert PositiveQuantities(init) by {
        forall k | 0 <= k < |init| ensures init[k].quantity >= 1 {
          assert init[k] == cart[k];
        }
      }
      CountAtLeastLines(init);
    }
  }

  /** On a well-formed cart the badge shows 0 exactly when the cart is empty. */
  lemma CountZeroIff(cart: Cart)
    requires WellFormed(cart)
    ensures Count(cart) == 0 <==> cart == []
  {
    CountAtLeastLines(cart);
  }

  /** Every add raises the count by exactly one; the total rises by the price
      of the line it touches, which for an existing line is its snapshot
      price, not the product's current one. */
  lemma AddSums(cart: Cart, p: Product)
    ensures Count(Add(cart, p)) == Count(cart) + 1
    ensures Total(Add(cart, p)) == Total(cart) +
      (match FindIndex(cart, p.id) case Some(i) => cart[i].price case None => p.price)
  {
    match FindIndex(cart, p.id)
    case Some(i) =>
      var x := cart[i].(quantity := cart[i].quantity + 1);
      SumUpdate(cart, i, x, Quantity);
      SumUpdate(cart, i, x, LineTotal);
      assert LineTotal(x) == LineTotal(cart[i]) + cart[i].price;
    case None =>
      var line := NewLine(p);
      SumAppend(cart, [line], Quantity);
      SumAppend(cart, [line], LineTotal);
      assert [line][..0] == [];
  }

  /** Removing the id of a line of a cart with unique ids lowers the count by
      that line's quantity and the total by its line total. */
  lemma RemoveSums(cart: Cart, id: int, i: nat)
    requires UniqueIds(cart)
    requires i < |cart| && cart[i].id == id
    ensures Count(Remove(cart, id)) == Count(cart) - cart[i].quantity
    ensures Total(Remove(cart, id)) == Total(cart) - LineTotal(cart[i])
  {
    RemoveUnique(cart, id, i);
    assert cart == cart[..i] + [cart[i]] + cart[i + 1..];
    SumAppend(cart[..i] + [cart[i]], cart[i + 1..], Quantity);
    SumAppend(cart[..i], [cart[i]], Quantity);
    SumAppend(cart[..i], cart[i + 1..], Quantity);
    SumAppend(cart[..i] + [cart[i]], cart[i + 1..], LineTotal);
    SumAppend(cart[..i], [cart[i]], LineTotal);
    SumAppend(cart[..i], cart[i + 1..], LineTotal);
    assert [cart[i]][..0] == [];
  }

  /** A change that keeps the line moves the count by exactly delta. */
  lemma ChangeCount(cart: Cart, id: int, delta: int)
    requires Change(cart, id, delta).Some?
    requires cart[FindIndex(cart, id).value].quantity + delta > 0
    ensures Count(Change(cart, id, delta).value) == Count(cart) + delta
  {
    var i := FindIndex(cart, id).value;
    SumUpdate(cart, i, cart[i].(quantity := cart[i].quantity + delta), Quantity);
  }

  // ---------------------------------------------------------------------
  // Two worked scenarios.

  /** Adding the same product twice to an empty cart gives one line of quantity 2. */
  lemma ScenarioAddTwice()
    ensures Add(Add([], Product(1, "A", 10)), Product(1, "A", 10)) == [LineItem(1, "A", 10, 2)]
    ensures Count([LineItem(1, "A", 10, 2)]) == 2
  {
  }

  /** Decrementing a line of quantity 1 empties the cart. */
  lemma ScenarioDecrementLast()
    ensures Change([LineItem(1, "A", 10, 1)], 1, -1) == Some([])
  {
  }
}
