/**
 * The shopping cart shared by the home page and the product page: an ordered
 * list of lines, at most one per product id, each line freezing the effective
 * price seen when the product was first added, persisted under the `cart`
 * storage key after every successful change.
 */
module Cart {
  import opened Wrappers
  import opened Products
  import opened Catalog

  /** A cart line: a snapshot of the product, its frozen effective price, its original price, the quantity. */
  datatype CartItem = CartItem(snapshot: Product, price: int, originalPrice: int, quantity: int) {
    function Id(): int { snapshot.id }
  }

  /** What the add action reports: success, or the error notification it shows instead. */
  datatype AddOutcome = Added | OutOfStock | ExceedsStock(available: int)

  datatype AddResult = AddResult(outcome: AddOutcome, cart: seq<CartItem>)

  predicate HasId(cart: seq<CartItem>, id: int) {
    exists i :: 0 <= i < |cart| && cart[i].Id() == id
  }

  /** The cart's key invariant: no two lines share a product id. */
  predicate UniqueIds(cart: seq<CartItem>) {
    forall i, j :: 0 <= i < j < |cart| ==> cart[i].Id() != cart[j].Id()
  }

  /** Every line for `id` stays within `stock`. */
  predicate QuantityWithin(cart: seq<CartItem>, id: int, stock: int) {
    forall i :: 0 <= i < |cart| && cart[i].Id() == id ==> cart[i].quantity <= stock
  }

  /** `cart.find(item => item.id === id)`, as the position of the first such line. */
  function FindIndex(cart: seq<CartItem>, id: int): (r: Option<nat>)
    ensures r.None? <==> !HasId(cart, id)
    ensures r.Some? ==> r.value < |cart| && cart[r.value].Id() == id
    ensures r.Some? ==> forall j :: 0 <= j < r.value ==> cart[j].Id() != id
    decreases |cart|
  {
    if |cart| == 0 then None
    else if cart[0].Id() == id then Some(0)
    else
      var rest := FindIndex(cart[1..], id);
      assert forall j :: 1 <= j < |cart| ==> cart[j] == cart[1..][j - 1];
      match rest
      case None => None
      case Some(k) => Some(k + 1)
  }

  /** `cart.map(item => item.id === id ? { ...item, quantity: q } : item)`. */
  function SetQuantity(cart: seq<CartItem>, id: int, q: int): (r: seq<CartItem>)
    ensures |r| == |cart|
  {
    seq(|cart|, i requires 0 <= i < |cart| => if cart[i].Id() == id then cart[i].(quantity := q) else cart[i])
  }

  /**
   * Re-quantifying touches only the lines for `id`: each gets the new quantity
   * and keeps everything else; every other line, the length and the order stay.
   */
  lemma SetQuantityChangesOnlyId(cart: seq<CartItem>, id: int, q: int, r: seq<CartItem>)
    requires r == SetQuantity(cart, id, q)
    ensures |r| == |cart|
    ensures forall i :: 0 <= i < |cart| ==> r[i].Id() == cart[i].Id()
    ensures forall i :: 0 <= i < |cart| && cart[i].Id() != id ==> r[i] == cart[i]
    ensures forall i :: 0 <= i < |cart| && cart[i].Id() == id ==> r[i].quantity == q
    ensures forall i :: 0 <= i < |cart| && cart[i].Id() == id ==>
      r[i].snapshot == cart[i].snapshot && r[i].price == cart[i].price && r[i].originalPrice == cart[i].originalPrice
  {
  }

  /** The line appended for a product not yet in the cart: `{ ...product, price: finalPrice, original_price: priceNum, quantity }`. */
  function NewLine(p: Product, quantity: int): (item: CartItem)
    ensures item.Id() == p.id && item.quantity == quantity
    ensures item.price == FinalPrice(p) && item.originalPrice == PriceNum(p)
  {
    CartItem(p, FinalPrice(p), PriceNum(p), quantity)
  }

  /** `getCartItemCount`: the sum of the line quantities, folded from the left. */
  function ItemCount(cart: seq<CartItem>): int
    decreases |cart|
  {
    if |cart| == 0 then 0 else ItemCount(cart[..|cart| - 1]) + cart[|cart| - 1].quantity
  }

  /** Every line holds at least one unit, so the badge never shows fewer items than lines. */
  lemma {:induction false} ItemCountAtLeastLines(cart: seq<CartItem>)
    requires forall i :: 0 <= i < |cart| ==> cart[i].quantity >= 1
    ensures ItemCount(cart) >= |cart|
    decreases |cart|
  {
    if |cart| > 0 {
      var front := cart[..|cart| - 1];
      assert forall i :: 0 <= i < |front| ==> front[i] == cart[i];
      ItemCountAtLeastLines(front);
    }
  }

  /**
   * The home page's add action, one unit at a time, against the normalised
   * `stock`: out of stock is refused; a repeated id raises that line by one
   * unless it would pass the stock; a new id is appended with quantity 1.
   */
  function HomeAdd(cart: seq<CartItem>, l: Listing): (r: AddResult)
    ensures r.outcome == OutOfStock <==> l.stock <= 0
    ensures r.outcome.ExceedsStock? ==> r.outcome.available == l.stock && HasId(cart, l.product.id)
    ensures !r.outcome.Added? ==> r.cart == cart
    ensures r.outcome.Added? <==> (0 < l.stock &&
      (FindIndex(cart, l.product.id).Some? ==> cart[FindIndex(cart, l.product.id).value].quantity + 1 <= l.stock))
  {
    if l.stock <= 0 then AddResult(OutOfStock, cart)
    else match FindIndex(cart, l.product.id)
      case Some(k) =>
        var newQuantity := cart[k].quantity + 1;
        if newQuantity > l.stock then AddResult(ExceedsStock(l.stock), cart)
        else AddResult(Added, SetQuantity(cart, l.product.id, newQuantity))
      case None => AddResult(Added, cart + [NewLine(l.product, 1)])
  }

  /**
   * The product page's add action with the chosen quantity, against
   * `stockCount`: out of stock is refused; a repeated id is raised by
   * `quantity` unless the sum passes the stock; a new id is appended unless
   * `quantity` alone passes the stock.
   */
  function DetailAdd(cart: seq<CartItem>, p: Product, quantity: int): (r: AddResult)
    ensures r.outcome == OutOfStock <==> StockCount(p) <= 0
    ensures r.outcome.ExceedsStock? ==> r.outcome.available == StockCount(p)
    ensures !r.outcome.Added? ==> r.cart == cart
    ensures r.outcome.Added? <==> (0 < StockCount(p) &&
      (if FindIndex(cart, p.id).Some? then cart[FindIndex(cart, p.id).value].quantity + quantity
       else quantity) <= StockCount(p))
  {
    var stockCount := StockCount(p);
    if stockCount <= 0 then AddResult(OutOfStock, cart)
    else match FindIndex(cart, p.id)
      case Some(k) =>
        var newQuantity := cart[k].quantity + quantity;
        if newQuantity > stockCount then AddResult(ExceedsStock(stockCount), cart)
        else AddResult(Added, SetQuantity(cart, p.id, newQuantity))
      case None =>
        if quantity > stockCount then AddResult(ExceedsStock(stockCount), cart)
        else AddResult(Added, cart + [NewLine(p, quantity)])
  }

  /** Re-quantifying keeps every id where it was, so distinct ids stay distinct. */
  lemma {:induction false} SetQuantityKeepsIds(cart: seq<CartItem>, id: int, q: int, r: seq<CartItem>)
    requires r == SetQuantity(cart, id, q)
    ensures UniqueIds(cart) ==> UniqueIds(r)
    ensures HasId(cart, id) ==> HasId(r, id) && QuantityWithin(r, id, q)
  {
    SetQuantityChangesOnlyId(cart, id, q, r);
    if UniqueIds(cart) {
      forall i, j | 0 <= i < j < |r| ensures r[i].Id() != r[j].Id() {
        assert r[i].Id() == cart[i].Id() && r[j].Id() == cart[j].Id();
      }
    }
  }

  /** Appending a line for an id not yet present keeps ids distinct, and that line is the only one for its id. */
  lemma {:induction false} AppendNewKeepsIds(cart: seq<CartItem>, item: CartItem)
    requires !HasId(cart, item.Id())
    ensures UniqueIds(cart) ==> UniqueIds(cart + [item])
    ensures HasId(cart + [item], item.Id())
    ensures QuantityWithin(cart + [item], item.Id(), item.quantity)
  {
    var r := cart + [item];
    assert r[|cart|] == item;
    forall i | 0 <= i < |cart| ensures r[i] == cart[i] && r[i].Id() != item.Id() {
    }
  }

  /**
   * Every successful home-page add leaves the lines for the product within
   * its stock, and keeps product ids unique in the cart.
   */
  lemma {:induction false} HomeAddKeepsInvariants(cart: seq<CartItem>, l: Listing)
    ensures var r := HomeAdd(cart, l);
      && (r.outcome.Added? ==> HasId(r.cart, l.product.id) && QuantityWithin(r.cart, l.product.id, l.stock))
      && (UniqueIds(cart) ==> UniqueIds(r.cart))
  {
    var r := HomeAdd(cart, l);
    if r.outcome.Added? {
      var found := FindIndex(cart, l.product.id);
      if found.Some? {
        var k := found.value;
        assert l.stock > 0 && cart[k].quantity + 1 <= l.stock;
        HomeAddMergeShape(cart, l, k);
        assert HasId(cart, l.product.id) by { assert cart[k].Id() == l.product.id; }
        SetQuantityKeepsIds(cart, l.product.id, cart[k].quantity + 1, r.cart);
      } else {
        AppendNewKeepsIds(cart, NewLine(l.product, 1));
      }
    }
  }

  /**
   * Every successful product-page add leaves the lines for the product within
   * `stockCount`, and keeps product ids unique in the cart.
   */
  lemma {:induction false} DetailAddKeepsInvariants(cart: seq<CartItem>, p: Product, quantity: int)
    ensures var r := DetailAdd(cart, p, quantity);
      && (r.outcome.Added? ==> HasId(r.cart, p.id) && QuantityWithin(r.cart, p.id, StockCount(p)))
      && (UniqueIds(cart) ==> UniqueIds(r.cart))
  {
    var r := DetailAdd(cart, p, quantity);
    if r.outcome.Added? {
      var found := FindIndex(cart, p.id);
      if found.Some? {
        var k := found.value;
        assert StockCount(p) > 0 && cart[k].quantity + quantity <= StockCount(p);
        DetailAddMergeShape(cart, p, quantity, k);
        assert HasId(cart, p.id) by { assert cart[k].Id() == p.id; }
        SetQuantityKeepsIds(cart, p.id, cart[k].quantity + quantity, r.cart);
      } else {
        AppendNewKeepsIds(cart, NewLine(p, quantity));
      }
    }
  }

  /** Appending a line adds its quantity to the count. */
  lemma {:induction false} ItemCountAppend(cart: seq<CartItem>, item: CartItem)
    ensures ItemCount(cart + [item]) == ItemCount(cart) + item.quantity
  {
    assert (cart + [item])[..|cart|] == cart;
  }

  /** Re-quantifying commutes with dropping the last line. */
  lemma {:induction false} SetQuantityFront(cart: seq<CartItem>, id: int, q: int)
    requires |cart| > 0
    ensures SetQuantity(cart, id, q)[..|cart| - 1] == SetQuantity(cart[..|cart| - 1], id, q)
  {
    var a := SetQuantity(cart, id, q)[..|cart| - 1];
    var b := SetQuantity(cart[..|cart| - 1], id, q);
    forall i | 0 <= i < |cart| - 1 ensures a[i] == b[i] {
      assert cart[..|cart| - 1][i] == cart[i];
    }
  }

  /** Re-quantifying an id the cart does not hold changes nothing. */
  lemma {:induction false} SetQuantityAbsent(cart: seq<CartItem>, id: int, q: int)
    requires !HasId(cart, id)
    ensures SetQuantity(cart, id, q) == cart
  {
  }

  /** Re-quantifying the one line for `id` changes the count by the difference. */
  lemma {:induction false} ItemCountSetQuantity(cart: seq<CartItem>, id: int, k: nat, q: int)
    requires UniqueIds(cart) && k < |cart| && cart[k].Id() == id
    ensures ItemCount(SetQuantity(cart, id, q)) == ItemCount(cart) - cart[k].quantity + q
    decreases |cart|
  {
    var n := |cart|;
    var front := cart[..n - 1];
    var r := SetQuantity(cart, id, q);
    SetQuantityFront(cart, id, q);
    assert ItemCount(r) == ItemCount(SetQuantity(front, id, q)) + r[n - 1].quantity;
    assert ItemCount(cart) == ItemCount(front) + cart[n - 1].quantity;
    if k == n - 1 {
      assert !HasId(front, id) by {
        forall i | 0 <= i < |front| ensures front[i].Id() != id {
          assert front[i] == cart[i];
        }
      }
      SetQuantityAbsent(front, id, q);
    } else {
      assert front[k] == cart[k];
      assert UniqueIds(front) by {
        forall i, j | 0 <= i < j < |front| ensures front[i].Id() != front[j].Id() {
          assert front[i] == cart[i] && front[j] == cart[j];
        }
      }
      ItemCountSetQuantity(front, id, k, q);
      assert cart[n - 1].Id() != id;
    }
  }

  /**
   * A repeated home-page add touches exactly the line already holding the
   * product: its quantity rises by one, its frozen prices stay, every other
   * line and the order are unchanged, and the item count rises by one.
   */
  lemma {:induction false} HomeAddMerges(cart: seq<CartItem>, l: Listing, k: nat)
    requires UniqueIds(cart) && k < |cart| && cart[k].Id() == l.product.id
    requires 0 < l.stock && cart[k].quantity + 1 <= l.stock
    ensures HomeAdd(cart, l).outcome == Added
    ensures var c := HomeAdd(cart, l).cart;
      && |c| == |cart|
      && c[k] == cart[k].(quantity := cart[k].quantity + 1)
      && (forall i :: 0 <= i < |cart| && i != k ==> c[i] == cart[i])
      && ItemCount(c) == ItemCount(cart) + 1
  {
    var id := l.product.id;
    var q := cart[k].quantity + 1;
    var found := FindIndex(cart, id);
    assert found == Some(k) by {
      assert HasId(cart, id);
      var j := found.value;
      assert cart[j].Id() == id;
      assert !(j < k) && !(k < j);
    }
    var merged := SetQuantity(cart, id, q);
    assert HomeAdd(cart, l) == AddResult(Added, merged);
    forall i | 0 <= i < |cart| && i != k ensures merged[i] == cart[i] {
      assert cart[i].Id() != id by { assert i < k || k < i; }
    }
    ItemCountSetQuantity(cart, id, k, q);
  }

  /**
   * A home-page add of a product not yet in the cart appends one line with
   * quantity 1 priced at the effective price; the item count rises by one.
   */
  lemma {:induction false} HomeAddAppends(cart: seq<CartItem>, l: Listing)
    requires !HasId(cart, l.product.id) && l.stock > 0
    ensures HomeAdd(cart, l) == AddResult(Added, cart + [NewLine(l.product, 1)])
    ensures |HomeAdd(cart, l).cart| == |cart| + 1
    ensures ItemCount(HomeAdd(cart, l).cart) == ItemCount(cart) + 1
  {
    ItemCountAppend(cart, NewLine(l.product, 1));
  }

  /**
   * A product-page add of a product not yet in the cart, within stock,
   * appends one line with the chosen quantity priced at the effective price.
   */
  lemma {:induction false} DetailAddAppends(cart: seq<CartItem>, p: Product, quantity: int)
    requires !HasId(cart, p.id) && 0 < StockCount(p) && quantity <= StockCount(p)
    ensures DetailAdd(cart, p, quantity) == AddResult(Added, cart + [NewLine(p, quantity)])
    ensures ItemCount(DetailAdd(cart, p, quantity).cart) == ItemCount(cart) + quantity
  {
    ItemCountAppend(cart, NewLine(p, quantity));
  }

  /** A successful product-page add raises the item count by exactly the chosen quantity. */
  lemma {:induction false} DetailAddCount(cart: seq<CartItem>, p: Product, quantity: int)
    requires UniqueIds(cart) && DetailAdd(cart, p, quantity).outcome == Added
    ensures ItemCount(DetailAdd(cart, p, quantity).cart) == ItemCount(cart) + quantity
  {
    var r := DetailAdd(cart, p, quantity).cart;
    var found := FindIndex(cart, p.id);
    if found.Some? {
      var k := found.value;
      var q := cart[k].quantity + quantity;
      assert StockCount(p) > 0 && q <= StockCount(p);
      DetailAddMergeShape(cart, p, quantity, k);
      ItemCountRequantified(cart, p.id, k, q, r);
    } else {
      var line := NewLine(p, quantity);
      assert r == cart + [line];
      ItemCountAppend(cart, line);
    }
  }

  /**
   * `ItemCountSetQuantity`, stated about a cart `r` already known to be the
   * re-quantified one. Callers that hold the add's result under another name
   * then reach the count without an equality between two sequence terms,
   * which keeps their proofs small.
   */
  lemma {:induction false} ItemCountRequantified(cart: seq<CartItem>, id: int, k: nat, q: int, r: seq<CartItem>)
    requires UniqueIds(cart) && k < |cart| && cart[k].Id() == id && r == SetQuantity(cart, id, q)
    ensures ItemCount(r) == ItemCount(cart) - cart[k].quantity + q
  {
    ItemCountSetQuantity(cart, id, k, q);
  }

  /** The merge branch of the home-page add, unfolded. */
  lemma {:induction false} HomeAddMergeShape(cart: seq<CartItem>, l: Listing, k: nat)
    requires FindIndex(cart, l.product.id) == Some(k) && l.stock > 0 && k < |cart|
    requires cart[k].quantity + 1 <= l.stock
    ensures cart[k].Id() == l.product.id
    ensures HomeAdd(cart, l) == AddResult(Added, SetQuantity(cart, l.product.id, cart[k].quantity + 1))
  {
  }

  /** The merge branch of the product-page add, unfolded. */
  lemma {:induction false} DetailAddMergeShape(cart: seq<CartItem>, p: Product, quantity: int, k: nat)
    requires FindIndex(cart, p.id) == Some(k) && StockCount(p) > 0 && k < |cart|
    requires cart[k].quantity + quantity <= StockCount(p)
    ensures cart[k].Id() == p.id
    ensures DetailAdd(cart, p, quantity) == AddResult(Added, SetQuantity(cart, p.id, cart[k].quantity + quantity))
  {
  }

  /**
   * The home page's add is the product page's add with quantity 1: for a new
   * id the missing `quantity > stock` check cannot fire, since stock is positive.
   */
  lemma {:induction false} HomeAddIsDetailAddOfOne(cart: seq<CartItem>, l: Listing)
    requires l.stock == StockCount(l.product)
    ensures HomeAdd(cart, l) == DetailAdd(cart, l.product, 1)
  {
  }

  /**
   * Two product-page adds of the same id, 2 then 3 units with stock at least 5,
   * give one line of 5 that keeps the price captured by the first add even
   * when the catalog price has changed in between.
   */
  lemma {:induction false} MergeKeepsFirstPrice(first: Product, second: Product)
    requires first.id == second.id
    requires StockCount(first) >= 5 && StockCount(second) >= 5
    ensures var c1 := DetailAdd([], first, 2);
      var c2 := DetailAdd(c1.cart, second, 3);
      && c1.outcome == Added && c2.outcome == Added
      && c2.cart == [CartItem(first, FinalPrice(first), PriceNum(first), 5)]
  {
    var c1 := DetailAdd([], first, 2);
    assert c1.cart == [NewLine(first, 2)];
    assert FindIndex(c1.cart, second.id) == Some(0);
  }

  /** With stock 3, adding 2 then 2 refuses the second add with the stock count; the line stays at 2. */
  lemma {:induction false} StockCeiling(p: Product)
    requires p.stockQuantity == Some(3)
    ensures var c1 := DetailAdd([], p, 2);
      var c2 := DetailAdd(c1.cart, p, 2);
      && c1.outcome == Added && c2.outcome == ExceedsStock(3)
      && c2.cart == c1.cart && c2.cart[0].quantity == 2
  {
    var c1 := DetailAdd([], p, 2);
    assert c1.cart == [NewLine(p, 2)];
    assert FindIndex(c1.cart, p.id) == Some(0);
  }

  /** A product with `stock_quantity` 0 is refused by either page and the cart is left as it was. */
  lemma {:induction false} OutOfStockRefused(cart: seq<CartItem>, p: Product, quantity: int)
    requires p.stockQuantity == Some(0)
    ensures DetailAdd(cart, p, quantity) == AddResult(OutOfStock, cart)
    ensures HomeAdd(cart, Normalize(p)) == AddResult(OutOfStock, cart)
  {
  }

  /**
   * The cart state of one page, with `stored` standing for the `cart` key in
   * local storage (`None` when the key is absent).
   */
  class CartStore {
    var cart: seq<CartItem>
    var stored: Option<seq<CartItem>>

    /** A page mounts with an empty cart over whatever storage already holds. */
    constructor (storage: Option<seq<CartItem>>)
      ensures cart == [] && stored == storage
    {
      cart := [];
      stored := storage;
    }

    /** `loadCart`: adopt the stored cart when there is one; storage is only read. */
    method LoadCart()
      modifies this
      ensures stored == old(stored)
      ensures cart == if stored.Some? then stored.value else old(cart)
    {
      if stored.Some? {
        cart := stored.value;
      }
    }

    /** `handleCartChange`: replace the cart and write it to storage. */
    method HandleCartChange(newCart: seq<CartItem>)
      modifies this
      ensures cart == newCart && stored == Some(newCart)
    {
      cart := newCart;
      stored := Some(newCart);
    }

    /** The home page's `addToCart`. */
    method AddFromHome(l: Listing) returns (outcome: AddOutcome)
      modifies this
      ensures outcome == HomeAdd(old(cart), l).outcome && cart == HomeAdd(old(cart), l).cart
      ensures outcome.Added? ==> stored == Some(cart)
      ensures !outcome.Added? ==> cart == old(cart) && stored == old(stored)
      ensures UniqueIds(old(cart)) ==> UniqueIds(cart)
      ensures outcome.Added? ==> QuantityWithin(cart, l.product.id, l.stock)
    {
      HomeAddKeepsInvariants(cart, l);
      if l.stock <= 0 {
        return OutOfStock;
      }
      var existing := FindIndex(cart, l.product.id);
      var newCart;
      if existing.Some? {
        var newQuantity := cart[existing.value].quantity + 1;
        if newQuantity > l.stock {
          return ExceedsStock(l.stock);
        }
        newCart := SetQuantity(cart, l.product.id, newQuantity);
      } else {
        newCart := cart + [NewLine(l.product, 1)];
      }
      HandleCartChange(newCart);
      outcome := Added;
    }

    /** The product page's `addToCart` with the stepper's `quantity`. */
    method AddFromDetail(p: Product, quantity: int) returns (outcome: AddOutcome)
      modifies this
      ensures outcome == DetailAdd(old(cart), p, quantity).outcome && cart == DetailAdd(old(cart), p, quantity).cart
      ensures outcome.Added? ==> stored == Some(cart)
      ensures !outcome.Added? ==> cart == old(cart) && stored == old(stored)
      ensures UniqueIds(old(cart)) ==> UniqueIds(cart)
      ensures outcome.Added? ==> QuantityWithin(cart, p.id, StockCount(p))
    {
      DetailAddKeepsInvariants(cart, p, quantity);
      var stockCount := StockCount(p);
      if stockCount <= 0 {
        return OutOfStock;
      }
      var existing := FindIndex(cart, p.id);
      var newCart;
      if existing.Some? {
        var newQuantity := cart[existing.value].quantity + quantity;
        if newQuantity > stockCount {
          return ExceedsStock(stockCount);
        }
        newCart := SetQuantity(cart, p.id, newQuantity);
      } else {
        if quantity > stockCount {
          return ExceedsStock(stockCount);
        }
        newCart := cart + [NewLine(p, quantity)];
      }
      cart := newCart;
      stored := Some(newCart);
      outcome := Added;
    }

    /** The product page's `handleCheckoutComplete`: empty the cart and remove the stored record. */
    method CheckoutCompleteDetail()
      modifies this
      ensures cart == [] && stored == None
    {
      cart := [];
      stored := None;
    }

    /** The home page's `handleCheckoutComplete`: empty the in-memory cart; storage is left as it is. */
    method CheckoutCompleteHome()
      modifies this
      ensures cart == [] && stored == old(stored)
    {
      cart := [];
    }
  }

  /** A page session starting over `storage`: mount, then `loadCart`. */
  method StartSession(storage: Option<seq<CartItem>>) returns (cart: seq<CartItem>)
    ensures storage.Some? ==> cart == storage.value
    ensures storage.None? ==> cart == []
  {
    var store := new CartStore(storage);
    store.LoadCart();
    cart := store.cart;
  }

  /**
   * What one session persists the next reads back: after a successful add,
   * a new session sees exactly the cart; after checkout on the product page,
   * it sees an empty cart.
   */
  method PersistenceRoundTrip(storage: Option<seq<CartItem>>, p: Product, quantity: int)
    returns (outcome: AddOutcome, added: seq<CartItem>, afterAdd: seq<CartItem>, afterCheckout: seq<CartItem>)
    ensures var loaded := if storage.Some? then storage.value else [];
      outcome == DetailAdd(loaded, p, quantity).outcome && added == DetailAdd(loaded, p, quantity).cart
    ensures outcome.Added? ==> afterAdd == added
    ensures !outcome.Added? ==> afterAdd == added && (storage.Some? ==> afterAdd == storage.value)
    ensures afterCheckout == []
  {
    var store := new CartStore(storage);
    store.LoadCart();
    outcome := store.AddFromDetail(p, quantity);
    added := store.cart;
    afterAdd := StartSession(store.stored);
    store.CheckoutCompleteDetail();
    afterCheckout := StartSession(store.stored);
  }
}
