/**
 * The product page's local state beyond the cart: the quantity stepper next
 * to the add button, and the favorites toggle that rewrites the `favorites`
 * storage key.
 */
module ProductPage {
  import opened Wrappers
  import opened Seqs
  import opened Products

  /** The minus button: `Math.max(1, quantity - 1)`. */
  function StepDown(quantity: int): (r: int)
    ensures r >= 1
    ensures quantity > 1 ==> r == quantity - 1
    ensures quantity <= 1 ==> r == 1
  {
    if quantity - 1 > 1 then quantity - 1 else 1
  }

  /** The plus button: `Math.min(stockCount, quantity + 1)`. */
  function StepUp(quantity: int, stockCount: int): (r: int)
    ensures r <= stockCount
    ensures quantity < stockCount ==> r == quantity + 1
    ensures quantity >= stockCount ==> r == stockCount
  {
    if quantity + 1 < stockCount then quantity + 1 else stockCount
  }

  /** Both buttons keep a quantity within `[1, stockCount]` once it is there. */
  lemma StepperStaysInRange(quantity: int, stockCount: int)
    requires 1 <= quantity <= stockCount
    ensures 1 <= StepDown(quantity) <= stockCount
    ensures 1 <= StepUp(quantity, stockCount) <= stockCount
  {
  }

  /** Plus then minus returns to where it started, below the stock ceiling. */
  lemma StepUpThenDown(quantity: int, stockCount: int)
    requires 1 <= quantity < stockCount
    ensures StepDown(StepUp(quantity, stockCount)) == quantity
  {
  }

  /** The `quantity` state of the product page; it starts at 1. */
  class QuantityStepper {
    var quantity: int

    constructor ()
      ensures quantity == 1
    {
      quantity := 1;
    }

    method Decrement()
      modifies this
      ensures quantity == StepDown(old(quantity))
      ensures old(quantity) >= 1 ==> 1 <= quantity <= old(quantity)
    {
      quantity := StepDown(quantity);
    }

    method Increment(stockCount: int)
      modifies this
      ensures quantity == StepUp(old(quantity), stockCount)
      ensures 1 <= old(quantity) <= stockCount ==> 1 <= quantity <= stockCount
    {
      quantity := StepUp(quantity, stockCount);
    }
  }

  predicate HasProduct(favorites: seq<Product>, id: int) {
    exists i :: 0 <= i < |favorites| && favorites[i].id == id
  }

  /** The filter's test: `item => item.id !== id`. */
  function OtherId(id: int): Product -> bool {
    (x: Product) => x.id != id
  }

  /** `favorites.filter(item => item.id !== id)`: every entry with the id goes, the rest stay in order. */
  function WithoutId(favorites: seq<Product>, id: int): (r: seq<Product>)
    ensures |r| <= |favorites|
    ensures !HasProduct(r, id)
    ensures forall x :: x in r <==> x in favorites && x.id != id
    ensures !HasProduct(favorites, id) ==> r == favorites
  {
    var r := Filter(favorites, OtherId(id));
    assert forall i :: 0 <= i < |r| ==> r[i] in r && r[i].id != id;
    if !HasProduct(favorites, id) then
      FilterKeepsAll(favorites, OtherId(id));
      r
    else r
  }

  /** Removing an id distributes over concatenation: the relative order of the kept entries is unchanged. */
  lemma WithoutIdKeepsOrder(a: seq<Product>, b: seq<Product>, id: int)
    ensures WithoutId(a + b, id) == WithoutId(a, id) + WithoutId(b, id)
  {
    FilterAppend(a, b, OtherId(id));
  }

  /**
   * The favorites toggle on the list read from storage: a product already
   * there (by id) is removed with every entry sharing its id; otherwise the
   * product is pushed onto the end.
   */
  function ToggleFavorite(favorites: seq<Product>, p: Product): (r: seq<Product>)
    ensures HasProduct(r, p.id) <==> !HasProduct(favorites, p.id)
    ensures forall x :: x in favorites && x.id != p.id ==> x in r
    ensures forall x :: x in r && x.id != p.id ==> x in favorites
    ensures HasProduct(favorites, p.id) ==> r == WithoutId(favorites, p.id)
    ensures !HasProduct(favorites, p.id) ==> r == favorites + [p]
  {
    if HasProduct(favorites, p.id) then WithoutId(favorites, p.id)
    else
      var r := favorites + [p];
      assert r[|favorites|] == p;
      r
  }

  /** Toggling a product on and then off restores the list it started from. */
  lemma ToggleTwiceRestores(favorites: seq<Product>, p: Product)
    requires !HasProduct(favorites, p.id)
    ensures ToggleFavorite(ToggleFavorite(favorites, p), p) == favorites
  {
    var added := favorites + [p];
    assert added[|favorites|] == p;
    WithoutIdKeepsOrder(favorites, [p], p.id);
    assert WithoutId([p], p.id) == [] by {
      assert Filter([p], OtherId(p.id)) == Filter([p][1..], OtherId(p.id));
      assert [p][1..] == [];
    }
  }

  /** The `favorites` storage key (`None` when absent) as the toggle reads and rewrites it. */
  class FavoritesStore {
    var stored: Option<seq<Product>>

    constructor (storage: Option<seq<Product>>)
      ensures stored == storage
    {
      stored := storage;
    }

    /** The heart button: read (`|| '[]'`), toggle, write back; reports whether the product was added. */
    method Toggle(p: Product) returns (added: bool)
      modifies this
      ensures added == !HasProduct(old(stored).GetOr([]), p.id)
      ensures stored == Some(ToggleFavorite(old(stored).GetOr([]), p))
    {
      var favorites := stored.GetOr([]);
      var isFavorite := HasProduct(favorites, p.id);
      if isFavorite {
        var newFavorites := WithoutId(favorites, p.id);
        stored := Some(newFavorites);
      } else {
        favorites := favorites + [p];
        stored := Some(favorites);
      }
      added := !isFavorite;
    }
  }
}
