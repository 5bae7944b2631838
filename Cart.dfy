/** The client-side shopping cart: an ordered list of line items kept under a
    single browser storage key. Every mutation reads the whole list, changes
    it, and writes the whole list back; every query re-reads the list.

    Prices are taken as integer cents and quantities as whole numbers; the
    floating-point rounding of the browser's numbers is not modelled. */
module Cart {
  import opened Common

  /** One row of the cart. */
  datatype CartItem = CartItem(
    productId: int,
    productName: string,
    productImage: Option<string>,
    price: int,
    quantity: int,
    stock: int,
    merchantId: Option<int>,
    merchantName: Option<string>,
    notes: Option<string>)

  /** The argument of `addToCart`: a cart row whose quantity may be left out. */
  datatype ItemToAdd = ItemToAdd(
    productId: int,
    productName: string,
    productImage: Option<string>,
    price: int,
    stock: int,
    merchantId: Option<int>,
    merchantName: Option<string>,
    notes: Option<string>,
    quantity: Option<int>)

  /** What the storage key holds: nothing, text that does not parse as a
      cart, or a parsed list of rows. */
  datatype Slot = Absent | Corrupt | Stored(items: seq<CartItem>)

  // ---------------------------------------------------------------------
  // Pure view of the cart operations, on the list of rows
  // ---------------------------------------------------------------------

  /** JavaScript's `q || 1`: a missing quantity and 0 are falsy and become 1;
      every other number, a negative one included, is kept. */
  function Requested(q: Option<int>): int
  {
    if q.None? || q.value == 0 then 1 else q.value
  }

  /** The row `addToCart` appends for a product not yet in the cart: every
      field of the argument, with the requested quantity. */
  function NewRow(item: ItemToAdd): CartItem
  {
    CartItem(item.productId, item.productName, item.productImage, item.price,
             Requested(item.quantity), item.stock,
             item.merchantId, item.merchantName, item.notes)
  }

  /** `Array.prototype.findIndex` on the product id: the first matching
      position, or -1 when no row matches. */
  function FindIndex(cart: seq<CartItem>, id: int): (k: int)
    ensures -1 <= k < |cart|
    ensures 0 <= k ==> cart[k].productId == id
    ensures 0 <= k ==> forall j :: 0 <= j < k ==> cart[j].productId != id
    ensures k == -1 <==> forall j :: 0 <= j < |cart| ==> cart[j].productId != id
  {
    if |cart| == 0 then -1
    else if cart[0].productId == id then 0
    else
      var k := FindIndex(cart[1..], id);
      if k < 0 then -1 else k + 1
  }

  /** The product ids of a cart are pairwise distinct. */
  predicate UniqueIds(cart: seq<CartItem>)
  {
    forall i, j :: 0 <= i < j < |cart| ==> cart[i].productId != cart[j].productId
  }

  /** The cart after `addToCart(item)`. */
  function Added(cart: seq<CartItem>, item: ItemToAdd): seq<CartItem>
  {
    var k := FindIndex(cart, item.productId);
    if k >= 0 then
      cart[k := cart[k].(quantity := Min(cart[k].quantity + Requested(item.quantity), item.stock))]
    else
      cart + [NewRow(item)]
  }

  /** `cart.filter(item => item.productId !== id)`. */
  function Without(cart: seq<CartItem>, id: int): (r: seq<CartItem>)
    ensures |r| <= |cart|
  {
    if |cart| == 0 then []
    else if cart[0].productId == id then Without(cart[1..], id)
    else [cart[0]] + Without(cart[1..], id)
  }

  /** The rows after `updateCartItemQuantity(id, q)` when `id` is in the cart
      (when it is not, the storage is not even rewritten). */
  function Updated(cart: seq<CartItem>, id: int, q: int): seq<CartItem>
  {
    var k := FindIndex(cart, id);
    if k < 0 then cart
    else if q <= 0 then Without(cart, id)
    else cart[k := cart[k].(quantity := Min(q, cart[k].stock))]
  }

  /** `cart.reduce((total, item) => total + item.quantity, 0)`. */
  function ItemCount(cart: seq<CartItem>): int
  {
    if |cart| == 0 then 0 else cart[0].quantity + ItemCount(cart[1..])
  }

  /** `cart.reduce((total, item) => total + item.price * item.quantity, 0)`. */
  function Total(cart: seq<CartItem>): int
  {
    if |cart| == 0 then 0 else cart[0].price * cart[0].quantity + Total(cart[1..])
  }

  /** `cart.some(item => item.productId === id)`. */
  predicate InCart(cart: seq<CartItem>, id: int)
  {
    exists i :: 0 <= i < |cart| && cart[i].productId == id
  }

  /** `cart.find(item => item.productId === id)`. */
  function Find(cart: seq<CartItem>, id: int): Option<CartItem>
  {
    if |cart| == 0 then None
    else if cart[0].productId == id then Some(cart[0])
    else Find(cart[1..], id)
  }

  // ---------------------------------------------------------------------
  // The store: one storage slot, read and rewritten whole by every call
  // ---------------------------------------------------------------------

  class CartStore {
    var slot: Slot

    /** A browser with nothing stored under the cart key. */
    constructor ()
      ensures slot == Absent
    {
      slot := Absent;
    }

    /** `getCart`: a missing or unparsable value reads as the empty cart. */
    function GetCart(): seq<CartItem>
      reads this
    {
      match slot
      case Stored(items) => items
      case Absent => []
      case Corrupt => []
    }

    /** `saveCart`: stores the list as given; reading it back yields it. */
    method SaveCart(cart: seq<CartItem>)
      modifies this
      ensures slot == Stored(cart)
      ensures GetCart() == cart
    {
      slot := Stored(cart);
    }

    /** `addToCart`: merge into the product's row, or append a new row; the
        list is always written back. */
    method AddToCart(item: ItemToAdd)
      modifies this
      ensures slot == Stored(Added(old(GetCart()), item))
    {
      var cart := GetCart();
      var existingItemIndex := FindIndex(cart, item.productId);
      if existingItemIndex >= 0 {
        var newQuantity := cart[existingItemIndex].quantity + Requested(item.quantity);
        var maxQuantity := Min(newQuantity, item.stock);
        cart := cart[existingItemIndex := cart[existingItemIndex].(quantity := maxQuantity)];
      } else {
        cart := cart + [NewRow(item)];
      }
      SaveCart(cart);
    }

    /** `removeFromCart`: keeps the rows of every other product; the list is
        always written back. */
    method RemoveFromCart(productId: int)
      modifies this
      ensures slot == Stored(Without(old(GetCart()), productId))
    {
      var cart := GetCart();
      var filteredCart := Without(cart, productId);
      SaveCart(filteredCart);
    }

    /** `updateCartItemQuantity`: nothing happens (not even a write) for a
        product that is not in the cart. */
    method UpdateCartItemQuantity(productId: int, quantity: int)
      modifies this
      ensures FindIndex(old(GetCart()), productId) < 0 ==> slot == old(slot)
      ensures FindIndex(old(GetCart()), productId) >= 0 ==>
                slot == Stored(Updated(old(GetCart()), productId, quantity))
    {
      var cart := GetCart();
      var itemIndex := FindIndex(cart, productId);
      if itemIndex >= 0 {
        if quantity <= 0 {
          RemoveFromCart(productId);
        } else {
          var maxQuantity := Min(quantity, cart[itemIndex].stock);
          cart := cart[itemIndex := cart[itemIndex].(quantity := maxQuantity)];
          SaveCart(cart);
        }
      }
    }

    /** `clearCart`: removes the storage key. */
    method ClearCart()
      modifies this
      ensures slot == Absent
      ensures GetCart() == []
    {
      slot := Absent;
    }

    function GetCartItemCount(): int
      reads this
    {
      ItemCount(GetCart())
    }

    function GetCartTotal(): int
      reads this
    {
      Total(GetCart())
    }

    /** An alias of `GetCartTotal`. */
    function GetCartSubtotal(): int
      reads this
    {
      GetCartTotal()
    }

    function IsProductInCart(productId: int): bool
      reads this
    {
      InCart(GetCart(), productId)
    }

    function GetCartItem(productId: int): Option<CartItem>
      reads this
    {
      Find(GetCart(), productId)
    }
  }

  // ---------------------------------------------------------------------
  // Properties
  // ---------------------------------------------------------------------

  /** Whatever is stored, the cart read back is a list of rows; a store
      that has been cleared, or holds unparsable text, reads as empty and
      so counts 0 items worth 0. */
  lemma EmptyStoreQueries(s: CartStore)
    requires !s.slot.Stored?
    ensures s.GetCart() == [] && s.GetCartItemCount() == 0 && s.GetCartTotal() == 0
    ensures forall id :: !s.IsProductInCart(id) && s.GetCartItem(id) == None
  {
  }

  /** Whatever the store holds, the subtotal is the total: the cart has no
      taxes, shipping or discounts of its own. */
  lemma SubtotalIsTotal(s: CartStore)
    ensures s.GetCartSubtotal() == s.GetCartTotal()
  {
  }

  /** Adding a product already in the cart changes only that row, and only
      its quantity, to `min(old + (q || 1), item.stock)`: the ceiling is the
      incoming argument's stock, not the stored row's. */
  lemma AddExistingRow(cart: seq<CartItem>, item: ItemToAdd)
    requires InCart(cart, item.productId)
    ensures var k := FindIndex(cart, item.productId);
      var r := Added(cart, item);
      && 0 <= k < |cart| == |r|
      && r[k] == cart[k].(quantity := Min(cart[k].quantity + Requested(item.quantity), item.stock))
      && forall j :: 0 <= j < |cart| && j != k ==> r[j] == cart[j]
  {
  }

  /** Adding a product not in the cart appends one row at the end, with the
      requested quantity left unclamped, and keeps the other rows in order. */
  lemma AddNewRow(cart: seq<CartItem>, item: ItemToAdd)
    requires !InCart(cart, item.productId)
    ensures var r := Added(cart, item);
      && |r| == |cart| + 1
      && r[..|cart|] == cart
      && r[|cart|] == NewRow(item)
      && r[|cart|].quantity == Requested(item.quantity)
  {
  }

  /** Distinct product ids stay distinct after an add, the product is then
      in the cart, and the cart grows by at most one row. */
  lemma AddKeepsUnique(cart: seq<CartItem>, item: ItemToAdd)
    requires UniqueIds(cart)
    ensures UniqueIds(Added(cart, item))
    ensures |cart| <= |Added(cart, item)| <= |cart| + 1
    ensures InCart(Added(cart, item), item.productId)
  {
    var r := Added(cart, item);
    var k := FindIndex(cart, item.productId);
    if k >= 0 {
      assert r[k].productId == item.productId;
    } else {
      assert r[|cart|].productId == item.productId;
      forall i, j | 0 <= i < j < |r|
        ensures r[i].productId != r[j].productId
      {
        if j == |cart| {
          assert r[i] == cart[i];
        }
      }
    }
  }

  /** The item count is additive over concatenation. */
  lemma {:induction false} ItemCountAppend(a: seq<CartItem>, b: seq<CartItem>)
    ensures ItemCount(a + b) == ItemCount(a) + ItemCount(b)
  {
    if |a| == 0 {
      assert a + b == b;
    } else {
      assert (a + b)[1..] == a[1..] + b;
      ItemCountAppend(a[1..], b);
    }
  }

  /** The total is additive over concatenation. */
  lemma {:induction false} TotalAppend(a: seq<CartItem>, b: seq<CartItem>)
    ensures Total(a + b) == Total(a) + Total(b)
  {
    if |a| == 0 {
      assert a + b == b;
    } else {
      assert (a + b)[1..] == a[1..] + b;
      TotalAppend(a[1..], b);
    }
  }

  /** Replacing one row changes the item count and the total by exactly that
      row's difference. */
  lemma {:induction false} ReplaceRowSums(cart: seq<CartItem>, k: nat, row: CartItem)
    requires k < |cart|
    ensures ItemCount(cart[k := row]) == ItemCount(cart) - cart[k].quantity + row.quantity
    ensures Total(cart[k := row]) == Total(cart) - cart[k].price * cart[k].quantity + row.price * row.quantity
  {
    if k > 0 {
      assert cart[k := row][1..] == cart[1..][k - 1 := row];
      ReplaceRowSums(cart[1..], k - 1, row);
    }
  }

  /** How an add moves the item count: by the clamped increase on a repeat
      add, by the requested quantity on a first add. */
  lemma AddedCount(cart: seq<CartItem>, item: ItemToAdd)
    ensures var k := FindIndex(cart, item.productId);
      ItemCount(Added(cart, item)) ==
        if k >= 0 then ItemCount(cart) - cart[k].quantity
                       + Min(cart[k].quantity + Requested(item.quantity), item.stock)
        else ItemCount(cart) + Requested(item.quantity)
  {
    var k := FindIndex(cart, item.productId);
    if k >= 0 {
      ReplaceRowSums(cart, k, cart[k].(quantity := Min(cart[k].quantity + Requested(item.quantity), item.stock)));
    } else {
      ItemCountAppend(cart, [NewRow(item)]);
      assert ItemCount([NewRow(item)]) == Requested(item.quantity);
    }
  }

  /** Filtering distributes over concatenation, so it keeps the surviving
      rows in their original order. */
  lemma {:induction false} WithoutAppend(a: seq<CartItem>, b: seq<CartItem>, id: int)
    ensures Without(a + b, id) == Without(a, id) + Without(b, id)
  {
    if |a| == 0 {
      assert a + b == b;
    } else {
      assert (a + b)[1..] == a[1..] + b;
      WithoutAppend(a[1..], b, id);
    }
  }

  /** In a cart with distinct ids, removing a product that is present drops
      exactly its row and keeps the others in order. */
  lemma {:induction false} WithoutUnique(cart: seq<CartItem>, id: int)
    requires UniqueIds(cart)
    requires InCart(cart, id)
    ensures var k := FindIndex(cart, id);
      Without(cart, id) == cart[..k] + cart[k + 1..]
  {
    var k := FindIndex(cart, id);
    NoMatchAroundUnique(cart, id);
    assert cart == cart[..k] + [cart[k]] + cart[k + 1..];
    WithoutAroundRow(cart[..k], cart[k], cart[k + 1..], id);
  }

  /** In a cart with distinct ids, no row before or after the product's own
      row carries its id. */
  lemma NoMatchAroundUnique(cart: seq<CartItem>, id: int)
    requires UniqueIds(cart)
    requires InCart(cart, id)
    ensures var k := FindIndex(cart, id);
      FindIndex(cart[..k], id) == -1 && FindIndex(cart[k + 1..], id) == -1
  {
    var k := FindIndex(cart, id);
    var before, after := cart[..k], cart[k + 1..];
    assert FindIndex(before, id) == -1 by {
      forall j | 0 <= j < |before| ensures before[j].productId != id {
        assert before[j] == cart[j];
      }
    }
    assert FindIndex(after, id) == -1 by {
      forall j | 0 <= j < |after| ensures after[j].productId != id {
        assert after[j] == cart[k + 1 + j];
      }
    }
  }

  lemma WithoutAroundRow(before: seq<CartItem>, row: CartItem, after: seq<CartItem>, id: int)
    requires row.productId == id
    requires FindIndex(before, id) == -1 && FindIndex(after, id) == -1
    ensures Without(before + [row] + after, id) == before + after
  {
    calc {
      Without(before + [row] + after, id);
    == { WithoutAppend(before + [row], after, id); }
      Without(before + [row], id) + Without(after, id);
    == { WithoutAppend(before, [row], id); }
      Without(before, id) + Without([row], id) + Without(after, id);
    == { WithoutAbsent(before, id); WithoutOwnRow(row, id); WithoutAbsent(after, id); }
      before + [] + after;
    }
  }

  /** The rows kept are exactly the rows of other products. */
  lemma {:induction false} WithoutMembers(cart: seq<CartItem>, id: int)
    ensures forall x :: x in Without(cart, id) <==> x in cart && x.productId != id
  {
    if |cart| > 0 {
      WithoutMembers(cart[1..], id);
      assert cart == [cart[0]] + cart[1..];
    }
  }

  /** Removing a product that is not in the cart changes nothing. */
  lemma {:induction false} WithoutAbsent(cart: seq<CartItem>, id: int)
    requires !InCart(cart, id)
    ensures Without(cart, id) == cart
  {
    if |cart| > 0 {
      WithoutAbsent(cart[1..], id);
      assert cart == [cart[0]] + cart[1..];
    }
  }

  lemma WithoutOwnRow(row: CartItem, id: int)
    requires row.productId == id
    ensures Without([row], id) == []
  {
    assert [row][1..] == [];
  }

  /** Removing a present product from a cart with distinct ids lowers the
      item count and the total by exactly that row's share. */
  lemma WithoutSums(cart: seq<CartItem>, id: int)
    requires UniqueIds(cart)
    requires InCart(cart, id)
    ensures var k := FindIndex(cart, id);
      && ItemCount(Without(cart, id)) == ItemCount(cart) - cart[k].quantity
      && Total(Without(cart, id)) == Total(cart) - cart[k].price * cart[k].quantity
  {
    var k := FindIndex(cart, id);
    WithoutUnique(cart, id);
    DropRowSums(cart, k);
  }

  /** Dropping the row at `k` lowers the sums by that row's share. */
  lemma {:induction false} DropRowSums(cart: seq<CartItem>, k: nat)
    requires k < |cart|
    ensures ItemCount(cart[..k] + cart[k + 1..]) == ItemCount(cart) - cart[k].quantity
    ensures Total(cart[..k] + cart[k + 1..]) == Total(cart) - cart[k].price * cart[k].quantity
  {
    var before, after := cart[..k], cart[k + 1..];
    assert cart == before + ([cart[k]] + after);
    assert [cart[k]][1..] == [];
    DropRowCount(before, cart[k], after);
    DropRowTotal(before, cart[k], after);
  }

  lemma DropRowCount(before: seq<CartItem>, row: CartItem, after: seq<CartItem>)
    ensures ItemCount(before + after) == ItemCount(before + ([row] + after)) - row.quantity
  {
    ItemCountAppend(before, [row] + after);
    ItemCountAppend(before, after);
    assert ([row] + after)[1..] == after;
  }

  lemma DropRowTotal(before: seq<CartItem>, row: CartItem, after: seq<CartItem>)
    ensures Total(before + after) == Total(before + ([row] + after)) - row.price * row.quantity
  {
    TotalAppend(before, [row] + after);
    TotalAppend(before, after);
    assert ([row] + after)[1..] == after;
  }

  /** Removal is idempotent, and keeps ids distinct. */
  lemma WithoutIdempotent(cart: seq<CartItem>, id: int)
    ensures Without(Without(cart, id), id) == Without(cart, id)
    ensures !InCart(Without(cart, id), id)
    ensures UniqueIds(cart) ==> UniqueIds(Without(cart, id))
  {
    var r := Without(cart, id);
    WithoutMembers(cart, id);
    assert FindIndex(r, id) == -1 by {
      forall j | 0 <= j < |r| ensures r[j].productId != id {
        assert r[j] in r;
      }
    }
    if UniqueIds(cart) {
      WithoutKeepsUnique(cart, id);
    }
  }

  lemma {:induction false} WithoutKeepsUnique(cart: seq<CartItem>, id: int)
    requires UniqueIds(cart)
    ensures UniqueIds(Without(cart, id))
  {
    if |cart| > 0 {
      WithoutKeepsUnique(cart[1..], id);
      WithoutMembers(cart[1..], id);
      var rest := Without(cart[1..], id);
      if cart[0].productId != id {
        var r := [cart[0]] + rest;
        forall i, j | 0 <= i < j < |r| ensures r[i].productId != r[j].productId {
          if i == 0 {
            assert r[j] in rest;
            assert r[j] in cart[1..];
          }
        }
      }
    }
  }

  /** `updateCartItemQuantity` on a present product: a quantity of 0 or less
      removes its row; a positive one sets only that row's quantity, clamped
      to the stock stored in the row. */
  lemma UpdatedRow(cart: seq<CartItem>, id: int, q: int)
    requires InCart(cart, id)
    ensures q <= 0 ==> Updated(cart, id, q) == Without(cart, id) && !InCart(Updated(cart, id, q), id)
    ensures q > 0 ==> var k := FindIndex(cart, id);
      var r := Updated(cart, id, q);
      && |r| == |cart|
      && r[k] == cart[k].(quantity := Min(q, cart[k].stock))
      && (cart[k].stock >= 1 ==> r[k].quantity >= 1)
      && forall j :: 0 <= j < |cart| && j != k ==> r[j] == cart[j]
  {
    if q <= 0 {
      WithoutIdempotent(cart, id);
    }
  }

  /** An update never introduces a duplicate product id. */
  lemma UpdatedKeepsUnique(cart: seq<CartItem>, id: int, q: int)
    requires UniqueIds(cart)
    ensures UniqueIds(Updated(cart, id, q))
  {
    var k := FindIndex(cart, id);
    if k >= 0 && q <= 0 {
      WithoutKeepsUnique(cart, id);
    }
  }

  /** `find` returns the row at the position `findIndex` reports. */
  lemma {:induction false} FindAtFindIndex(cart: seq<CartItem>, id: int)
    ensures var k := FindIndex(cart, id);
      Find(cart, id) == if k < 0 then None else Some(cart[k])
  {
    if |cart| > 0 && cart[0].productId != id {
      FindAtFindIndex(cart[1..], id);
    }
  }

  /** `isProductInCart(id)` holds exactly when `getCartItem(id)` is defined,
      and the item found carries that id. */
  lemma InCartIffFound(cart: seq<CartItem>, id: int)
    ensures InCart(cart, id) <==> Find(cart, id).Some?
    ensures Find(cart, id).Some? ==> Find(cart, id).value.productId == id
    ensures Find(cart, id).Some? ==> Find(cart, id).value in cart
  {
    FindAtFindIndex(cart, id);
  }

  /** Two adds of the same product with stock 5, of 3 and then of 4 units,
      leave one row of 5. */
  lemma AddTwiceClampsToStock(item: ItemToAdd)
    requires item.stock == 5
    ensures var once := Added([], item.(quantity := Some(3)));
      var twice := Added(once, item.(quantity := Some(4)));
      |twice| == 1 && twice[0].productId == item.productId && twice[0].quantity == 5
  {
    var once := Added([], item.(quantity := Some(3)));
    assert FindIndex(once, item.productId) == 0;
  }

  /** The first add of a product is not clamped to its stock, and a
      negative requested quantity is kept: a row's quantity can lie outside
      [1, stock]. */
  lemma FirstAddUnclamped(item: ItemToAdd)
    requires item.stock == 4
    ensures Added([], item.(quantity := Some(10)))[0].quantity == 10
    ensures Added([], item.(quantity := Some(-3)))[0].quantity == -3
    ensures Added([], item.(quantity := Some(0)))[0].quantity == 1
    ensures Added([], item.(quantity := None))[0].quantity == 1
  {
  }

  /** A repeat add clamps to the stock passed in with the call even when
      the stored row carries a different stock. */
  lemma RepeatAddUsesIncomingStock(row: CartItem, item: ItemToAdd)
    requires row.productId == item.productId
    requires row.quantity == 1 && row.stock == 10
    requires item.stock == 2 && item.quantity == Some(5)
    ensures Added([row], item) == [row.(quantity := 2)]
  {
    assert FindIndex([row], item.productId) == 0;
  }

  /** A repeat add with a negative quantity keeps the row, with a quantity
      below 1: only `updateCartItemQuantity` removes rows. */
  lemma RepeatAddKeepsNegativeRow(row: CartItem, item: ItemToAdd)
    requires row.productId == item.productId
    requires row.quantity == 1 && item.stock == 10 && item.quantity == Some(-5)
    ensures Added([row], item) == [row.(quantity := -4)]
  {
    assert FindIndex([row], item.productId) == 0;
  }

  /** Two rows at 10 x 2 and 5 x 3 count 5 items worth 35. */
  lemma SumsExample(a: CartItem, b: CartItem)
    requires a.price == 10 && a.quantity == 2
    requires b.price == 5 && b.quantity == 3
    ensures ItemCount([a, b]) == 5
    ensures Total([a, b]) == 35
  {
    assert [a, b][1..] == [b];
    assert ItemCount([b]) == 3 && Total([b]) == 15;
  }

  /** With every quantity at least 1, the item count is at least the number
      of rows; with every price and quantity non-negative, so is the total. */
  lemma {:induction false} SumsBounds(cart: seq<CartItem>)
    ensures (forall i :: 0 <= i < |cart| ==> cart[i].quantity >= 1) ==> ItemCount(cart) >= |cart|
    ensures (forall i :: 0 <= i < |cart| ==> cart[i].quantity >= 0 && cart[i].price >= 0) ==> Total(cart) >= 0
  {
    if |cart| > 0 {
      SumsBounds(cart[1..]);
      assert forall i :: 0 <= i < |cart[1..]| ==> cart[1..][i] == cart[i + 1];
    }
  }
}
