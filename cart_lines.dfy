/**
 * The cart and wishlist updates behind the App.tsx handlers, as functions
 * on values: merge-on-add keyed by (product id, colour, size), the
 * variant-insensitive quantity update and removal, and the wishlist toggle.
 */
module CartLines {
  import opened Types
  import opened Seqs
  import opened CartPricing

  /** The colour a new line gets: the given one when truthy, else the product's first colour. */
  function ResolveColor(p: Product, color: Option<string>): (r: Option<string>)
    ensures r.None? <==> !TruthyText(color) && p.colors == []
    ensures r.Some? ==> r == color || (|p.colors| > 0 && r.value == p.colors[0])
  {
    OrElse(color, First(p.colors))
  }

  /** The size a new line gets: the given one when truthy, else the product's first size. */
  function ResolveSize(p: Product, size: Option<string>): (r: Option<string>)
    ensures r.None? <==> !TruthyText(size) && p.sizes == []
    ensures r.Some? ==> r == size || (|p.sizes| > 0 && r.value == p.sizes[0])
  {
    OrElse(size, First(p.sizes))
  }

  /** The merge key of `handleAddToCart`: same product id, colour and size. */
  predicate SameKey(item: CartItem, id: string, color: Option<string>, size: Option<string>) {
    item.product.id == id && item.selectedColor == color && item.selectedSize == size
  }

  /** No two lines share a key. */
  predicate UniqueKeys(cart: seq<CartItem>) {
    forall i, j :: 0 <= i < j < |cart| ==>
      !SameKey(cart[j], cart[i].product.id, cart[i].selectedColor, cart[i].selectedSize)
  }

  /** `findIndex`: the first line with the key, or -1. */
  function KeyIndex(cart: seq<CartItem>, id: string, color: Option<string>, size: Option<string>): (r: int)
    ensures -1 <= r < |cart|
    ensures r == -1 <==> forall i :: 0 <= i < |cart| ==> !SameKey(cart[i], id, color, size)
    ensures r >= 0 ==> SameKey(cart[r], id, color, size)
    ensures r >= 0 ==> forall i :: 0 <= i < r ==> !SameKey(cart[i], id, color, size)
    decreases |cart|
  {
    if cart == [] then -1
    else if SameKey(cart[0], id, color, size) then 0
    else
      var k := KeyIndex(cart[1..], id, color, size);
      if k == -1 then -1 else k + 1
  }

  /** `handleAddToCart`: add to the matching line's quantity, or append a new line. */
  function AddLine(cart: seq<CartItem>, p: Product, quantity: int, color: Option<string>, size: Option<string>)
    : (r: seq<CartItem>)
    ensures var k := KeyIndex(cart, p.id, ResolveColor(p, color), ResolveSize(p, size));
      && (k >= 0 ==> |r| == |cart| && r[k] == cart[k].(quantity := cart[k].quantity + quantity)
                     && forall i :: 0 <= i < |cart| && i != k ==> r[i] == cart[i])
      && (k == -1 ==> r == cart + [CartItem(p, quantity, ResolveColor(p, color), ResolveSize(p, size))])
  {
    var c, s := ResolveColor(p, color), ResolveSize(p, size);
    var k := KeyIndex(cart, p.id, c, s);
    if k >= 0 then cart[k := cart[k].(quantity := cart[k].quantity + quantity)]
    else cart + [CartItem(p, quantity, c, s)]
  }

  /** Adding keeps every key unique: it either grows an existing line or appends an unused key. */
  lemma AddKeepsKeysUnique(cart: seq<CartItem>, p: Product, quantity: int, color: Option<string>, size: Option<string>)
    requires UniqueKeys(cart)
    ensures UniqueKeys(AddLine(cart, p, quantity, color, size))
  {
    var r := AddLine(cart, p, quantity, color, size);
    var k := KeyIndex(cart, p.id, ResolveColor(p, color), ResolveSize(p, size));
    if k >= 0 {
      assert forall m :: 0 <= m < |r| ==>
        r[m].product == cart[m].product && r[m].selectedColor == cart[m].selectedColor
        && r[m].selectedSize == cart[m].selectedSize;
    } else {
      forall i, j | 0 <= i < j < |r|
        ensures !SameKey(r[j], r[i].product.id, r[i].selectedColor, r[i].selectedSize)
      {
        if j == |cart| {
          assert r[i] == cart[i];
        }
      }
    }
  }

  /** Adding grows the subtotal by the unit price of the line that received the quantity. */
  lemma AddSubtotal(cart: seq<CartItem>, p: Product, quantity: int, color: Option<string>, size: Option<string>)
    ensures var k := KeyIndex(cart, p.id, ResolveColor(p, color), ResolveSize(p, size));
      Subtotal(AddLine(cart, p, quantity, color, size))
        == Subtotal(cart) + (if k >= 0 then cart[k].product.price else p.price) * quantity
  {
    var c, s := ResolveColor(p, color), ResolveSize(p, size);
    var k := KeyIndex(cart, p.id, c, s);
    if k >= 0 {
      var line := cart[k];
      var y := line.(quantity := line.quantity + quantity);
      assert AddLine(cart, p, quantity, color, size) == cart[k := y];
      SubtotalReplace(cart, k, y);
      Distribute(line.product.price, line.quantity, quantity);
    } else {
      var x := CartItem(p, quantity, c, s);
      assert AddLine(cart, p, quantity, color, size) == cart + [x];
      assert (cart + [x])[..|cart|] == cart;
    }
  }

  lemma Distribute(a: int, b: int, c: int)
    ensures a * (b + c) == a * b + a * c
  {
  }

  /** Replacing one line changes the subtotal by the difference of the two line totals. */
  lemma SubtotalReplace(cart: seq<CartItem>, k: nat, y: CartItem)
    requires k < |cart|
    ensures Subtotal(cart[k := y]) == Subtotal(cart) - LineTotal(cart[k]) + LineTotal(y)
  {
    var r := cart[k := y];
    assert cart == cart[..k] + [cart[k]] + cart[k + 1..];
    assert r == cart[..k] + [y] + cart[k + 1..];
    SubtotalSwapInvariant(cart[..k], cart[k], cart[k + 1..]);
    SubtotalSwapInvariant(cart[..k], y, cart[k + 1..]);
  }

  /** Adding the same product and variant twice to a cart without it gives one line holding both amounts. */
  lemma AddTwiceMerges(cart: seq<CartItem>, p: Product, q1: int, q2: int, color: Option<string>, size: Option<string>)
    requires KeyIndex(cart, p.id, ResolveColor(p, color), ResolveSize(p, size)) == -1
    ensures var r := AddLine(AddLine(cart, p, q1, color, size), p, q2, color, size);
      && |r| == |cart| + 1
      && r[|cart|] == CartItem(p, q1 + q2, ResolveColor(p, color), ResolveSize(p, size))
      && r[..|cart|] == cart
  {
    var c, s := ResolveColor(p, color), ResolveSize(p, size);
    var once := AddLine(cart, p, q1, color, size);
    assert SameKey(once[|cart|], p.id, c, s);
    assert KeyIndex(once, p.id, c, s) == |cart|;
  }

  /** `handleUpdateCartQuantity`: every line of the product, whatever its variant, gets the new quantity. */
  function SetQuantity(cart: seq<CartItem>, id: string, quantity: int): (r: seq<CartItem>)
    ensures |r| == |cart|
    ensures forall i :: 0 <= i < |cart| ==>
      r[i] == if cart[i].product.id == id then cart[i].(quantity := quantity) else cart[i]
    decreases |cart|
  {
    if cart == [] then []
    else [if cart[0].product.id == id then cart[0].(quantity := quantity) else cart[0]]
         + SetQuantity(cart[1..], id, quantity)
  }

  /** `handleRemoveFromCart`: drop every line of the product. */
  function RemoveProduct(cart: seq<CartItem>, id: string): (r: seq<CartItem>)
    ensures forall item :: item in r ==> item.product.id != id
    ensures forall item :: item in cart && item.product.id != id ==> item in r
    ensures IsSubseq(r, cart)
  {
    FilterIsSubseq((item: CartItem) => item.product.id != id, cart);
    Filter((item: CartItem) => item.product.id != id, cart)
  }

  /** Removing keeps each remaining line exactly as often as before. */
  lemma RemoveKeepsOtherLines(cart: seq<CartItem>, id: string, item: CartItem)
    requires item.product.id != id
    ensures multiset(RemoveProduct(cart, id))[item] == multiset(cart)[item]
  {
    FilterCount((x: CartItem) => x.product.id != id, cart, item);
  }

  /** Setting a quantity and removing lines keep keys unique. */
  lemma UpdateKeepsKeysUnique(cart: seq<CartItem>, id: string, quantity: int)
    requires UniqueKeys(cart)
    ensures UniqueKeys(SetQuantity(cart, id, quantity))
  {
    var r := SetQuantity(cart, id, quantity);
    forall i, j | 0 <= i < j < |r|
      ensures !SameKey(r[j], r[i].product.id, r[i].selectedColor, r[i].selectedSize)
    {
      assert !SameKey(cart[j], cart[i].product.id, cart[i].selectedColor, cart[i].selectedSize);
    }
  }

  lemma {:induction false} SubseqKeepsKeysUnique(r: seq<CartItem>, cart: seq<CartItem>)
    requires UniqueKeys(cart) && IsSubseq(r, cart)
    ensures UniqueKeys(r)
    decreases |cart|
  {
    if r != [] {
      if r[0] == cart[0] && IsSubseq(r[1..], cart[1..]) {
        SubseqKeepsKeysUnique(r[1..], cart[1..]);
        SubseqMembers(r[1..], cart[1..]);
        forall j | 0 < j < |r|
          ensures !SameKey(r[j], r[0].product.id, r[0].selectedColor, r[0].selectedSize)
        {
          assert r[j] in r[1..];
          var m :| 0 <= m < |cart[1..]| && cart[1..][m] == r[j];
          assert cart[m + 1] == r[j];
        }
        forall i, j | 0 < i < j < |r|
          ensures !SameKey(r[j], r[i].product.id, r[i].selectedColor, r[i].selectedSize)
        {
          assert r[1..][i - 1] == r[i] && r[1..][j - 1] == r[j];
        }
      } else {
        SubseqKeepsKeysUnique(r, cart[1..]);
      }
    }
  }

  lemma {:induction false} SubseqMembers<T>(r: seq<T>, s: seq<T>)
    requires IsSubseq(r, s)
    ensures forall x :: x in r ==> x in s
    decreases |s|
  {
    if r != [] {
      if r[0] == s[0] && IsSubseq(r[1..], s[1..]) {
        SubseqMembers(r[1..], s[1..]);
        assert r == [r[0]] + r[1..];
      } else {
        SubseqMembers(r, s[1..]);
      }
    }
  }

  lemma RemoveKeepsKeysUnique(cart: seq<CartItem>, id: string)
    requires UniqueKeys(cart)
    ensures UniqueKeys(RemoveProduct(cart, id))
  {
    SubseqKeepsKeysUnique(RemoveProduct(cart, id), cart);
  }

  /**
   * Quantity updates ignore the variant: changing one line's quantity also
   * changes every other line of the same product.
   */
  lemma UpdateReachesOtherVariants(cart: seq<CartItem>, i: nat, j: nat, quantity: int)
    requires i < |cart| && j < |cart| && cart[i].product.id == cart[j].product.id
    ensures SetQuantity(cart, cart[i].product.id, quantity)[j].quantity == quantity
  {
  }

  /** Every line holds at least one unit. */
  predicate PositiveQuantities(cart: seq<CartItem>) {
    forall i :: 0 <= i < |cart| ==> cart[i].quantity >= 1
  }

  /**
   * The App does not clamp quantities itself; the cart stays positive as long
   * as every request is positive, which the steppers on the cart and product
   * pages guarantee.
   */
  lemma PositiveQuantitiesPreserved(cart: seq<CartItem>, p: Product, q: int, color: Option<string>,
                                    size: Option<string>, id: string)
    requires PositiveQuantities(cart) && q >= 1
    ensures PositiveQuantities(AddLine(cart, p, q, color, size))
    ensures PositiveQuantities(SetQuantity(cart, id, q))
    ensures PositiveQuantities(RemoveProduct(cart, id))
  {
    var r := RemoveProduct(cart, id);
    forall i | 0 <= i < |r| ensures r[i].quantity >= 1 {
      assert r[i] in r;
      SubseqMembers(r, cart);
    }
  }

  // ---------------------------------------------------------------- wishlist

  predicate InWishlist(wishlist: seq<Product>, id: string) {
    exists i :: 0 <= i < |wishlist| && wishlist[i].id == id
  }

  /** No two wishlist entries share a product id. */
  predicate DistinctIds(wishlist: seq<Product>) {
    forall i, j :: 0 <= i < j < |wishlist| ==> wishlist[i].id != wishlist[j].id
  }

  /** `handleRemoveFromWishlist`: drop every entry with the id. */
  function RemoveFromWishlist(wishlist: seq<Product>, id: string): (r: seq<Product>)
    ensures !InWishlist(r, id)
    ensures forall p :: p in wishlist && p.id != id ==> p in r
    ensures forall p :: p in r ==> p in wishlist
    ensures IsSubseq(r, wishlist)
  {
    FilterIsSubseq((p: Product) => p.id != id, wishlist);
    var r := Filter((p: Product) => p.id != id, wishlist);
    assert forall i :: 0 <= i < |r| ==> r[i] in r;
    r
  }

  /** `handleToggleWishlist`: remove the product's id when present, else append the product. */
  function ToggleWishlist(wishlist: seq<Product>, p: Product): (r: seq<Product>)
    ensures InWishlist(r, p.id) <==> !InWishlist(wishlist, p.id)
    ensures !InWishlist(wishlist, p.id) ==> r == wishlist + [p]
    ensures InWishlist(wishlist, p.id) ==> r == RemoveFromWishlist(wishlist, p.id)
  {
    if InWishlist(wishlist, p.id) then RemoveFromWishlist(wishlist, p.id)
    else
      assert (wishlist + [p])[|wishlist|] == p;
      wishlist + [p]
  }

  /** Toggling an absent product twice restores the wishlist. */
  lemma ToggleWishlistTwice(wishlist: seq<Product>, p: Product)
    requires !InWishlist(wishlist, p.id)
    ensures ToggleWishlist(ToggleWishlist(wishlist, p), p) == wishlist
  {
    var f := (x: Product) => x.id != p.id;
    FilterAppend(f, wishlist, [p]);
    forall x | x in wishlist ensures f(x) {
      var i :| 0 <= i < |wishlist| && wishlist[i] == x;
    }
    FilterKeepsAll(f, wishlist);
  }

  /** The toggle and the remove keep the wishlist free of duplicate ids. */
  lemma WishlistStaysDistinct(wishlist: seq<Product>, p: Product, id: string)
    requires DistinctIds(wishlist)
    ensures DistinctIds(ToggleWishlist(wishlist, p))
    ensures DistinctIds(RemoveFromWishlist(wishlist, id))
  {
    SubseqDistinct(RemoveFromWishlist(wishlist, id), wishlist);
    SubseqDistinct(RemoveFromWishlist(wishlist, p.id), wishlist);
  }

  lemma {:induction false} SubseqDistinct(r: seq<Product>, s: seq<Product>)
    requires DistinctIds(s) && IsSubseq(r, s)
    ensures DistinctIds(r)
    decreases |s|
  {
    if r != [] {
      if r[0] == s[0] && IsSubseq(r[1..], s[1..]) {
        SubseqDistinct(r[1..], s[1..]);
        SubseqMembers(r[1..], s[1..]);
        forall j | 0 < j < |r| ensures r[0].id != r[j].id {
          assert r[j] in r[1..];
          var m :| 0 <= m < |s[1..]| && s[1..][m] == r[j];
          assert s[m + 1] == r[j];
        }
        forall i, j | 0 < i < j < |r| ensures r[i].id != r[j].id {
          assert r[1..][i - 1] == r[i] && r[1..][j - 1] == r[j];
        }
      } else {
        SubseqDistinct(r, s[1..]);
      }
    }
  }
}
