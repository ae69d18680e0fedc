/**
 * Order pricing shown on the cart page (src/components/CartPage.tsx) and
 * repeated on the checkout page: subtotal, shipping, 18% GST and total,
 * the quantity stepper and the shipping notes.
 */
module CartPricing {
  import opened Types

  /** Shipping is free only for subtotals strictly above this many rupees. */
  const FREE_SHIPPING_ABOVE := 4000
  const SHIPPING_FEE := 100
  /** The 18% GST rate, exact. */
  const TAX_RATE: real := 18.0 / 100.0

  function LineTotal(item: CartItem): int {
    item.product.price * item.quantity
  }

  /** `cartItems.reduce((sum, item) => sum + price * quantity, 0)`, folded from the left. */
  function Subtotal(items: seq<CartItem>): int
    decreases |items|
  {
    if items == [] then 0 else Subtotal(items[..|items| - 1]) + LineTotal(items[|items| - 1])
  }

  /** The subtotal of two carts laid end to end is the sum of their subtotals. */
  lemma {:induction false} SubtotalConcat(a: seq<CartItem>, b: seq<CartItem>)
    ensures Subtotal(a + b) == Subtotal(a) + Subtotal(b)
    decreases |b|
  {
    if b == [] {
      assert a + b == a;
    } else {
      var b' := b[..|b| - 1];
      assert (a + b)[..|a + b| - 1] == a + b';
      assert (a + b)[|a + b| - 1] == b[|b| - 1];
      SubtotalConcat(a, b');
    }
  }

  /** The subtotal counts each line once, whatever the order of the lines. */
  lemma {:induction false} SubtotalSwapInvariant(a: seq<CartItem>, x: CartItem, b: seq<CartItem>)
    ensures Subtotal(a + [x] + b) == Subtotal(a + b) + LineTotal(x)
  {
    SubtotalConcat(a + [x], b);
    SubtotalConcat(a, [x]);
    SubtotalConcat(a, b);
    assert Subtotal([x]) == LineTotal(x) by { assert [x][..0] == []; }
  }

  /** Lines with non-negative prices and quantities add up to a non-negative subtotal. */
  lemma {:induction false} SubtotalNonNegative(items: seq<CartItem>)
    requires forall i :: 0 <= i < |items| ==> items[i].product.price >= 0 && items[i].quantity >= 0
    ensures Subtotal(items) >= 0
    decreases |items|
  {
    if items != [] {
      SubtotalNonNegative(items[..|items| - 1]);
      var last := items[|items| - 1];
      assert last.product.price * last.quantity >= 0;
    }
  }

  function Shipping(subtotal: int): (r: int)
    ensures r == 0 <==> subtotal > FREE_SHIPPING_ABOVE
    ensures r != 0 ==> r == SHIPPING_FEE
  {
    if subtotal > FREE_SHIPPING_ABOVE then 0 else SHIPPING_FEE
  }

  /** GST at 18% of the subtotal. */
  function Tax(subtotal: int): (r: real)
    ensures r * 100.0 == subtotal as real * 18.0
  {
    subtotal as real * TAX_RATE
  }

  datatype Totals = Totals(subtotal: int, shipping: int, tax: real, total: real)

  /** The derived order summary: subtotal, shipping, tax and their sum. */
  function ComputeTotals(items: seq<CartItem>): (t: Totals)
    ensures t.subtotal == Subtotal(items)
    ensures t.shipping == 0 <==> t.subtotal > FREE_SHIPPING_ABOVE
    ensures t.shipping == 0 || t.shipping == SHIPPING_FEE
    ensures t.tax * 100.0 == t.subtotal as real * 18.0
    ensures t.total == t.subtotal as real + t.shipping as real + t.tax
  {
    var s := Subtotal(items);
    Totals(s, Shipping(s), Tax(s), s as real + Shipping(s) as real + Tax(s))
  }

  /** A subtotal of exactly 4000 still pays the fee; one rupee more ships free. */
  lemma ShippingBoundary()
    ensures Shipping(FREE_SHIPPING_ABOVE) == SHIPPING_FEE
    ensures Shipping(FREE_SHIPPING_ABOVE + 1) == 0
    ensures Shipping(FREE_SHIPPING_ABOVE - 1) == SHIPPING_FEE
  {
  }

  /** With non-negative prices and quantities the total is never below the subtotal. */
  lemma TotalAtLeastSubtotal(items: seq<CartItem>)
    requires forall i :: 0 <= i < |items| ==> items[i].product.price >= 0 && items[i].quantity >= 0
    ensures ComputeTotals(items).total >= ComputeTotals(items).subtotal as real
  {
    SubtotalNonNegative(items);
  }

  /**
   * The total is not monotone in the quantity: one more unit that lifts the
   * subtotal from 4000 to 4001 removes the 100 rupee fee and lowers the total.
   */
  lemma TotalNotMonotone(p: Product, c: Option<string>, s: Option<string>)
    requires p.price == 1
    ensures ComputeTotals([CartItem(p, 4001, c, s)]).total < ComputeTotals([CartItem(p, 4000, c, s)]).total
  {
    assert [CartItem(p, 4001, c, s)][..0] == [];
    assert [CartItem(p, 4000, c, s)][..0] == [];
    assert Subtotal([CartItem(p, 4001, c, s)]) == 4001;
    assert Subtotal([CartItem(p, 4000, c, s)]) == 4000;
  }

  // ---------------------------------------------------------------- the page

  /** The minus button asks for one less, but never for less than 1. */
  function DecrementRequest(quantity: int): (r: int)
    ensures r >= 1
    ensures quantity >= 2 ==> r == quantity - 1
    ensures quantity <= 1 ==> r == 1
  {
    if quantity - 1 > 1 then quantity - 1 else 1
  }

  /** The plus button asks for exactly one more, with no upper bound. */
  function IncrementRequest(quantity: int): (r: int)
    ensures r == quantity + 1
  {
    quantity + 1
  }

  /** From any quantity of at least 1, the minus button undoes the plus button. */
  lemma DecrementUndoesIncrement(quantity: int)
    requires quantity >= 1
    ensures DecrementRequest(IncrementRequest(quantity)) == quantity
  {
  }

  /** "You qualify for free shipping!" */
  predicate FreeShippingNoteShown(subtotal: int)
    ensures FreeShippingNoteShown(subtotal) <==> subtotal > FREE_SHIPPING_ABOVE
    ensures FreeShippingNoteShown(subtotal) ==> AddMoreHint(subtotal).None?
  {
    Shipping(subtotal) == 0
  }

  /** "Add ₹X more for free shipping", shown when shipping is charged and the subtotal is below 4000. */
  function AddMoreHint(subtotal: int): (r: Option<int>)
    ensures r.Some? <==> subtotal < FREE_SHIPPING_ABOVE
    ensures r.Some? ==> r.value > 0 && subtotal + r.value == FREE_SHIPPING_ABOVE
  {
    if Shipping(subtotal) > 0 && subtotal < FREE_SHIPPING_ABOVE then Some(FREE_SHIPPING_ABOVE - subtotal) else None
  }

  /** At a subtotal of exactly 4000 the page shows neither the free-shipping note nor the hint. */
  lemma NoNoteAtThreshold()
    ensures !FreeShippingNoteShown(FREE_SHIPPING_ABOVE) && AddMoreHint(FREE_SHIPPING_ABOVE) == None
  {
  }

  /** The two notes never show together, and one of them shows below and above the threshold. */
  lemma NotesExclusive(subtotal: int)
    ensures !(FreeShippingNoteShown(subtotal) && AddMoreHint(subtotal).Some?)
    ensures subtotal != FREE_SHIPPING_ABOVE ==> FreeShippingNoteShown(subtotal) || AddMoreHint(subtotal).Some?
  {
  }

  /** As written, adding the hinted amount lands exactly on 4000, which still pays shipping. */
  lemma HintFallsShort(subtotal: int)
    requires AddMoreHint(subtotal).Some?
    ensures Shipping(subtotal + AddMoreHint(subtotal).value) == SHIPPING_FEE
  {
  }

  /** Corrected hint: the least whole-rupee amount that makes shipping free, whenever shipping is charged. */
  function CorrectedAddMoreHint(subtotal: int): (r: Option<int>)
    ensures r.Some? <==> Shipping(subtotal) > 0
    ensures r.Some? ==> r.value > 0 && Shipping(subtotal + r.value) == 0
    ensures r.Some? ==> Shipping(subtotal + r.value - 1) > 0
  {
    if Shipping(subtotal) > 0 then Some(FREE_SHIPPING_ABOVE + 1 - subtotal) else None
  }

  datatype CartView = EmptyCart | Summary(lines: seq<CartItem>, totals: Totals)

  /** An empty cart renders the empty state; any other cart renders its lines and totals. */
  function View(items: seq<CartItem>): (v: CartView)
    ensures v.EmptyCart? <==> items == []
    ensures v.Summary? ==> v.lines == items && v.totals.subtotal == Subtotal(items)
  {
    if |items| == 0 then EmptyCart else Summary(items, ComputeTotals(items))
  }
}
