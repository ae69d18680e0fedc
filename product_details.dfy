/**
 * The product page (src/components/ProductDetailsPage.tsx): the selected
 * image, colour, size and quantity, the discount badge, and the two ways a
 * product is sent to the cart from this page.
 */
module ProductDetails {
  import opened Types
  import opened CartPricing
  import opened CartLines

  /** `Math.round`: the nearest integer, halves rounded up. */
  function Round(x: real): (r: int)
    ensures r as real <= x + 0.5 < r as real + 1.0
  {
    (x + 0.5).Floor
  }

  /** The discount in percent, rounded; 0 when there is no (truthy) original price. */
  function Discount(p: Product): (r: int)
    ensures !Truthy(p.originalPrice) ==> r == 0
    ensures Truthy(p.originalPrice) ==>
      var exact := (p.originalPrice.value - p.price) as real / p.originalPrice.value as real * 100.0;
      r as real - 0.5 <= exact < r as real + 0.5
  {
    if Truthy(p.originalPrice) then
      var op := p.originalPrice.value;
      Round((op - p.price) as real / op as real * 100.0)
    else 0
  }

  /** A sale price between nothing and the original price gives a badge between 0% and 100%. */
  lemma DiscountInRange(p: Product)
    requires p.originalPrice.Some? && 0 <= p.price <= p.originalPrice.value && p.originalPrice.value > 0
    ensures 0 <= Discount(p) <= 100
    ensures p.price == p.originalPrice.value ==> Discount(p) == 0
  {
    var op := p.originalPrice.value as real;
    var d := (op - p.price as real) / op;
    assert 0.0 <= d <= 1.0 by {
      assert op - p.price as real <= op;
    }
  }

  /** What the page passes to `onAddToCart`. */
  datatype AddRequest = AddRequest(product: Product, quantity: int, color: Option<string>, size: Option<string>)

  /** The related products' quick-add: one of the product's first colour and first size. */
  function QuickAdd(p: Product): (req: AddRequest)
    ensures req.product == p && req.quantity == 1
    ensures req.color.Some? <==> |p.colors| > 0
    ensures req.size.Some? <==> |p.sizes| > 0
    ensures req.color.Some? ==> req.color.value == p.colors[0]
    ensures req.size.Some? ==> req.size.value == p.sizes[0]
  {
    AddRequest(p, 1, First(p.colors), First(p.sizes))
  }

  /** The cart after a request is handled by the session controller's add-to-cart. */
  function Apply(cart: seq<CartItem>, req: AddRequest): seq<CartItem> {
    AddLine(cart, req.product, req.quantity, req.color, req.size)
  }

  /** A quick-add lands on the same cart line as an add that names no colour and no size. */
  lemma QuickAddIsDefaultVariant(cart: seq<CartItem>, p: Product)
    ensures Apply(cart, QuickAdd(p)) == AddLine(cart, p, 1, None, None)
  {
    assert ResolveColor(p, First(p.colors)) == ResolveColor(p, None);
    assert ResolveSize(p, First(p.sizes)) == ResolveSize(p, None);
  }

  class DetailsSelection {
    var product: Product
    var selectedImage: int
    var selectedColor: Option<string>
    var selectedSize: Option<string>
    var quantity: int

    /** The quantity shown never drops below 1. */
    predicate Valid()
      reads this
    {
      quantity >= 1
    }

    /** The first image, the first colour and size, and one item. */
    constructor (p: Product)
      ensures product == p && selectedImage == 0
      ensures selectedColor == First(p.colors) && selectedSize == First(p.sizes) && quantity == 1
      ensures Valid()
    {
      product := p;
      selectedImage := 0;
      selectedColor := First(p.colors);
      selectedSize := First(p.sizes);
      quantity := 1;
    }

    /**
     * The page receives another product while it stays mounted (a "You May
     * Also Like" card opens it). The component has no key and no effect that
     * resets its state, so the image index, colour, size and quantity carry
     * over, and may name a colour or size the new product does not list.
     */
    method ProductChanged(p: Product)
      requires Valid()
      modifies this
      ensures Valid()
      ensures product == p
      ensures selectedImage == old(selectedImage) && selectedColor == old(selectedColor)
      ensures selectedSize == old(selectedSize) && quantity == old(quantity)
    {
      product := p;
    }

    /** A thumbnail click. */
    method SelectImage(index: int)
      requires 0 <= index < |product.images| && Valid()
      modifies this
      ensures Valid()
      ensures selectedImage == index
      ensures selectedColor == old(selectedColor) && selectedSize == old(selectedSize) && quantity == old(quantity)
      ensures product == old(product)
    {
      selectedImage := index;
    }

    /** A colour swatch click; the swatches are the product's colours. */
    method SelectColor(color: string)
      requires color in product.colors && Valid()
      modifies this
      ensures Valid()
      ensures selectedColor == Some(color)
      ensures selectedImage == old(selectedImage) && selectedSize == old(selectedSize) && quantity == old(quantity)
      ensures product == old(product)
    {
      selectedColor := Some(color);
    }

    /** A size button click; the buttons are the product's sizes. */
    method SelectSize(size: string)
      requires size in product.sizes && Valid()
      modifies this
      ensures Valid()
      ensures selectedSize == Some(size)
      ensures selectedImage == old(selectedImage) && selectedColor == old(selectedColor) && quantity == old(quantity)
      ensures product == old(product)
    {
      selectedSize := Some(size);
    }

    /** The minus button: `Math.max(1, quantity - 1)`. */
    method Decrement()
      requires Valid()
      modifies this
      ensures Valid()
      ensures quantity == DecrementRequest(old(quantity))
      ensures old(quantity) > 1 ==> quantity == old(quantity) - 1
      ensures old(quantity) == 1 ==> quantity == 1
      ensures selectedImage == old(selectedImage) && selectedColor == old(selectedColor) && selectedSize == old(selectedSize)
      ensures product == old(product)
    {
      quantity := if quantity - 1 > 1 then quantity - 1 else 1;
    }

    /** The plus button: no upper bound. */
    method Increment()
      requires Valid()
      modifies this
      ensures Valid()
      ensures quantity == old(quantity) + 1
      ensures selectedImage == old(selectedImage) && selectedColor == old(selectedColor) && selectedSize == old(selectedSize)
      ensures product == old(product)
    {
      quantity := quantity + 1;
    }

    /** `handleAddToCart`: exactly the current quantity, colour and size; the button is disabled when out of stock. */
    method AddToCart() returns (req: AddRequest)
      requires product.inStock && Valid()
      ensures req == AddRequest(product, quantity, selectedColor, selectedSize)
      ensures req.quantity >= 1
    {
      req := AddRequest(product, quantity, selectedColor, selectedSize);
    }
  }
}
