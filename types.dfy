/** Records shared by the storefront components (src/types/index.ts). */
module Types {

  /** `None` stands for a JavaScript `undefined` (or `null`) value. */
  datatype Option<+T> = None | Some(value: T)

  datatype Role = Customer | Admin

  /**
   * A catalogue product. Prices are whole rupees; `originalPrice` is the
   * optional pre-discount price; `featured` absent is the same as false.
   */
  datatype Product = Product(
    id: string,
    name: string,
    description: string,
    price: int,
    originalPrice: Option<int>,
    category: string,
    brand: string,
    rating: real,
    reviewCount: int,
    images: seq<string>,
    colors: seq<string>,
    sizes: seq<string>,
    inStock: bool,
    featured: bool)

  /** One cart line: a product in a chosen colour and size. */
  datatype CartItem = CartItem(
    product: Product,
    quantity: int,
    selectedColor: Option<string>,
    selectedSize: Option<string>)

  datatype Address = Address(street: string, city: string, state: string, pincode: string)

  datatype User = User(
    id: string,
    name: string,
    email: string,
    role: Role,
    address: Option<Address>)

  datatype OrderStatus = Pending | Processing | Shipped | Delivered | Cancelled

  datatype PaymentMethod = Card | Upi | Cod

  datatype DeliveryAddress = DeliveryAddress(
    name: string, phone: string, street: string, city: string, state: string, pincode: string)

  datatype Order = Order(
    id: string,
    userId: string,
    items: seq<CartItem>,
    total: real,
    status: OrderStatus,
    date: string,
    deliveryAddress: DeliveryAddress,
    paymentMethod: PaymentMethod)

  /** The JavaScript truthiness of an optional number: present and non-zero. */
  predicate Truthy(n: Option<int>) {
    n.Some? && n.value != 0
  }

  /** The JavaScript truthiness of an optional string: present and non-empty. */
  predicate TruthyText(s: Option<string>) {
    s.Some? && s.value != ""
  }

  /** `xs[0]` in JavaScript: undefined for an empty list. */
  function First(xs: seq<string>): (r: Option<string>)
    ensures r.Some? <==> |xs| > 0
    ensures r.Some? ==> r.value == xs[0]
  {
    if |xs| == 0 then None else Some(xs[0])
  }

  /** `a || b` on optional strings: `a` when truthy, else `b`. */
  function OrElse(a: Option<string>, b: Option<string>): (r: Option<string>)
    ensures TruthyText(a) ==> r == a
    ensures !TruthyText(a) ==> r == b
  {
    if TruthyText(a) then a else b
  }

  /** `xs.slice(0, n)`. */
  function Take<T>(xs: seq<T>, n: nat): (r: seq<T>)
    ensures |r| == if n < |xs| then n else |xs|
    ensures forall i :: 0 <= i < |r| ==> r[i] == xs[i]
  {
    if n < |xs| then xs[..n] else xs
  }
}
