/**
 * The session controller (src/App.tsx): the page, cart, wishlist, login
 * and filter state held by the top-level component, and the handlers that
 * change it.
 */
module Storefront {
  import opened Types
  import opened Text
  import opened Seqs
  import opened CartLines

  datatype Page =
    | HomePage | ProductsPage | ProductDetailsPage | CartPage | CheckoutPage
    | LoginPage | SignupPage | ProfilePage | AdminPage | WishlistPage

  datatype AuthMode = LoginMode | SignupMode

  /** What the navigation guard does with a requested page. */
  datatype Decision = Allowed | RedirectToLogin | Denied

  predicate IsAdmin(user: Option<User>) {
    user.Some? && user.value.role == Admin
  }

  /** Profile and admin need a login; admin also needs the admin role. */
  function GuardDecision(page: Page, isLoggedIn: bool, user: Option<User>): (d: Decision)
    ensures d == RedirectToLogin <==> (page == ProfilePage || page == AdminPage) && !isLoggedIn
    ensures d == Denied <==> page == AdminPage && isLoggedIn && !IsAdmin(user)
    ensures page != ProfilePage && page != AdminPage ==> d == Allowed
  {
    if (page == ProfilePage || page == AdminPage) && !isLoggedIn then RedirectToLogin
    else if page == AdminPage && !IsAdmin(user) then Denied
    else Allowed
  }

  /** The user a mock login creates: named by the text before '@', admin exactly when the address contains "admin". */
  function MockLoginUser(id: string, email: string): (u: User)
    ensures u.role == Admin <==> Includes(email, "admin")
    ensures u.email == email && u.id == id && u.address == None
    ensures '@' !in u.name && |u.name| <= |email| && u.name == email[..|u.name|]
    ensures |u.name| < |email| ==> email[|u.name|] == '@'
  {
    User(id, BeforeAt(email), email, if Includes(email, "admin") then Admin else Customer, None)
  }

  /** `findIndex` over the cart, as a loop. */
  method FindLineIndex(cart: seq<CartItem>, id: string, color: Option<string>, size: Option<string>)
    returns (index: int)
    ensures index == KeyIndex(cart, id, color, size)
  {
    index := 0;
    while index < |cart|
      invariant 0 <= index <= |cart|
      invariant forall j :: 0 <= j < index ==> !SameKey(cart[j], id, color, size)
    {
      if SameKey(cart[index], id, color, size) {
        return;
      }
      index := index + 1;
    }
    index := -1;
  }

  /** No product before index `i` carries the id. */
  predicate FirstWithId(catalog: seq<Product>, i: int, id: Option<string>)
    requires 0 <= i <= |catalog|
  {
    forall j :: 0 <= j < i ==> Some(catalog[j].id) != id
  }

  /** `mockProducts.find(p => p.id === selectedProductId)`: the first product with the id. */
  function FindProduct(catalog: seq<Product>, id: Option<string>): (r: Option<Product>)
    ensures r.Some? ==> Some(r.value.id) == id
    ensures r.Some? ==> exists i :: 0 <= i < |catalog| && catalog[i] == r.value && FirstWithId(catalog, i, id)
    ensures r.None? ==> forall p :: p in catalog ==> Some(p.id) != id
    decreases |catalog|
  {
    if catalog == [] then None
    else if Some(catalog[0].id) == id then Some(catalog[0])
    else
      var r := FindProduct(catalog[1..], id);
      if r.Some? then
        var i :| 0 <= i < |catalog[1..]| && catalog[1..][i] == r.value && FirstWithId(catalog[1..], i, id);
        assert catalog[i + 1] == r.value;
        assert FirstWithId(catalog, i + 1, id) by {
          forall j | 0 <= j < i + 1 ensures Some(catalog[j].id) != id {
            if j > 0 { assert catalog[j] == catalog[1..][j - 1]; }
          }
        }
        r
      else
        r
  }

  const RELATED_LIMIT := 4

  /** The related-products test: another product of the selected product's category. */
  function SameCategory(catalog: seq<Product>, selectedId: Option<string>): (keep: Product -> bool)
    ensures FindProduct(catalog, selectedId).None? ==> forall p :: !keep(p)
    ensures forall p :: keep(p) ==> Some(p.id) != selectedId
    ensures forall p, q :: keep(p) && keep(q) ==> p.category == q.category
  {
    var selected := FindProduct(catalog, selectedId);
    (p: Product) => Some(p.id) != selectedId && selected.Some? && p.category == selected.value.category
  }

  /**
   * The first four other products of the selected product's category, in
   * catalogue order.
   */
  function RelatedProducts(catalog: seq<Product>, selectedId: Option<string>): (r: seq<Product>)
    ensures var same := Filter(SameCategory(catalog, selectedId), catalog);
      && r <= same
      && |r| == if |same| < RELATED_LIMIT then |same| else RELATED_LIMIT
    ensures FindProduct(catalog, selectedId).None? ==> r == []
    ensures forall p :: p in r ==>
      (p in catalog && Some(p.id) != selectedId && p.category == FindProduct(catalog, selectedId).value.category)
  {
    var keep := SameCategory(catalog, selectedId);
    var same := Filter(keep, catalog);
    var r := Take(same, RELATED_LIMIT);
    assert r <= same;
    assert forall i :: 0 <= i < |r| ==> r[i] in same;
    if FindProduct(catalog, selectedId).None? then
      FilterKeepsNone(keep, catalog);
      r
    else
      r
  }

  /** The home page's featured products, in catalogue order. */
  function FeaturedProducts(catalog: seq<Product>): (r: seq<Product>)
    ensures forall p :: p in r <==> p in catalog && p.featured
    ensures IsSubseq(r, catalog)
  {
    FilterIsSubseq((p: Product) => p.featured, catalog);
    Filter((p: Product) => p.featured, catalog)
  }

  /** A snapshot of every field of the controller. */
  datatype Session = Session(
    currentPage: Page,
    selectedProductId: Option<string>,
    selectedCategory: Option<string>,
    searchQuery: string,
    cartItems: seq<CartItem>,
    wishlistItems: seq<Product>,
    isLoggedIn: bool,
    currentUser: Option<User>,
    authMode: AuthMode,
    showLogoutModal: bool)

  class App {
    var currentPage: Page
    var selectedProductId: Option<string>
    var selectedCategory: Option<string>
    var searchQuery: string
    var cartItems: seq<CartItem>
    var wishlistItems: seq<Product>
    var isLoggedIn: bool
    var currentUser: Option<User>
    var authMode: AuthMode
    var showLogoutModal: bool

    function State(): Session
      reads this
    {
      Session(currentPage, selectedProductId, selectedCategory, searchQuery, cartItems, wishlistItems,
              isLoggedIn, currentUser, authMode, showLogoutModal)
    }

    /**
     * The login flag and the user are set and cleared together, cart keys are
     * unique, the wishlist holds each product id at most once, and the admin
     * page is current only for a logged-in admin.
     */
    predicate Valid()
      reads this
    {
      && (isLoggedIn <==> currentUser.Some?)
      && UniqueKeys(cartItems)
      && DistinctIds(wishlistItems)
      && (currentPage == AdminPage ==> isLoggedIn && IsAdmin(currentUser))
    }

    /** The render's second admin check, which shows "Access Denied" instead of the dashboard. */
    predicate AccessDeniedShown()
      reads this
    {
      currentPage == AdminPage && (!isLoggedIn || !IsAdmin(currentUser))
    }

    constructor ()
      ensures Valid()
      ensures State() == Session(HomePage, None, None, "", [], [], false, None, LoginMode, false)
    {
      currentPage, selectedProductId, selectedCategory, searchQuery := HomePage, None, None, "";
      cartItems, wishlistItems := [], [];
      isLoggedIn, currentUser := false, None;
      authMode, showLogoutModal := LoginMode, false;
    }

    /**
     * `handleNavigate`: the guard may send the visitor to login or refuse the
     * admin page; otherwise the page changes and the category and search are
     * cleared as the target page needs. Cart, wishlist and login never change.
     */
    method Navigate(page: Page, category: Option<string>)
      requires Valid()
      modifies this
      ensures Valid()
      ensures var d := GuardDecision(page, old(isLoggedIn), old(currentUser));
        && (d == RedirectToLogin ==> State() == old(State()).(currentPage := LoginPage))
        && (d == Denied ==> State() == old(State()))
        && (d == Allowed ==> State() == old(State()).(
              currentPage := page,
              selectedCategory := if page == ProductsPage then category else None,
              searchQuery := if page == ProductsPage && !TruthyText(category) then old(searchQuery) else ""))
    {
      if (page == ProfilePage || page == AdminPage) && !isLoggedIn {
        currentPage := LoginPage;
        return;
      }
      if page == AdminPage && !IsAdmin(currentUser) {
        return;
      }
      currentPage := page;
      if page == ProductsPage {
        selectedCategory := category;
        if TruthyText(category) {
          searchQuery := "";
        }
      } else {
        selectedCategory := None;
        searchQuery := "";
      }
    }

    /**
     * The callbacks that set the page directly, bypassing `handleNavigate`:
     * "Go to Home" on the access-denied screen, "back" from a product page and
     * "Continue Shopping" (products), "Back to Cart" from checkout. Category
     * and search are kept, so the listing comes back filtered as it was.
     */
    method ShowPage(page: Page)
      requires page == HomePage || page == ProductsPage || page == CartPage
      requires Valid()
      modifies this
      ensures Valid()
      ensures State() == old(State()).(currentPage := page)
    {
      currentPage := page;
    }

    /** `handleSearch`: set the query, drop the category and show the products page. */
    method Search(query: string)
      requires Valid()
      modifies this
      ensures Valid()
      ensures State() == old(State()).(searchQuery := query, selectedCategory := None, currentPage := ProductsPage)
    {
      searchQuery := query;
      selectedCategory := None;
      currentPage := ProductsPage;
    }

    method ViewProduct(id: string)
      requires Valid()
      modifies this
      ensures Valid()
      ensures State() == old(State()).(selectedProductId := Some(id), currentPage := ProductDetailsPage)
    {
      selectedProductId := Some(id);
      currentPage := ProductDetailsPage;
    }

    method ToggleWishlist(p: Product)
      requires Valid()
      modifies this
      ensures Valid()
      ensures State() == old(State()).(wishlistItems := CartLines.ToggleWishlist(old(wishlistItems), p))
    {
      WishlistStaysDistinct(wishlistItems, p, p.id);
      wishlistItems := CartLines.ToggleWishlist(wishlistItems, p);
    }

    method RemoveFromWishlist(id: string)
      requires Valid()
      modifies this
      ensures Valid()
      ensures State() == old(State()).(wishlistItems := CartLines.RemoveFromWishlist(old(wishlistItems), id))
    {
      WishlistStaysDistinct(wishlistItems, Product(id, "", "", 0, None, "", "", 0.0, 0, [], [], [], false, false), id);
      wishlistItems := CartLines.RemoveFromWishlist(wishlistItems, id);
    }

    /**
     * `handleAddToCart`: find the line with the same id, colour and size
     * (colour and size defaulting to the product's first options), then grow
     * that line in place or append a new one.
     */
    method AddToCart(p: Product, quantity: int, color: Option<string>, size: Option<string>)
      requires Valid()
      modifies this
      ensures Valid()
      ensures State() == old(State()).(cartItems := AddLine(old(cartItems), p, quantity, color, size))
    {
      var c, s := ResolveColor(p, color), ResolveSize(p, size);
      var i := FindLineIndex(cartItems, p.id, c, s);
      AddKeepsKeysUnique(cartItems, p, quantity, color, size);
      var next: seq<CartItem>;
      if i >= 0 {
        var line := cartItems[i];
        next := cartItems[i := line.(quantity := line.quantity + quantity)];
      } else {
        next := cartItems + [CartItem(p, quantity, c, s)];
      }
      assert next == AddLine(cartItems, p, quantity, color, size);
      cartItems := next;
    }

    /** `handleUpdateCartQuantity`: no clamping, and every variant of the product is updated. */
    method UpdateCartQuantity(id: string, quantity: int)
      requires Valid()
      modifies this
      ensures Valid()
      ensures State() == old(State()).(cartItems := SetQuantity(old(cartItems), id, quantity))
    {
      UpdateKeepsKeysUnique(cartItems, id, quantity);
      cartItems := SetQuantity(cartItems, id, quantity);
    }

    method RemoveFromCart(id: string)
      requires Valid()
      modifies this
      ensures Valid()
      ensures State() == old(State()).(cartItems := RemoveProduct(old(cartItems), id))
    {
      RemoveKeepsKeysUnique(cartItems, id);
      cartItems := RemoveProduct(cartItems, id);
    }

    /** `handleCheckout`: checkout needs a login, otherwise the login page is shown. */
    method Checkout()
      requires Valid()
      modifies this
      ensures Valid()
      ensures State() == old(State()).(currentPage := if old(isLoggedIn) then CheckoutPage else LoginPage)
    {
      if !isLoggedIn {
        currentPage := LoginPage;
        return;
      }
      currentPage := CheckoutPage;
    }

    /** `handlePlaceOrder`: the cart is emptied at once; the page changes later (see `OrderRedirectElapsed`). */
    method PlaceOrder()
      requires Valid()
      modifies this
      ensures Valid()
      ensures State() == old(State()).(cartItems := [])
    {
      cartItems := [];
    }

    /** The timer started by `handlePlaceOrder` fires: back to the home page. */
    method OrderRedirectElapsed()
      requires Valid()
      modifies this
      ensures Valid()
      ensures State() == old(State()).(currentPage := HomePage)
    {
      currentPage := HomePage;
    }

    /**
     * `handleLogin`: a mock user (its id, from the clock, is a parameter),
     * logged in and sent to the admin dashboard or the home page by role.
     */
    method Login(email: string, password: string, userId: string)
      requires Valid()
      modifies this
      ensures Valid()
      ensures State() == old(State()).(
        currentUser := Some(MockLoginUser(userId, email)),
        isLoggedIn := true,
        currentPage := if Includes(email, "admin") then AdminPage else HomePage)
    {
      var user := MockLoginUser(userId, email);
      currentUser := Some(user);
      isLoggedIn := true;
      if user.role == Admin {
        currentPage := AdminPage;
      } else {
        currentPage := HomePage;
      }
    }

    /** `handleSignup`: the user gets the chosen name and role. */
    method Signup(name: string, email: string, password: string, role: Role, userId: string)
      requires Valid()
      modifies this
      ensures Valid()
      ensures State() == old(State()).(
        currentUser := Some(User(userId, name, email, role, None)),
        isLoggedIn := true,
        currentPage := if role == Admin then AdminPage else HomePage)
    {
      currentUser := Some(User(userId, name, email, role, None));
      isLoggedIn := true;
      if role == Admin {
        currentPage := AdminPage;
      } else {
        currentPage := HomePage;
      }
    }

    method LogoutClick()
      requires Valid()
      modifies this
      ensures Valid()
      ensures State() == old(State()).(showLogoutModal := true)
    {
      showLogoutModal := true;
    }

    /** `handleLogoutConfirm`: forget the user and go home; the cart and the wishlist stay. */
    method LogoutConfirm()
      requires Valid()
      modifies this
      ensures Valid()
      ensures State() == old(State()).(isLoggedIn := false, currentUser := None, currentPage := HomePage,
                                       showLogoutModal := false)
    {
      isLoggedIn := false;
      currentUser := None;
      currentPage := HomePage;
      showLogoutModal := false;
    }

    method LogoutCancel()
      requires Valid()
      modifies this
      ensures Valid()
      ensures State() == old(State()).(showLogoutModal := false)
    {
      showLogoutModal := false;
    }

    method ToggleAuthMode()
      requires Valid()
      modifies this
      ensures Valid()
      ensures State() == old(State()).(authMode := if old(authMode) == LoginMode then SignupMode else LoginMode)
    {
      authMode := if authMode == LoginMode then SignupMode else LoginMode;
    }
  }

  /** Because the handlers keep `Valid`, the render's second admin check never shows "Access Denied". */
  lemma AccessDeniedUnreachable(app: App)
    requires app.Valid()
    ensures !app.AccessDeniedShown()
  {
  }

  /** After a login with an address containing "admin", the guard lets the user into the dashboard. */
  lemma AdminLoginPassesGuard(userId: string, email: string)
    requires Includes(email, "admin")
    ensures GuardDecision(AdminPage, true, Some(MockLoginUser(userId, email))) == Allowed
  {
  }

  /** The guard refuses profile and admin pages to visitors and the admin page to customers, and nothing else. */
  lemma GuardOnlyProtectsTwoPages(page: Page, isLoggedIn: bool, user: Option<User>)
    requires GuardDecision(page, isLoggedIn, user) != Allowed
    ensures page == ProfilePage || page == AdminPage
  {
  }

  /** The cart scenario: 2 then 1 of the same variant make one line of 3; another colour makes a second line. */
  lemma CartScenario(p: Product)
    requires p.price == 1000
    ensures var red, m := Some("Red"), Some("M");
      var once := AddLine([], p, 2, red, m);
      var twice := AddLine(once, p, 1, red, m);
      && |twice| == 1 && twice[0].quantity == 3 && CartPricing.Subtotal(twice) == 3000
      && |AddLine(twice, p, 1, Some("Blue"), m)| == 2
  {
    var red, m := Some("Red"), Some("M");
    var once := AddLine([], p, 2, red, m);
    assert SameKey(once[0], p.id, red, m);
    var twice := AddLine(once, p, 1, red, m);
    assert twice == [CartItem(p, 3, red, m)];
    assert twice[..0] == [];
    assert !SameKey(twice[0], p.id, Some("Blue"), m);
  }
}
