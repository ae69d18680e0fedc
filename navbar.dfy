/**
 * The navigation bar (src/components/Navbar.tsx): the search box with its
 * recommendation dropdown, the mobile menu flag, and which actions are
 * offered to whom.
 */
module Navbar {
  import opened Types
  import opened Text
  import opened Seqs
  import opened ProductListing
  import opened Storefront

  const MAX_RECOMMENDATIONS := 6

  /**
   * `recommendations`: nothing for a blank query, else the first six
   * catalogue products the products page's search would keep for the same
   * (untrimmed) query.
   */
  function Recommend(products: seq<Product>, query: string): (r: seq<Product>)
    ensures Trim(query) == [] ==> r == []
    ensures |r| <= MAX_RECOMMENDATIONS
    ensures forall p :: p in r ==> p in products && MatchesQuery(p, query)
    ensures Trim(query) != [] ==> r <= SearchFilter(products, query)
    ensures Trim(query) != [] ==>
      |r| == if |SearchFilter(products, query)| < MAX_RECOMMENDATIONS then |SearchFilter(products, query)| else MAX_RECOMMENDATIONS
    ensures IsSubseq(r, products)
  {
    if Trim(query) == [] then
      []
    else
      TrimEmptyIff(query);
      var matching := Filter((p: Product) => MatchesQuery(p, query), products);
      var r := Take(matching, MAX_RECOMMENDATIONS);
      assert r <= matching;
      assert forall p :: p in r ==> p in matching by {
        forall p | p in r ensures p in matching {
          var i :| 0 <= i < |r| && r[i] == p;
          assert matching[i] == p;
        }
      }
      PrefixIsSubseq(r, matching);
      FilterIsSubseq((p: Product) => MatchesQuery(p, query), products);
      SubseqTrans(r, matching, products);
      r
  }

  /** The buttons the bar can show. */
  datatype NavAction = GoWishlist | GoAdmin | GoProfile | GoCart | Logout | GoLogin

  /** The page a button asks for; Logout opens the confirmation instead. */
  function Target(a: NavAction): (r: Option<Page>)
    ensures r.None? <==> a == Logout
    ensures r != Some(HomePage) && r != Some(ProductsPage)
  {
    match a
    case GoWishlist => Some(WishlistPage)
    case GoAdmin => Some(AdminPage)
    case GoProfile => Some(ProfilePage)
    case GoCart => Some(CartPage)
    case Logout => None
    case GoLogin => Some(LoginPage)
  }

  /** `currentUser?.role`. */
  function RoleOf(user: Option<User>): (r: Option<Role>)
    ensures r.Some? <==> user.Some?
  {
    if user.Some? then Some(user.value.role) else None
  }

  /** The desktop actions: the wishlist always; admin, customer and visitor each get their own. */
  function DesktopActions(isLoggedIn: bool, role: Option<Role>): (r: set<NavAction>)
    ensures GoWishlist in r
    ensures GoAdmin in r <==> isLoggedIn && role == Some(Admin)
    ensures GoProfile in r <==> isLoggedIn && role == Some(Customer)
    ensures GoCart in r <==> !isLoggedIn || role == Some(Customer)
    ensures Logout in r <==> isLoggedIn
    ensures GoLogin in r <==> !isLoggedIn
  {
    if isLoggedIn then
      {GoWishlist, Logout}
        + (if role == Some(Admin) then {GoAdmin} else {})
        + (if role == Some(Customer) then {GoProfile, GoCart} else {})
    else
      {GoWishlist, GoCart, GoLogin}
  }

  /** The mobile menu: the wishlist is offered to customers and visitors only. */
  function MobileActions(isLoggedIn: bool, role: Option<Role>): (r: set<NavAction>)
    ensures GoWishlist in r <==> !isLoggedIn || role == Some(Customer)
    ensures GoAdmin in r <==> isLoggedIn && role == Some(Admin)
    ensures GoProfile in r <==> isLoggedIn && role == Some(Customer)
    ensures GoCart in r <==> !isLoggedIn || role == Some(Customer)
    ensures Logout in r <==> isLoggedIn
    ensures GoLogin in r <==> !isLoggedIn
  {
    if isLoggedIn then
      {Logout}
        + (if role == Some(Admin) then {GoAdmin} else {})
        + (if role == Some(Customer) then {GoProfile, GoWishlist, GoCart} else {})
    else
      {GoWishlist, GoCart, GoLogin}
  }

  /** No button the bar shows leads to a page the navigation guard turns away. */
  lemma OfferedPagesPassGuard(isLoggedIn: bool, user: Option<User>, a: NavAction)
    requires isLoggedIn <==> user.Some?
    requires a in DesktopActions(isLoggedIn, RoleOf(user)) + MobileActions(isLoggedIn, RoleOf(user))
    requires Target(a).Some?
    ensures GuardDecision(Target(a).value, isLoggedIn, user) == Allowed
  {
  }

  class NavbarState {
    var searchQuery: string
    var showRecommendations: bool
    var mobileMenuOpen: bool

    constructor ()
      ensures searchQuery == "" && !showRecommendations && !mobileMenuOpen
    {
      searchQuery, showRecommendations, mobileMenuOpen := "", false, false;
    }

    /** The dropdown's contents for the current query. */
    function Recommendations(products: seq<Product>): (r: seq<Product>)
      reads this
      ensures Trim(searchQuery) == [] ==> r == []
      ensures |r| <= MAX_RECOMMENDATIONS
    {
      Recommend(products, searchQuery)
    }

    /** The dropdown is drawn when it is open and has something to show. */
    predicate DropdownShown(products: seq<Product>)
      reads this
      ensures DropdownShown(products) ==> showRecommendations && Trim(searchQuery) != []
    {
      showRecommendations && |Recommendations(products)| > 0
    }

    /** `handleSearchChange`: the dropdown opens exactly when the trimmed text is non-empty. */
    method SearchChange(value: string)
      modifies this
      ensures searchQuery == value
      ensures showRecommendations <==> Trim(value) != []
      ensures mobileMenuOpen == old(mobileMenuOpen)
    {
      searchQuery := value;
      showRecommendations := Trim(value) != [];
    }

    /**
     * `handleSearch`: a blank query does nothing; otherwise the untrimmed
     * query is passed to `onSearch` (returned here), the products page is
     * requested, and the dropdown closes.
     */
    method SubmitSearch() returns (submitted: Option<string>)
      modifies this
      ensures submitted.None? <==> Trim(old(searchQuery)) == []
      ensures submitted.Some? ==> submitted.value == old(searchQuery) && !showRecommendations
      ensures submitted.None? ==> showRecommendations == old(showRecommendations)
      ensures searchQuery == old(searchQuery) && mobileMenuOpen == old(mobileMenuOpen)
    {
      if Trim(searchQuery) != [] {
        submitted := Some(searchQuery);
        showRecommendations := false;
      } else {
        submitted := None;
      }
    }

    /** `handleSuggestionClick`: the product's name becomes the query and is searched for. */
    method SuggestionClick(p: Product) returns (submitted: string)
      modifies this
      ensures submitted == p.name && searchQuery == p.name && !showRecommendations
      ensures mobileMenuOpen == old(mobileMenuOpen)
    {
      searchQuery := p.name;
      submitted := p.name;
      showRecommendations := false;
    }

    /** Focusing the box reopens the dropdown when there is a query. */
    method Focus()
      modifies this
      ensures showRecommendations <==> old(showRecommendations) || Trim(searchQuery) != []
      ensures searchQuery == old(searchQuery) && mobileMenuOpen == old(mobileMenuOpen)
    {
      if Trim(searchQuery) != [] {
        showRecommendations := true;
      }
    }

    /** A mouse press outside the search box closes the dropdown. */
    method ClickOutside()
      modifies this
      ensures !showRecommendations
      ensures searchQuery == old(searchQuery) && mobileMenuOpen == old(mobileMenuOpen)
    {
      showRecommendations := false;
    }

    method ToggleMobileMenu()
      modifies this
      ensures mobileMenuOpen == !old(mobileMenuOpen)
      ensures searchQuery == old(searchQuery) && showRecommendations == old(showRecommendations)
    {
      mobileMenuOpen := !mobileMenuOpen;
    }

    /** Any link in the mobile menu closes the menu after navigating. */
    method MobileLinkClick()
      modifies this
      ensures !mobileMenuOpen
      ensures searchQuery == old(searchQuery) && showRecommendations == old(showRecommendations)
    {
      mobileMenuOpen := false;
    }
  }
}
