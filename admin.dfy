/**
 * The admin dashboard (src/components/AdminDashboard.tsx): the headline
 * figures, the five-row previews, and the product table's name search.
 * The search box's text is a parameter.
 */
module Admin {
  import opened Types
  import opened Text
  import opened Seqs
  import opened ProductListing

  /** `orders.reduce((sum, order) => sum + order.total, 0)`, folded from the left. */
  function Revenue(orders: seq<Order>): (r: real)
    ensures |orders| == 1 ==> r == orders[0].total
    decreases |orders|
  {
    if orders == [] then 0.0
    else
      Revenue(orders[..|orders| - 1]) + orders[|orders| - 1].total
  }

  /** Revenue adds up over consecutive runs of orders. */
  lemma {:induction false} RevenueConcat(a: seq<Order>, b: seq<Order>)
    ensures Revenue(a + b) == Revenue(a) + Revenue(b)
    decreases |b|
  {
    if b == [] {
      assert a + b == a;
    } else {
      var last := b[|b| - 1];
      assert (a + b)[..|a + b| - 1] == a + b[..|b| - 1];
      RevenueConcat(a, b[..|b| - 1]);
    }
  }

  /** When every order total lies in [lo, hi], the revenue of n orders lies in [n lo, n hi]. */
  lemma {:induction false} RevenueBounds(orders: seq<Order>, lo: real, hi: real)
    requires forall o :: o in orders ==> lo <= o.total <= hi
    ensures |orders| as real * lo <= Revenue(orders) <= |orders| as real * hi
    decreases |orders|
  {
    if orders != [] {
      var init, last := orders[..|orders| - 1], orders[|orders| - 1];
      InitTotals(orders, lo, hi);
      RevenueBounds(init, lo, hi);
      StepBounds(|init| as real, Revenue(init), last.total, lo, hi);
    }
  }

  lemma InitTotals(orders: seq<Order>, lo: real, hi: real)
    requires orders != []
    requires forall o :: o in orders ==> lo <= o.total <= hi
    ensures forall o :: o in orders[..|orders| - 1] ==> lo <= o.total <= hi
    ensures lo <= orders[|orders| - 1].total <= hi
  {
    assert orders[|orders| - 1] in orders;
  }

  lemma StepBounds(m: real, sum: real, t: real, lo: real, hi: real)
    requires m * lo <= sum <= m * hi && lo <= t <= hi
    ensures (m + 1.0) * lo <= sum + t <= (m + 1.0) * hi
  {
    Distribute(m, lo);
    Distribute(m, hi);
  }

  lemma Distribute(m: real, x: real)
    ensures (m + 1.0) * x == m * x + x
  {
  }

  datatype DashboardStats = DashboardStats(totalRevenue: real, totalOrders: nat, totalProducts: nat, avgOrderValue: real)

  /** The four headline figures; the average is 0 when there are no orders. */
  function Stats(products: seq<Product>, orders: seq<Order>): (s: DashboardStats)
    ensures s.totalRevenue == Revenue(orders)
    ensures s.totalOrders == |orders| && s.totalProducts == |products|
    ensures orders == [] ==> s.avgOrderValue == 0.0
    ensures orders != [] ==> s.avgOrderValue * |orders| as real == s.totalRevenue
  {
    var revenue := Revenue(orders);
    var count := |orders|;
    DashboardStats(revenue, count, |products|, if count > 0 then revenue / count as real else 0.0)
  }

  /** The average order value lies between the smallest and the largest order total. */
  lemma AverageWithinBounds(products: seq<Product>, orders: seq<Order>, lo: real, hi: real)
    requires orders != []
    requires forall o :: o in orders ==> lo <= o.total <= hi
    ensures lo <= Stats(products, orders).avgOrderValue <= hi
  {
    RevenueBounds(orders, lo, hi);
    var st := Stats(products, orders);
    AverageBetween(|orders| as real, st.totalRevenue, st.avgOrderValue, lo, hi);
  }

  /** An average of n values whose sum lies in [n lo, n hi] lies in [lo, hi]. */
  lemma AverageBetween(n: real, sum: real, avg: real, lo: real, hi: real)
    requires n > 0.0 && avg * n == sum
    requires n * lo <= sum <= n * hi
    ensures lo <= avg <= hi
  {
    Difference(n, avg, lo);
    SignOfProduct(n, avg - lo);
    Difference(n, hi, avg);
    SignOfProduct(n, hi - avg);
  }

  lemma Difference(n: real, x: real, y: real)
    ensures n * (x - y) == x * n - y * n
  {
  }

  /** Dividing by a positive count keeps the sign. */
  lemma SignOfProduct(n: real, d: real)
    requires n > 0.0 && n * d >= 0.0
    ensures d >= 0.0
  {
  }

  const PREVIEW_ROWS := 5

  /**
   * `slice(0, 5)`: the first five entries, in list order. The dashboard
   * previews its "Recent Orders" and its "Top Selling Products" this way.
   */
  function Preview<T>(xs: seq<T>): (r: seq<T>)
    ensures |r| == if |xs| < PREVIEW_ROWS then |xs| else PREVIEW_ROWS
    ensures r <= xs
  {
    Take(xs, PREVIEW_ROWS)
  }

  predicate NameMatches(p: Product, query: string) {
    Includes(Lower(p.name), Lower(query))
  }

  /** The product table: the products whose lower-cased name contains the lower-cased query, in order. */
  function NameSearch(products: seq<Product>, query: string): (r: seq<Product>)
    ensures forall p :: p in r <==> p in products && NameMatches(p, query)
    ensures IsSubseq(r, products)
  {
    FilterIsSubseq((p: Product) => NameMatches(p, query), products);
    Filter((p: Product) => NameMatches(p, query), products)
  }

  /** An empty search box lists every product. */
  lemma EmptyNameSearchKeepsAll(products: seq<Product>)
    ensures NameSearch(products, "") == products
  {
    forall p | p in products ensures NameMatches(p, "") {
      IncludesEmpty(Lower(p.name));
    }
    FilterKeepsAll((p: Product) => NameMatches(p, ""), products);
  }

  /** The admin's name search never finds a product the storefront's search would miss. */
  lemma NameSearchWithinStoreSearch(products: seq<Product>, query: string, p: Product)
    requires p in NameSearch(products, query)
    ensures p in SearchFilter(products, query)
  {
  }
}
