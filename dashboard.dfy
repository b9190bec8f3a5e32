/**
 * The dashboard: which loads it starts for which role, and the figures it
 * derives from the catalogue and the user table.
 */
module Dashboard {
  import opened Wrappers
  import opened Types
  import opened Seqs
  import opened MockApi
  import opened PageKit

  datatype DashboardFetch = FetchProductsRequest | FetchUsersRequest

  /** The mount effect: the catalogue always, the user table only for an administrator. */
  function MountRequests(user: Option<AuthUser>): (r: seq<DashboardFetch>)
    ensures |r| >= 1 && r[0] == FetchProductsRequest
    ensures FetchUsersRequest in r <==> IsAdmin(user)
    ensures |r| <= 2
  {
    [FetchProductsRequest] + if IsAdmin(user) then [FetchUsersRequest] else []
  }

  /** The figures the cards show. */
  datatype DashboardView = DashboardView(
    loading: bool,
    totalProducts: nat,
    totalRevenue: real,
    lowStockProducts: nat,
    totalUsers: nat)

  /** `products.reduce((sum, p) => sum + p.price * p.stock, 0)`, summed from the left. */
  function Revenue(products: seq<Product>): real {
    if products == [] then 0.0
    else
      var last := products[|products| - 1];
      Revenue(products[..|products| - 1]) + last.price * last.stock
  }

  /** A product the dashboard counts as needing attention. */
  predicate NeedsAttention(p: Product) {
    p.status == LowStock || p.status == OutOfStock
  }

  function Metrics(products: seq<Product>, users: seq<User>, productsLoading: bool, usersLoading: bool): DashboardView {
    DashboardView(
      productsLoading || usersLoading,
      |products|,
      Revenue(products),
      |Filter(products, NeedsAttention)|,
      |users|)
  }

  /** The user count card is shown to administrators only. */
  predicate ShowsUserCount(user: Option<AuthUser>) {
    IsAdmin(user)
  }

  /** Revenue is additive: the catalogue's revenue is the sum over any split of it. */
  lemma {:induction false} RevenueAppend(a: seq<Product>, b: seq<Product>)
    ensures Revenue(a + b) == Revenue(a) + Revenue(b)
    decreases |b|
  {
    if b != [] {
      var init := b[..|b| - 1];
      RevenueAppend(a, init);
      assert (a + b)[..|a + b| - 1] == a + init;
      assert (a + b)[|a + b| - 1] == b[|b| - 1];
    } else {
      assert a + b == a;
    }
  }

  /** With no negative price or stock the revenue is not negative, and it is zero when nothing is in stock. */
  lemma {:induction false} RevenueBounds(products: seq<Product>)
    requires forall k :: 0 <= k < |products| ==> products[k].price >= 0.0 && products[k].stock >= 0.0
    ensures Revenue(products) >= 0.0
    ensures (forall k :: 0 <= k < |products| ==> products[k].stock == 0.0) ==> Revenue(products) == 0.0
  {
    if products != [] {
      RevenueBounds(products[..|products| - 1]);
    }
  }

  /**
   * The attention count never exceeds the product count, and it is zero
   * exactly when no product is low on stock or out of stock.
   */
  lemma MetricsBounds(products: seq<Product>, users: seq<User>, productsLoading: bool, usersLoading: bool)
    ensures var v := Metrics(products, users, productsLoading, usersLoading);
            v.lowStockProducts <= v.totalProducts &&
            (v.lowStockProducts == 0 <==> forall k :: 0 <= k < |products| ==> !NeedsAttention(products[k])) &&
            (v.loading <==> productsLoading || usersLoading)
  {
    var r := Filter(products, NeedsAttention);
    if |r| != 0 {
      assert NeedsAttention(r[0]) && r[0] in products;
    }
  }

  /** On the seeded tables the dashboard shows 4 products worth 88999.2, 2 needing attention, and 3 users. */
  lemma SeedDashboard(now: string)
    ensures Metrics(SeedProducts(now), SeedUsers(now), false, false) == DashboardView(false, 4, 88999.2, 2, 3)
  {
    var ps := SeedProducts(now);
    assert ps[..1][..0] == [];
    assert Revenue(ps[..1]) == 49999.5;
    assert ps[..2][..1] == ps[..1];
    assert Revenue(ps[..2]) == 87499.25;
    assert ps[..3][..2] == ps[..2];
    assert Revenue(ps[..3]) == 88999.2;
    assert ps[..4] == ps && ps[..3] == ps[..|ps| - 1];
    assert Filter(ps[3..], NeedsAttention) == [ps[3]] by { assert ps[3..][1..] == []; }
    assert ps[2..][1..] == ps[3..] && ps[1..][1..] == ps[2..] && ps[1..] == ps[1..];
    assert Filter(ps[2..], NeedsAttention) == [ps[2], ps[3]];
    assert Filter(ps[1..], NeedsAttention) == [ps[2], ps[3]];
  }
}
