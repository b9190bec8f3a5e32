/**
 * The catalogue page: the category options of its filter, the search and
 * filter that decide which products are listed, and the delete flow run
 * through the product request state against the backend.
 */
module ProductList {
  import opened Wrappers
  import opened Types
  import opened Text
  import opened Seqs
  import opened MockApi
  import opened Thunks
  import opened PageKit
  import opened ProductSlice

  const AllOption := "all"
  const ProductDeletedMessage := "Product deleted successfully"
  const ProductDeleteFailedMessage := "Failed to delete product"

  function ProductCategory(p: Product): string { p.category }

  /** `["all", ...new Set(products.map(p => p.category))]`. */
  function CategoryOptions(products: seq<Product>): seq<string> {
    [AllOption] + Dedup(MapSeq(products, ProductCategory))
  }

  /**
   * The options start with "all", then list every category of the catalogue
   * once, in order of first appearance, and nothing else.
   */
  lemma CategoryOptionsListing(products: seq<Product>)
    ensures var r := CategoryOptions(products);
            r[0] == AllOption &&
            (forall k :: 0 <= k < |products| ==> products[k].category in r[1..]) &&
            (forall k :: 1 <= k < |r| ==> r[k] in MapSeq(products, ProductCategory)) &&
            (forall i, j :: 1 <= i < j < |r| ==>
               IndexOf(MapSeq(products, ProductCategory), r[i]) < IndexOf(MapSeq(products, ProductCategory), r[j]))
  {
    var cats := MapSeq(products, ProductCategory);
    var d := Dedup(cats);
    var r := CategoryOptions(products);
    assert r[1..] == d;
    forall k | 0 <= k < |products| ensures products[k].category in d {
      assert cats[k] == products[k].category;
    }
    DedupKeepsFirstAppearanceOrder(cats);
    forall i, j | 1 <= i < j < |r| ensures IndexOf(cats, r[i]) < IndexOf(cats, r[j]) {
      assert r[i] == d[i - 1] && r[j] == d[j - 1];
    }
  }

  /** The options repeat an entry exactly when some product's category is literally "all". */
  lemma CategoryOptionsDistinct(products: seq<Product>)
    ensures NoDuplicates(CategoryOptions(products)) <==> AllOption !in MapSeq(products, ProductCategory)
  {
    var cats := MapSeq(products, ProductCategory);
    var d := Dedup(cats);
    var r := CategoryOptions(products);
    assert forall k :: 1 <= k < |r| ==> r[k] == d[k - 1];
    if AllOption in cats {
      var k :| 0 <= k < |cats| && cats[k] == AllOption;
      var m :| 0 <= m < |d| && d[m] == AllOption;
      assert r[0] == r[m + 1];
    } else {
      forall i, j | 0 <= i < j < |r| ensures r[i] != r[j] {
        if i == 0 {
          assert r[j] == d[j - 1] && d[j - 1] in cats;
        }
      }
    }
  }

  /** The search and the two filters, as the list applies them to one product. */
  predicate MatchesProduct(p: Product, searchTerm: string, categoryFilter: string, statusFilter: string) {
    (Contains(ToLower(p.name), ToLower(searchTerm)) || Contains(ToLower(p.description), ToLower(searchTerm))) &&
    (categoryFilter == AllOption || p.category == categoryFilter) &&
    (statusFilter == AllOption || ProductStatusName(p.status) == statusFilter)
  }

  function Matcher(searchTerm: string, categoryFilter: string, statusFilter: string): Product -> bool {
    p => MatchesProduct(p, searchTerm, categoryFilter, statusFilter)
  }

  /** `filteredProducts`. */
  function FilterProducts(products: seq<Product>, searchTerm: string, categoryFilter: string, statusFilter: string): seq<Product> {
    Filter(products, Matcher(searchTerm, categoryFilter, statusFilter))
  }

  /**
   * The listed products are the matching ones, in catalogue order: every
   * listed product is in the catalogue and matches, and every matching one is
   * listed as often as the catalogue holds it. With an empty search and both filters on "all" everything is
   * listed; the search ignores ASCII case.
   */
  lemma ProductFilterSpec(products: seq<Product>, searchTerm: string, categoryFilter: string, statusFilter: string)
    ensures var r := FilterProducts(products, searchTerm, categoryFilter, statusFilter);
            Sublist(r, products) &&
            (forall k :: 0 <= k < |r| ==> r[k] in products && MatchesProduct(r[k], searchTerm, categoryFilter, statusFilter)) &&
            (forall k :: 0 <= k < |products| && MatchesProduct(products[k], searchTerm, categoryFilter, statusFilter) ==>
               products[k] in r) &&
            (forall p :: multiset(r)[p] ==
               if MatchesProduct(p, searchTerm, categoryFilter, statusFilter) then multiset(products)[p] else 0)
    ensures FilterProducts(products, "", AllOption, AllOption) == products
    ensures FilterProducts(products, ToLower(searchTerm), categoryFilter, statusFilter) ==
            FilterProducts(products, searchTerm, categoryFilter, statusFilter)
  {
    var r := FilterProducts(products, searchTerm, categoryFilter, statusFilter);
    forall k | 0 <= k < |r| ensures MatchesProduct(r[k], searchTerm, categoryFilter, statusFilter) {
      assert Matcher(searchTerm, categoryFilter, statusFilter)(r[k]);
    }
    forall k | 0 <= k < |products| && MatchesProduct(products[k], searchTerm, categoryFilter, statusFilter)
      ensures products[k] in r
    {
      assert Matcher(searchTerm, categoryFilter, statusFilter)(products[k]);
    }
    forall p ensures multiset(r)[p] ==
      if MatchesProduct(p, searchTerm, categoryFilter, statusFilter) then multiset(products)[p] else 0
    {
      FilterCounts(products, Matcher(searchTerm, categoryFilter, statusFilter), p);
    }
    forall k | 0 <= k < |products| ensures Matcher("", AllOption, AllOption)(products[k]) {
      ContainsEmpty(ToLower(products[k].name));
    }
    FilterKeepsAll(products, Matcher("", AllOption, AllOption));
    ToLowerIdempotent(searchTerm);
    FilterAgrees(products, Matcher(ToLower(searchTerm), categoryFilter, statusFilter),
                 Matcher(searchTerm, categoryFilter, statusFilter));
  }

  /** The list shows only a loader while the first load is running. */
  predicate ShowsLoader(loading: bool, products: seq<Product>) {
    loading && |products| == 0
  }

  class ProductListPage {
    var searchTerm: string
    var categoryFilter: string
    var statusFilter: string
    var deleteModalOpen: bool
    var productToDelete: Option<string>
    var toast: Toast

    constructor ()
      ensures searchTerm == "" && categoryFilter == AllOption && statusFilter == AllOption
      ensures !deleteModalOpen && productToDelete == None && toast == ClosedToast
    {
      searchTerm := "";
      categoryFilter := AllOption;
      statusFilter := AllOption;
      deleteModalOpen := false;
      productToDelete := None;
      toast := ClosedToast;
    }

    /** The mount effect: the catalogue is fetched into the request state. */
    method Mount(slice: ProductState, store: Store)
      modifies slice
      ensures slice.products == store.products && !slice.loading && slice.error == None
    {
      var _ := slice.FetchProducts(store);
    }

    /** The error effect: a slice error opens an error notification with its text. */
    method OnSliceError(error: Option<string>)
      modifies this
      ensures toast == if Truthy(error) then Toast(true, error.value, ErrorToast) else old(toast)
      ensures searchTerm == old(searchTerm) && categoryFilter == old(categoryFilter) && statusFilter == old(statusFilter)
      ensures deleteModalOpen == old(deleteModalOpen) && productToDelete == old(productToDelete)
    {
      if Truthy(error) {
        toast := Toast(true, error.value, ErrorToast);
      }
    }

    /** `handleDeleteClick`: the product is selected and the confirmation opens. */
    method HandleDeleteClick(id: string)
      modifies this
      ensures productToDelete == Some(id) && deleteModalOpen
      ensures searchTerm == old(searchTerm) && categoryFilter == old(categoryFilter) && statusFilter == old(statusFilter)
      ensures toast == old(toast)
    {
      productToDelete := Some(id);
      deleteModalOpen := true;
    }

    /**
     * `handleConfirmDelete`: with a product selected, it is deleted through the
     * request state; success is reported exactly when the backend had it, and
     * then it is no longer listed. The confirmation closes and the selection is
     * dropped either way. Without a selection nothing happens.
     */
    method HandleConfirmDelete(slice: ProductState, store: Store)
      modifies this, slice, store
      ensures searchTerm == old(searchTerm) && categoryFilter == old(categoryFilter) && statusFilter == old(statusFilter)
      ensures store.users == old(store.users) && store.orders == old(store.orders)
      ensures !Truthy(old(productToDelete)) ==>
                deleteModalOpen == old(deleteModalOpen) && productToDelete == old(productToDelete) &&
                toast == old(toast) && store.products == old(store.products) && slice.products == old(slice.products)
      ensures Truthy(old(productToDelete)) ==>
                var id := old(productToDelete).value;
                var found := id in MapSeq(old(store.products), ProductId);
                !deleteModalOpen && productToDelete == None &&
                toast == (if found then Toast(true, ProductDeletedMessage, SuccessToast)
                          else Toast(true, ProductDeleteFailedMessage, ErrorToast)) &&
                (found ==> id !in MapSeq(slice.products, ProductId) &&
                           |store.products| == |old(store.products)| - 1) &&
                (!found ==> store.products == old(store.products) && slice.products == old(slice.products))
      ensures store.storedToken == old(store.storedToken) && store.storedUser == old(store.storedUser)
      ensures !Truthy(old(productToDelete)) ==>
                slice.currentProduct == old(slice.currentProduct) && slice.loading == old(slice.loading) &&
                slice.error == old(slice.error)
      ensures Truthy(old(productToDelete)) ==>
                var id := old(productToDelete).value;
                var i := IndexOf(MapSeq(old(store.products), ProductId), id);
                !slice.loading &&
                (i == -1 ==> slice.error == Some("Product not found") && slice.currentProduct == old(slice.currentProduct)) &&
                (i != -1 ==>
                   store.products == RemoveAt(old(store.products), i) &&
                   slice.products == Filter(old(slice.products), KeyDiffers(ProductId, id)) && slice.error == None &&
                   slice.currentProduct == if old(slice.currentProduct).Some? && old(slice.currentProduct).value.id == id
                                           then None else old(slice.currentProduct))
    {
      if Truthy(productToDelete) {
        var id := productToDelete.value;
        FilterRemovesKey(slice.products, ProductId, id);
        var s := slice.DeleteProduct(store, id);
        if s.Fulfilled? {
          toast := Toast(true, ProductDeletedMessage, SuccessToast);
        } else {
          toast := Toast(true, ProductDeleteFailedMessage, ErrorToast);
        }
        deleteModalOpen := false;
        productToDelete := None;
      }
    }
  }
}
