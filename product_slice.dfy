/**
 * The product request state: the catalogue mirror, the product being viewed or
 * edited, a loading flag and the last error. Each reducer case is a method;
 * each thunk dispatches the pending case, calls the backend and dispatches the
 * fulfilled or rejected case.
 */
module ProductSlice {
  import opened Wrappers
  import opened Types
  import opened Seqs
  import opened MockApi
  import opened Thunks

  const FetchProductsFallback := "Failed to fetch products"
  const FetchProductFallback := "Failed to fetch product"
  const CreateProductFallback := "Failed to create product"
  const UpdateProductFallback := "Failed to update product"
  const DeleteProductFallback := "Failed to delete product"

  class ProductState {
    var products: seq<Product>
    var currentProduct: Option<Product>
    var loading: bool
    var error: Option<string>

    constructor ()
      ensures products == [] && currentProduct == None && !loading && error == None
    {
      products := [];
      currentProduct := None;
      loading := false;
      error := None;
    }

    /** Every pending case: loading, error cleared, data untouched. */
    method OnPending()
      modifies this
      ensures loading && error == None
      ensures products == old(products) && currentProduct == old(currentProduct)
    {
      loading := true;
      error := None;
    }

    /** Every rejected case: the payload becomes the error, data untouched. */
    method OnRejected(payload: string)
      modifies this
      ensures !loading && error == Some(payload)
      ensures products == old(products) && currentProduct == old(currentProduct)
    {
      loading := false;
      error := Some(payload);
    }

    /** `fetchProducts.fulfilled`: the whole list is replaced. */
    method OnFetchFulfilled(payload: seq<Product>)
      modifies this
      ensures !loading && products == payload
      ensures currentProduct == old(currentProduct) && error == old(error)
    {
      loading := false;
      products := payload;
    }

    /** `fetchProductById.fulfilled`: only the current product (and loading) change. */
    method OnFetchByIdFulfilled(payload: Product)
      modifies this
      ensures !loading && currentProduct == Some(payload)
      ensures products == old(products) && error == old(error)
    {
      loading := false;
      currentProduct := Some(payload);
    }

    /** `createProduct.fulfilled`: the payload is appended at the end. */
    method OnCreateFulfilled(payload: Product)
      modifies this
      ensures !loading && products == old(products) + [payload]
      ensures currentProduct == old(currentProduct) && error == old(error)
    {
      loading := false;
      products := products + [payload];
    }

    /** `updateProduct.fulfilled`: the first product with the payload's id is replaced; the payload becomes current. */
    method OnUpdateFulfilled(payload: Product)
      modifies this
      ensures !loading && products == ReplaceFirst(old(products), ProductId, payload)
      ensures currentProduct == Some(payload) && error == old(error)
    {
      loading := false;
      var i := IndexOf(MapSeq(products, ProductId), payload.id);
      if i != -1 {
        products := products[i := payload];
      }
      currentProduct := Some(payload);
    }

    /** `deleteProduct.fulfilled`: every product with the id goes; the current one is cleared only if it has the id. */
    method OnDeleteFulfilled(id: string)
      modifies this
      ensures !loading && products == Filter(old(products), KeyDiffers(ProductId, id))
      ensures currentProduct == if old(currentProduct).Some? && old(currentProduct).value.id == id then None
                                else old(currentProduct)
      ensures error == old(error)
    {
      loading := false;
      products := Filter(products, KeyDiffers(ProductId, id));
      if currentProduct.Some? && currentProduct.value.id == id {
        currentProduct := None;
      }
    }

    method ClearCurrentProduct()
      modifies this
      ensures currentProduct == None
      ensures products == old(products) && loading == old(loading) && error == old(error)
    {
      currentProduct := None;
    }

    method ClearError()
      modifies this
      ensures error == None
      ensures products == old(products) && currentProduct == old(currentProduct) && loading == old(loading)
    {
      error := None;
    }

    /** `fetchProducts`: never fails; the mirror becomes the backend catalogue. */
    method FetchProducts(store: Store) returns (s: Settlement<seq<Product>>)
      modifies this
      ensures s == Fulfilled(store.products)
      ensures !loading && error == None && products == store.products && currentProduct == old(currentProduct)
    {
      OnPending();
      var r := store.GetProducts();
      s := SettleWithFallback(r, FetchProductsFallback);
      OnFetchFulfilled(r.value.data);
    }

    /** `fetchProductById`: the backend's product becomes current, or its error is recorded. */
    method FetchProductById(store: Store, id: string) returns (s: Settlement<Product>)
      modifies this
      ensures !loading && products == old(products)
      ensures id !in MapSeq(store.products, ProductId) ==>
                s == Rejected("Product not found") && error == Some("Product not found") &&
                currentProduct == old(currentProduct)
      ensures id in MapSeq(store.products, ProductId) ==>
                var p := store.products[IndexOf(MapSeq(store.products, ProductId), id)];
                s == Fulfilled(p) && currentProduct == Some(p) && error == None
    {
      OnPending();
      var r := store.GetProductById(id);
      s := SettleWithFallback(r, FetchProductFallback);
      match s
      case Fulfilled(p) => OnFetchByIdFulfilled(p);
      case Rejected(m) => OnRejected(m);
    }

    /** `createProduct`: the created product is appended to the backend and to the mirror. */
    method CreateProduct(store: Store, data: ProductFormData, now: string) returns (s: Settlement<Product>)
      modifies this, store
      ensures store.users == old(store.users) && store.orders == old(store.orders)
      ensures store.storedToken == old(store.storedToken) && store.storedUser == old(store.storedUser)
      ensures var p := CreatedProduct(|old(store.products)|, data, now);
              s == Fulfilled(p) && store.products == old(store.products) + [p] && products == old(products) + [p]
      ensures !loading && error == None && currentProduct == old(currentProduct)
    {
      OnPending();
      var r := store.CreateProduct(data, now);
      s := SettleWithFallback(r, CreateProductFallback);
      OnCreateFulfilled(r.value.data);
    }

    /** `updateProduct`: the merged product replaces its backend entry and its mirror entry, and becomes current. */
    method UpdateProduct(store: Store, id: string, data: ProductFormData) returns (s: Settlement<Product>)
      modifies this, store
      ensures store.users == old(store.users) && store.orders == old(store.orders)
      ensures store.storedToken == old(store.storedToken) && store.storedUser == old(store.storedUser)
      ensures !loading
      ensures var i := IndexOf(MapSeq(old(store.products), ProductId), id);
              if i == -1 then
                s == Rejected("Product not found") && error == Some("Product not found") &&
                store.products == old(store.products) && products == old(products) && currentProduct == old(currentProduct)
              else
                var p := MergeProduct(old(store.products)[i], data);
                s == Fulfilled(p) && store.products == old(store.products)[i := p] &&
                products == ReplaceFirst(old(products), ProductId, p) && currentProduct == Some(p) && error == None
    {
      OnPending();
      var r := store.UpdateProduct(id, data);
      s := SettleWithFallback(r, UpdateProductFallback);
      match s
      case Fulfilled(p) => OnUpdateFulfilled(p);
      case Rejected(m) => OnRejected(m);
    }

    /** `deleteProduct`: fulfils with the requested id, which leaves the backend and the mirror. */
    method DeleteProduct(store: Store, id: string) returns (s: Settlement<string>)
      modifies this, store
      ensures store.users == old(store.users) && store.orders == old(store.orders)
      ensures store.storedToken == old(store.storedToken) && store.storedUser == old(store.storedUser)
      ensures !loading
      ensures var i := IndexOf(MapSeq(old(store.products), ProductId), id);
              if i == -1 then
                s == Rejected("Product not found") && error == Some("Product not found") &&
                store.products == old(store.products) && products == old(products) && currentProduct == old(currentProduct)
              else
                s == Fulfilled(id) && store.products == RemoveAt(old(store.products), i) &&
                products == Filter(old(products), KeyDiffers(ProductId, id)) && error == None &&
                currentProduct == if old(currentProduct).Some? && old(currentProduct).value.id == id then None
                                  else old(currentProduct)
    {
      OnPending();
      var r := store.DeleteProduct(id);
      if r.Err? {
        s := Rejected(FallbackMessage(ErrorObject(r.error), DeleteProductFallback));
        OnRejected(s.payload);
      } else {
        s := Fulfilled(id);
        OnDeleteFulfilled(id);
      }
    }
  }
}
