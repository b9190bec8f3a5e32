/**
 * The in-memory backend: three module-level tables (users, products, orders)
 * mutated in place, and the two durable storage keys "token" and "user" that the
 * authentication service writes and reads.
 *
 * Every service call is atomic here (the artificial latency is left out). A call
 * that throws `new Error(msg)` returns `Err(msg)`; timestamps come from the `now`
 * parameter, an abstract clock.
 */
module MockApi {
  import opened Wrappers
  import opened Types
  import opened Text
  import opened Seqs

  /** The one password every demo account accepts. */
  const DemoPassword := "password"
  const ProductPlaceholder := "/placeholder.svg?height=100&width=100"
  const AvatarPlaceholder := "/placeholder.svg?height=40&width=40"

  /** The `{ user, token }` payload of a successful login or registration. */
  datatype AuthPayload = AuthPayload(user: AuthUser, token: string)

  function UserId(u: User): string { u.id }
  function UserEmail(u: User): string { u.email }
  function ProductId(p: Product): string { p.id }
  function OrderId(o: Order): string { o.id }

  /** The bearer token issued for a user id. */
  function TokenFor(id: string): string {
    "mock-jwt-token-" + id
  }

  /** `(table.length + 1).toString()`: the id a create assigns. */
  function NextId(count: nat): string {
    NatToString(count + 1)
  }

  /** The user a registration appends: role viewer, status active, no avatar. */
  function RegisteredUser(count: nat, data: RegisterData, now: string): User {
    User(NextId(count), data.name, data.email, Viewer, None, now, Active)
  }

  /** `{ id, ...userData, createdAt }`: the user an administrator creates. */
  function CreatedUser(count: nat, data: UserFormData, now: string): User {
    User(NextId(count), data.name, data.email, data.role, None, now, data.status)
  }

  /** `{ ...user, ...userData }`: the form fields overwrite, id, avatar and creation time stay. */
  function MergeUser(u: User, data: UserFormData): User {
    u.(name := data.name, email := data.email, role := data.role, status := data.status)
  }

  /** `{ id, ...productData, createdAt, image }`. */
  function CreatedProduct(count: nat, data: ProductFormData, now: string): Product {
    Product(NextId(count), data.name, data.description, data.price, data.category, data.stock,
            Some(ProductPlaceholder), now, data.status)
  }

  /** `{ ...product, ...productData }`. */
  function MergeProduct(p: Product, data: ProductFormData): Product {
    p.(name := data.name, description := data.description, price := data.price,
       category := data.category, stock := data.stock, status := data.status)
  }

  /** The editable fields of a product, as the product form holds them. */
  function ProductFormOf(p: Product): ProductFormData {
    ProductFormData(p.name, p.description, p.price, p.category, p.stock, p.status)
  }

  /** `{ ...order, status, updatedAt }`. */
  function WithStatus(o: Order, status: OrderStatus, now: string): Order {
    o.(status := status, updatedAt := now)
  }

  /** The table ids are "1", "2", ... in order, as creation without deletion leaves them. */
  ghost predicate SequentialIds(ids: seq<string>) {
    forall k :: 0 <= k < |ids| ==> ids[k] == NatToString(k + 1)
  }

  /** The seeded accounts. */
  function SeedUsers(now: string): seq<User> {
    [User("1", "Admin User", "admin@example.com", Admin, Some(AvatarPlaceholder), now, Active),
     User("2", "Editor User", "editor@example.com", Editor, Some(AvatarPlaceholder), now, Active),
     User("3", "Viewer User", "viewer@example.com", Viewer, None, now, Inactive)]
  }

  /** The seeded catalogue. */
  function SeedProducts(now: string): seq<Product> {
    [Product("1", "Smartphone X", "Latest smartphone with advanced features", 999.99, "Electronics", 50.0,
             Some(ProductPlaceholder), now, InStock),
     Product("2", "Laptop Pro", "High-performance laptop for professionals", 1499.99, "Electronics", 25.0,
             Some(ProductPlaceholder), now, InStock),
     Product("3", "Wireless Headphones", "Premium noise-cancelling headphones", 299.99, "Audio", 5.0,
             Some(ProductPlaceholder), now, LowStock),
     Product("4", "Smart Watch", "Fitness and health tracking smartwatch", 199.99, "Wearables", 0.0,
             Some(ProductPlaceholder), now, OutOfStock)]
  }

  /** Sequential ids are pairwise distinct, and the next one allocated is new and keeps them sequential. */
  lemma SequentialIdsAreFresh(ids: seq<string>)
    requires SequentialIds(ids)
    ensures NoDuplicates(ids)
    ensures NextId(|ids|) !in ids
    ensures SequentialIds(ids + [NextId(|ids|)])
  {
    forall a, b | 0 <= a < b < |ids| ensures ids[a] != ids[b] {
      NatToStringInjective(a + 1, b + 1);
    }
    forall k | 0 <= k < |ids| ensures ids[k] != NextId(|ids|) {
      NatToStringInjective(k + 1, |ids| + 1);
    }
  }

  /**
   * Allocation by length is not fresh once something was deleted: with ids
   * "1".."n", deleting any but the last and creating again hands out "n" a
   * second time.
   */
  lemma IdCollidesAfterDelete(ids: seq<string>, i: nat)
    requires SequentialIds(ids) && i < |ids| - 1
    ensures NextId(|RemoveAt(ids, i)|) in RemoveAt(ids, i)
    ensures !NoDuplicates(RemoveAt(ids, i) + [NextId(|RemoveAt(ids, i)|)])
  {
    var rest := RemoveAt(ids, i);
    assert rest[|rest| - 1] == ids[|ids| - 1] == NextId(|rest|);
    var grown := rest + [NextId(|rest|)];
    assert grown[|rest| - 1] == grown[|rest|];
  }

  /** The seeded tables start with sequential ids and distinct e-mail addresses. */
  lemma SeedTablesAreWellFormed(now: string)
    ensures SequentialIds(MapSeq(SeedUsers(now), UserId))
    ensures SequentialIds(MapSeq(SeedProducts(now), ProductId))
    ensures NoDuplicates(MapSeq(SeedUsers(now), UserEmail))
  {
    assert NatToString(1) == "1" && NatToString(2) == "2" && NatToString(3) == "3" && NatToString(4) == "4" by {
      assert DigitChar(1) == '1' && DigitChar(2) == '2' && DigitChar(3) == '3' && DigitChar(4) == '4';
    }
  }

  /** Registering an address no user has keeps addresses distinct; the new account is an active viewer. */
  lemma RegisterKeepsEmailsDistinct(users: seq<User>, data: RegisterData, now: string)
    requires NoDuplicates(MapSeq(users, UserEmail)) && data.email !in MapSeq(users, UserEmail)
    ensures NoDuplicates(MapSeq(users + [RegisteredUser(|users|, data, now)], UserEmail))
    ensures RegisteredUser(|users|, data, now).role == Viewer && RegisteredUser(|users|, data, now).status == Active
  {
    MapSeqAppend(users, UserEmail, RegisteredUser(|users|, data, now));
    AppendKeepsNoDuplicates(MapSeq(users, UserEmail), data.email);
  }

  /** Creating a user with an address no user has keeps addresses distinct. */
  lemma CreateUserKeepsEmailsDistinct(users: seq<User>, data: UserFormData, now: string)
    requires NoDuplicates(MapSeq(users, UserEmail)) && data.email !in MapSeq(users, UserEmail)
    ensures NoDuplicates(MapSeq(users + [CreatedUser(|users|, data, now)], UserEmail))
  {
    MapSeqAppend(users, UserEmail, CreatedUser(|users|, data, now));
    AppendKeepsNoDuplicates(MapSeq(users, UserEmail), data.email);
  }

  /** An update that keeps its own address, or moves to one nobody has, keeps addresses distinct. */
  lemma UpdateUserKeepsEmailsDistinct(users: seq<User>, i: nat, data: UserFormData)
    requires NoDuplicates(MapSeq(users, UserEmail)) && i < |users|
    requires data.email == users[i].email || data.email !in MapSeq(users, UserEmail)
    ensures NoDuplicates(MapSeq(users[i := MergeUser(users[i], data)], UserEmail))
  {
    MapSeqUpdate(users, UserEmail, i, MergeUser(users[i], data));
    UpdateKeepsNoDuplicates(MapSeq(users, UserEmail), i, data.email);
  }

  /**
   * Deleting keeps ids and addresses distinct, and when ids are distinct the
   * deleted id is gone, so deleting it a second time reports "not found".
   */
  lemma DeleteUserKeepsTableDistinct(users: seq<User>, i: nat)
    requires i < |users|
    ensures NoDuplicates(MapSeq(users, UserEmail)) ==> NoDuplicates(MapSeq(RemoveAt(users, i), UserEmail))
    ensures NoDuplicates(MapSeq(users, UserId)) ==>
              NoDuplicates(MapSeq(RemoveAt(users, i), UserId)) &&
              IndexOf(MapSeq(RemoveAt(users, i), UserId), users[i].id) == -1
  {
    MapSeqRemove(users, UserEmail, i);
    MapSeqRemove(users, UserId, i);
    if NoDuplicates(MapSeq(users, UserEmail)) {
      RemoveKeepsNoDuplicates(MapSeq(users, UserEmail), i);
    }
    if NoDuplicates(MapSeq(users, UserId)) {
      RemoveKeepsNoDuplicates(MapSeq(users, UserId), i);
    }
  }

  /** When product ids are distinct, a deleted product id is gone and a second delete reports "not found". */
  lemma DeleteProductTwiceFails(products: seq<Product>, i: nat)
    requires i < |products| && NoDuplicates(MapSeq(products, ProductId))
    ensures NoDuplicates(MapSeq(RemoveAt(products, i), ProductId))
    ensures IndexOf(MapSeq(RemoveAt(products, i), ProductId), products[i].id) == -1
  {
    MapSeqRemove(products, ProductId, i);
    RemoveKeepsNoDuplicates(MapSeq(products, ProductId), i);
  }

  /**
   * When the allocated id is new, looking it up after a create finds the new
   * product, whose editable fields are exactly the submitted form.
   */
  lemma CreatedProductIsFound(products: seq<Product>, data: ProductFormData, now: string)
    requires NextId(|products|) !in MapSeq(products, ProductId)
    ensures var grown := products + [CreatedProduct(|products|, data, now)];
            IndexOf(MapSeq(grown, ProductId), NextId(|products|)) == |products| &&
            ProductFormOf(grown[|products|]) == data &&
            grown[|products|].image == Some(ProductPlaceholder)
  {
    var p := CreatedProduct(|products|, data, now);
    MapSeqAppend(products, ProductId, p);
    var ids := MapSeq(products, ProductId);
    assert (ids + [p.id])[..|products|] == ids;
  }

  /** A merge-update stores the submitted form and keeps id, image and creation time. */
  lemma MergeProductStoresForm(p: Product, data: ProductFormData)
    ensures ProductFormOf(MergeProduct(p, data)) == data
    ensures MergeProduct(p, data).id == p.id && MergeProduct(p, data).image == p.image
    ensures MergeProduct(p, data).createdAt == p.createdAt
    ensures MergeProduct(p, ProductFormOf(p)) == p
  {
  }

  /** The backend tables and the durable session keys. */
  class Store {
    var users: seq<User>
    var products: seq<Product>
    var orders: seq<Order>
    /** Durable storage under "token". */
    var storedToken: Option<string>
    /** Durable storage under "user". */
    var storedUser: Option<AuthUser>

    /** The seeded tables, with whatever an earlier session left in storage. */
    constructor (now: string, seedOrders: seq<Order>, token: Option<string>, user: Option<AuthUser>)
      ensures users == SeedUsers(now) && products == SeedProducts(now) && orders == seedOrders
      ensures storedToken == token && storedUser == user
    {
      users := SeedUsers(now);
      products := SeedProducts(now);
      orders := seedOrders;
      storedToken := token;
      storedUser := user;
    }

    /**
     * Login succeeds exactly when some user has the address and the password is
     * the demo password; it then stores and returns the first such user's
     * projection and token. On failure nothing changes.
     */
    method Login(credentials: LoginCredentials) returns (r: Result<ApiResponse<AuthPayload>>)
      modifies this
      ensures users == old(users) && products == old(products) && orders == old(orders)
      ensures r.Ok? <==> credentials.email in MapSeq(users, UserEmail) && credentials.password == DemoPassword
      ensures r.Err? ==> r.error == "Invalid credentials" && storedToken == old(storedToken) && storedUser == old(storedUser)
      ensures r.Ok? ==>
                var u := users[IndexOf(MapSeq(users, UserEmail), credentials.email)];
                u.email == credentials.email &&
                r.value == ApiResponse(AuthPayload(ToAuthUser(u), TokenFor(u.id)), "Login successful", true) &&
                storedToken == Some(TokenFor(u.id)) && storedUser == Some(ToAuthUser(u))
    {
      var i := IndexOf(MapSeq(users, UserEmail), credentials.email);
      if i == -1 || credentials.password != DemoPassword {
        return Err("Invalid credentials");
      }
      var authUser := ToAuthUser(users[i]);
      var token := TokenFor(authUser.id);
      storedToken := Some(token);
      storedUser := Some(authUser);
      r := Ok(ApiResponse(AuthPayload(authUser, token), "Login successful", true));
    }

    /**
     * A taken address fails first, then a password mismatch; both leave every
     * table and key as it was. Otherwise exactly one active viewer is appended
     * and its session is stored and returned.
     */
    method Register(data: RegisterData, now: string) returns (r: Result<ApiResponse<AuthPayload>>)
      modifies this
      ensures products == old(products) && orders == old(orders)
      ensures data.email in MapSeq(old(users), UserEmail) ==> r == Err("Email already in use") && unchanged(this)
      ensures data.email !in MapSeq(old(users), UserEmail) && data.password != data.confirmPassword ==>
                r == Err("Passwords do not match") && unchanged(this)
      ensures data.email !in MapSeq(old(users), UserEmail) && data.password == data.confirmPassword ==>
                var u := RegisteredUser(|old(users)|, data, now);
                users == old(users) + [u] &&
                storedToken == Some(TokenFor(u.id)) && storedUser == Some(ToAuthUser(u)) &&
                r == Ok(ApiResponse(AuthPayload(ToAuthUser(u), TokenFor(u.id)), "Registration successful", true))
      ensures NoDuplicates(MapSeq(old(users), UserEmail)) ==> NoDuplicates(MapSeq(users, UserEmail))
    {
      if data.email in MapSeq(users, UserEmail) {
        return Err("Email already in use");
      }
      if data.password != data.confirmPassword {
        return Err("Passwords do not match");
      }
      var u := RegisteredUser(|users|, data, now);
      if NoDuplicates(MapSeq(users, UserEmail)) {
        RegisterKeepsEmailsDistinct(users, data, now);
      }
      users := users + [u];
      var authUser := ToAuthUser(u);
      var token := TokenFor(u.id);
      storedToken := Some(token);
      storedUser := Some(authUser);
      r := Ok(ApiResponse(AuthPayload(authUser, token), "Registration successful", true));
    }

    /** The logout service removes both durable keys and nothing else. */
    method Logout()
      modifies this
      ensures storedToken == None && storedUser == None
      ensures users == old(users) && products == old(products) && orders == old(orders)
    {
      storedToken := None;
      storedUser := None;
    }

    /** The stored user when there is one, whatever the stored token; otherwise "Not authenticated". */
    method GetCurrentUser() returns (r: Result<ApiResponse<AuthUser>>)
      ensures storedUser.None? ==> r == Err("Not authenticated")
      ensures storedUser.Some? ==> r == Ok(ApiResponse(storedUser.value, "User retrieved successfully", true))
    {
      if storedUser.None? {
        return Err("Not authenticated");
      }
      r := Ok(ApiResponse(storedUser.value, "User retrieved successfully", true));
    }

    /** A copy of the whole user table. */
    method GetUsers() returns (r: Result<ApiResponse<seq<User>>>)
      ensures r == Ok(ApiResponse(users, "Users retrieved successfully", true))
    {
      r := Ok(ApiResponse(users, "Users retrieved successfully", true));
    }

    /** The first user with the id, or "User not found" when none has it. */
    method GetUserById(id: string) returns (r: Result<ApiResponse<User>>)
      ensures r.Err? <==> id !in MapSeq(users, UserId)
      ensures r.Err? ==> r.error == "User not found"
      ensures r.Ok? ==>
                r.value.data.id == id && r.value.data in users &&
                r.value == ApiResponse(users[IndexOf(MapSeq(users, UserId), id)], "User retrieved successfully", true)
    {
      var i := IndexOf(MapSeq(users, UserId), id);
      if i == -1 {
        return Err("User not found");
      }
      r := Ok(ApiResponse(users[i], "User retrieved successfully", true));
    }

    /** A taken address fails and changes nothing; otherwise exactly one user is appended. */
    method CreateUser(data: UserFormData, now: string) returns (r: Result<ApiResponse<User>>)
      modifies this
      ensures products == old(products) && orders == old(orders)
      ensures storedToken == old(storedToken) && storedUser == old(storedUser)
      ensures data.email in MapSeq(old(users), UserEmail) ==> r == Err("Email already in use") && users == old(users)
      ensures data.email !in MapSeq(old(users), UserEmail) ==>
                var u := CreatedUser(|old(users)|, data, now);
                users == old(users) + [u] && r == Ok(ApiResponse(u, "User created successfully", true))
      ensures NoDuplicates(MapSeq(old(users), UserEmail)) ==> NoDuplicates(MapSeq(users, UserEmail))
    {
      if data.email in MapSeq(users, UserEmail) {
        return Err("Email already in use");
      }
      var u := CreatedUser(|users|, data, now);
      if NoDuplicates(MapSeq(users, UserEmail)) {
        CreateUserKeepsEmailsDistinct(users, data, now);
      }
      users := users + [u];
      r := Ok(ApiResponse(u, "User created successfully", true));
    }

    /**
     * An unknown id fails; a changed address that another user already has
     * fails; otherwise only the first user with the id is merged with the form.
     */
    method UpdateUser(id: string, data: UserFormData) returns (r: Result<ApiResponse<User>>)
      modifies this
      ensures products == old(products) && orders == old(orders)
      ensures storedToken == old(storedToken) && storedUser == old(storedUser)
      ensures var i := IndexOf(MapSeq(old(users), UserId), id);
              if i == -1 then r == Err("User not found") && users == old(users)
              else if data.email != old(users)[i].email && data.email in MapSeq(old(users), UserEmail) then
                r == Err("Email already in use") && users == old(users)
              else
                var u := MergeUser(old(users)[i], data);
                users == old(users)[i := u] && r == Ok(ApiResponse(u, "User updated successfully", true))
      ensures NoDuplicates(MapSeq(old(users), UserEmail)) ==> NoDuplicates(MapSeq(users, UserEmail))
    {
      var i := IndexOf(MapSeq(users, UserId), id);
      if i == -1 {
        return Err("User not found");
      }
      if data.email != users[i].email && data.email in MapSeq(users, UserEmail) {
        return Err("Email already in use");
      }
      var u := MergeUser(users[i], data);
      if NoDuplicates(MapSeq(users, UserEmail)) {
        UpdateUserKeepsEmailsDistinct(users, i, data);
      }
      users := users[i := u];
      r := Ok(ApiResponse(u, "User updated successfully", true));
    }

    /**
     * `updateUser` that also rewrites the stored session copy when the updated
     * user is the signed-in one, so a later `getCurrentUser` sees the change.
     */
    method UpdateUserKeepingSession(id: string, data: UserFormData) returns (r: Result<ApiResponse<User>>)
      modifies this
      ensures products == old(products) && orders == old(orders) && storedToken == old(storedToken)
      ensures var i := IndexOf(MapSeq(old(users), UserId), id);
              if i == -1 then r == Err("User not found") && users == old(users)
              else if data.email != old(users)[i].email && data.email in MapSeq(old(users), UserEmail) then
                r == Err("Email already in use") && users == old(users)
              else
                var u := MergeUser(old(users)[i], data);
                users == old(users)[i := u] && r == Ok(ApiResponse(u, "User updated successfully", true))
      ensures r.Ok? && old(storedUser).Some? && old(storedUser).value.id == id ==>
                storedUser == Some(ToAuthUser(r.value.data))
      ensures !(r.Ok? && old(storedUser).Some? && old(storedUser).value.id == id) ==> storedUser == old(storedUser)
    {
      r := UpdateUser(id, data);
      if r.Ok? && storedUser.Some? && storedUser.value.id == id {
        storedUser := Some(ToAuthUser(r.value.data));
      }
    }

    /** An unknown id fails; otherwise the first user with the id is removed and nothing else. */
    method DeleteUser(id: string) returns (r: Result<ApiResponse<()>>)
      modifies this
      ensures products == old(products) && orders == old(orders)
      ensures storedToken == old(storedToken) && storedUser == old(storedUser)
      ensures var i := IndexOf(MapSeq(old(users), UserId), id);
              if i == -1 then r == Err("User not found") && users == old(users)
              else users == RemoveAt(old(users), i) && r == Ok(ApiResponse((), "User deleted successfully", true))
    {
      var i := IndexOf(MapSeq(users, UserId), id);
      if i == -1 {
        return Err("User not found");
      }
      users := RemoveAt(users, i);
      r := Ok(ApiResponse((), "User deleted successfully", true));
    }

    /** A copy of the whole catalogue. */
    method GetProducts() returns (r: Result<ApiResponse<seq<Product>>>)
      ensures r == Ok(ApiResponse(products, "Products retrieved successfully", true))
    {
      r := Ok(ApiResponse(products, "Products retrieved successfully", true));
    }

    /** The first product with the id, or "Product not found". */
    method GetProductById(id: string) returns (r: Result<ApiResponse<Product>>)
      ensures r.Err? <==> id !in MapSeq(products, ProductId)
      ensures r.Err? ==> r.error == "Product not found"
      ensures r.Ok? ==>
                r.value.data.id == id && r.value.data in products &&
                r.value == ApiResponse(products[IndexOf(MapSeq(products, ProductId), id)], "Product retrieved successfully", true)
    {
      var i := IndexOf(MapSeq(products, ProductId), id);
      if i == -1 {
        return Err("Product not found");
      }
      r := Ok(ApiResponse(products[i], "Product retrieved successfully", true));
    }

    /** Always succeeds: exactly one product, with the placeholder image, is appended. */
    method CreateProduct(data: ProductFormData, now: string) returns (r: Result<ApiResponse<Product>>)
      modifies this
      ensures users == old(users) && orders == old(orders)
      ensures storedToken == old(storedToken) && storedUser == old(storedUser)
      ensures var p := CreatedProduct(|old(products)|, data, now);
              products == old(products) + [p] && r == Ok(ApiResponse(p, "Product created successfully", true))
    {
      var p := CreatedProduct(|products|, data, now);
      products := products + [p];
      r := Ok(ApiResponse(p, "Product created successfully", true));
    }

    /** An unknown id fails; otherwise only the first product with the id is merged with the form. */
    method UpdateProduct(id: string, data: ProductFormData) returns (r: Result<ApiResponse<Product>>)
      modifies this
      ensures users == old(users) && orders == old(orders)
      ensures storedToken == old(storedToken) && storedUser == old(storedUser)
      ensures var i := IndexOf(MapSeq(old(products), ProductId), id);
              if i == -1 then r == Err("Product not found") && products == old(products)
              else
                var p := MergeProduct(old(products)[i], data);
                products == old(products)[i := p] && r == Ok(ApiResponse(p, "Product updated successfully", true))
    {
      var i := IndexOf(MapSeq(products, ProductId), id);
      if i == -1 {
        return Err("Product not found");
      }
      var p := MergeProduct(products[i], data);
      products := products[i := p];
      r := Ok(ApiResponse(p, "Product updated successfully", true));
    }

    /** An unknown id fails; otherwise the first product with the id is removed and nothing else. */
    method DeleteProduct(id: string) returns (r: Result<ApiResponse<()>>)
      modifies this
      ensures users == old(users) && orders == old(orders)
      ensures storedToken == old(storedToken) && storedUser == old(storedUser)
      ensures var i := IndexOf(MapSeq(old(products), ProductId), id);
              if i == -1 then r == Err("Product not found") && products == old(products)
              else products == RemoveAt(old(products), i) && r == Ok(ApiResponse((), "Product deleted successfully", true))
    {
      var i := IndexOf(MapSeq(products, ProductId), id);
      if i == -1 {
        return Err("Product not found");
      }
      products := RemoveAt(products, i);
      r := Ok(ApiResponse((), "Product deleted successfully", true));
    }

    /** A copy of the whole order table. */
    method GetOrders() returns (r: Result<ApiResponse<seq<Order>>>)
      ensures r == Ok(ApiResponse(orders, "Orders retrieved successfully", true))
    {
      r := Ok(ApiResponse(orders, "Orders retrieved successfully", true));
    }

    /** The first order with the id, or "Order not found". */
    method GetOrderById(id: string) returns (r: Result<ApiResponse<Order>>)
      ensures r.Err? <==> id !in MapSeq(orders, OrderId)
      ensures r.Err? ==> r.error == "Order not found"
      ensures r.Ok? ==>
                r.value.data.id == id && r.value.data in orders &&
                r.value == ApiResponse(orders[IndexOf(MapSeq(orders, OrderId), id)], "Order retrieved successfully", true)
    {
      var i := IndexOf(MapSeq(orders, OrderId), id);
      if i == -1 {
        return Err("Order not found");
      }
      r := Ok(ApiResponse(orders[i], "Order retrieved successfully", true));
    }

    /**
     * An unknown id fails; otherwise only the status and update time of the
     * first order with the id change: its items, total and every other order
     * stay, and the number of orders never changes.
     */
    method UpdateOrderStatus(id: string, update: OrderStatusUpdate, now: string) returns (r: Result<ApiResponse<Order>>)
      modifies this
      ensures users == old(users) && products == old(products)
      ensures storedToken == old(storedToken) && storedUser == old(storedUser)
      ensures |orders| == |old(orders)|
      ensures var i := IndexOf(MapSeq(old(orders), OrderId), id);
              if i == -1 then r == Err("Order not found") && orders == old(orders)
              else
                var o := WithStatus(old(orders)[i], update.status, now);
                orders == old(orders)[i := o] && r == Ok(ApiResponse(o, "Order status updated successfully", true)) &&
                o.items == old(orders)[i].items && o.total == old(orders)[i].total
    {
      var i := IndexOf(MapSeq(orders, OrderId), id);
      if i == -1 {
        return Err("Order not found");
      }
      var o := WithStatus(orders[i], update.status, now);
      orders := orders[i := o];
      r := Ok(ApiResponse(o, "Order status updated successfully", true));
    }
  }
}
