/**
 * The entities of the back office: users, products, orders and the authenticated
 * session projection, with the closed string enumerations they use.
 *
 * In the application every enumeration is a union of string literals. The model
 * keeps a datatype per enumeration and the exact wire names, with the parser that
 * inverts them, so that code comparing against a string (a filter, a colour map)
 * can be related to the typed value.
 */
module Types {
  import opened Wrappers

  datatype Role = Admin | Editor | Viewer
  datatype UserStatus = Active | Inactive
  datatype ProductStatus = InStock | LowStock | OutOfStock
  datatype OrderStatus = Pending | Processing | Shipped | Delivered | Cancelled
  datatype PaymentStatus = PaymentPending | Paid | Failed | Refunded

  function RoleName(r: Role): string {
    match r
    case Admin => "admin"
    case Editor => "editor"
    case Viewer => "viewer"
  }

  function ParseRole(s: string): Option<Role> {
    if s == "admin" then Some(Admin)
    else if s == "editor" then Some(Editor)
    else if s == "viewer" then Some(Viewer)
    else None
  }

  /** A role is exactly one of the three names, and the names invert the parser. */
  lemma RoleNamesAreExact(s: string)
    ensures ParseRole(s).Some? <==> s in {"admin", "editor", "viewer"}
    ensures ParseRole(s).Some? ==> RoleName(ParseRole(s).value) == s
    ensures forall r :: ParseRole(RoleName(r)) == Some(r)
  {
  }

  function UserStatusName(s: UserStatus): string {
    match s
    case Active => "active"
    case Inactive => "inactive"
  }

  function ParseUserStatus(s: string): Option<UserStatus> {
    if s == "active" then Some(Active)
    else if s == "inactive" then Some(Inactive)
    else None
  }

  function ProductStatusName(s: ProductStatus): string {
    match s
    case InStock => "in-stock"
    case LowStock => "low-stock"
    case OutOfStock => "out-of-stock"
  }

  function ParseProductStatus(s: string): Option<ProductStatus> {
    if s == "in-stock" then Some(InStock)
    else if s == "low-stock" then Some(LowStock)
    else if s == "out-of-stock" then Some(OutOfStock)
    else None
  }

  function OrderStatusName(s: OrderStatus): string {
    match s
    case Pending => "pending"
    case Processing => "processing"
    case Shipped => "shipped"
    case Delivered => "delivered"
    case Cancelled => "cancelled"
  }

  function ParseOrderStatus(s: string): Option<OrderStatus> {
    if s == "pending" then Some(Pending)
    else if s == "processing" then Some(Processing)
    else if s == "shipped" then Some(Shipped)
    else if s == "delivered" then Some(Delivered)
    else if s == "cancelled" then Some(Cancelled)
    else None
  }

  function PaymentStatusName(s: PaymentStatus): string {
    match s
    case PaymentPending => "pending"
    case Paid => "paid"
    case Failed => "failed"
    case Refunded => "refunded"
  }

  function ParsePaymentStatus(s: string): Option<PaymentStatus> {
    if s == "pending" then Some(PaymentPending)
    else if s == "paid" then Some(Paid)
    else if s == "failed" then Some(Failed)
    else if s == "refunded" then Some(Refunded)
    else None
  }

  /** The user and product statuses are exactly the two and three names the types list. */
  lemma UserAndProductStatusNamesAreExact(s: string)
    ensures ParseUserStatus(s).Some? <==> s in {"active", "inactive"}
    ensures ParseUserStatus(s).Some? ==> UserStatusName(ParseUserStatus(s).value) == s
    ensures forall u :: ParseUserStatus(UserStatusName(u)) == Some(u)
    ensures ParseProductStatus(s).Some? <==> s in {"in-stock", "low-stock", "out-of-stock"}
    ensures ParseProductStatus(s).Some? ==> ProductStatusName(ParseProductStatus(s).value) == s
    ensures forall p :: ParseProductStatus(ProductStatusName(p)) == Some(p)
  {
  }

  /** An order status is one of five names and a payment status one of four. */
  lemma OrderAndPaymentStatusNamesAreExact(s: string)
    ensures ParseOrderStatus(s).Some? <==> s in {"pending", "processing", "shipped", "delivered", "cancelled"}
    ensures ParseOrderStatus(s).Some? ==> OrderStatusName(ParseOrderStatus(s).value) == s
    ensures forall o :: ParseOrderStatus(OrderStatusName(o)) == Some(o)
    ensures ParsePaymentStatus(s).Some? <==> s in {"pending", "paid", "failed", "refunded"}
    ensures ParsePaymentStatus(s).Some? ==> PaymentStatusName(ParsePaymentStatus(s).value) == s
    ensures forall p :: ParsePaymentStatus(PaymentStatusName(p)) == Some(p)
  {
  }

  /** A stored user; `avatar` is optional. */
  datatype User = User(
    id: string,
    name: string,
    email: string,
    role: Role,
    avatar: Option<string>,
    createdAt: string,
    status: UserStatus)

  /** The payload of the user create/edit form; `password` is optional. */
  datatype UserFormData = UserFormData(
    name: string,
    email: string,
    role: Role,
    password: Option<string>,
    status: UserStatus)

  /** A catalogue product; `image` is optional. Prices and stock are JavaScript numbers, here reals. */
  datatype Product = Product(
    id: string,
    name: string,
    description: string,
    price: real,
    category: string,
    stock: real,
    image: Option<string>,
    createdAt: string,
    status: ProductStatus)

  datatype ProductFormData = ProductFormData(
    name: string,
    description: string,
    price: real,
    category: string,
    stock: real,
    status: ProductStatus)

  datatype OrderItem = OrderItem(
    id: string,
    productId: string,
    productName: string,
    quantity: real,
    price: real,
    subtotal: real)

  datatype Order = Order(
    id: string,
    customerId: string,
    customerName: string,
    customerEmail: string,
    items: seq<OrderItem>,
    total: real,
    status: OrderStatus,
    paymentStatus: PaymentStatus,
    shippingAddress: string,
    createdAt: string,
    updatedAt: string)

  /** A status change request carries a status and nothing else. */
  datatype OrderStatusUpdate = OrderStatusUpdate(status: OrderStatus)

  /** The session's view of a user. */
  datatype AuthUser = AuthUser(
    id: string,
    name: string,
    email: string,
    role: Role,
    avatar: Option<string>)

  datatype LoginCredentials = LoginCredentials(email: string, password: string)

  datatype RegisterData = RegisterData(name: string, email: string, password: string, confirmPassword: string)

  /** The envelope every successful backend call returns. */
  datatype ApiResponse<T> = ApiResponse(data: T, message: string, success: bool)

  /** The `{id, name, email, role, avatar}` projection of a user taken at login and registration. */
  function ToAuthUser(u: User): AuthUser {
    AuthUser(u.id, u.name, u.email, u.role, u.avatar)
  }

  /**
   * Every field of the session projection is the user field of the same name, so
   * two users that agree on the five shared fields have the same projection.
   */
  lemma AuthUserFieldsAreUserFields(u: User, v: User)
    ensures ToAuthUser(u).id == u.id && ToAuthUser(u).name == u.name && ToAuthUser(u).email == u.email
    ensures ToAuthUser(u).role == u.role && ToAuthUser(u).avatar == u.avatar
    ensures ToAuthUser(u) == ToAuthUser(v) <==>
      (u.id, u.name, u.email, u.role, u.avatar) == (v.id, v.name, v.email, v.role, v.avatar)
  {
  }
}
