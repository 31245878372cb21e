/**
 * The resource modules of `src/utils/api.js`: each named operation is one
 * call with a fixed verb, a path built from the resource name and the
 * interpolated id, and an optional body. `Convention` is the uniform REST
 * rule the modules follow, stated once; `ResourceApi` is the modules as
 * written, six object literals.
 */
module Endpoints {
  import opened Wrappers
  import opened Js
  import opened Http

  datatype Resource = Products | Orders | Customers | Blogs | Discounts | ShippingMethods

  /** The operation names the resource modules use. */
  datatype Op =
    | GetAll
    | GetById(id: Value)
    | Create(data: Value)
    | Update(id: Value, data: Value)
    | Delete(id: Value)
    | UpdateStatus(id: Value, status: Value)

  /** `` `/products/${id}` ``-style path: the base followed by the id as a template literal prints it. */
  function Item(base: string, id: Value): string {
    base + "/" + ToString(id)
  }

  function ProductsApi(op: Op): Option<Call> {
    match op
    case GetAll => Some(Call(GET, "/products", None))
    case GetById(id) => Some(Call(GET, Item("/products", id), None))
    case Create(data) => Some(Call(POST, "/products", Some(data)))
    case Update(id, data) => Some(Call(PUT, Item("/products", id), Some(data)))
    case Delete(id) => Some(Call(DELETE, Item("/products", id), None))
    case UpdateStatus(id, status) => Some(Call(PATCH, Item("/products", id) + "/status", Some(Single("status", status))))
  }

  /** `ordersAPI` has no `create` and no `update`. */
  function OrdersApi(op: Op): Option<Call> {
    match op
    case GetAll => Some(Call(GET, "/orders", None))
    case GetById(id) => Some(Call(GET, Item("/orders", id), None))
    case UpdateStatus(id, status) => Some(Call(PATCH, Item("/orders", id) + "/status", Some(Single("status", status))))
    case Delete(id) => Some(Call(DELETE, Item("/orders", id), None))
    case _ => None
  }

  /** `customersAPI` has no `create`. */
  function CustomersApi(op: Op): Option<Call> {
    match op
    case GetAll => Some(Call(GET, "/customers", None))
    case GetById(id) => Some(Call(GET, Item("/customers", id), None))
    case Update(id, data) => Some(Call(PUT, Item("/customers", id), Some(data)))
    case Delete(id) => Some(Call(DELETE, Item("/customers", id), None))
    case UpdateStatus(id, status) => Some(Call(PATCH, Item("/customers", id) + "/status", Some(Single("status", status))))
    case Create(_) => None
  }

  function BlogsApi(op: Op): Option<Call> {
    match op
    case GetAll => Some(Call(GET, "/blogs", None))
    case GetById(id) => Some(Call(GET, Item("/blogs", id), None))
    case Create(data) => Some(Call(POST, "/blogs", Some(data)))
    case Update(id, data) => Some(Call(PUT, Item("/blogs", id), Some(data)))
    case Delete(id) => Some(Call(DELETE, Item("/blogs", id), None))
    case UpdateStatus(id, status) => Some(Call(PATCH, Item("/blogs", id) + "/status", Some(Single("status", status))))
  }

  function DiscountsApi(op: Op): Option<Call> {
    match op
    case GetAll => Some(Call(GET, "/discounts", None))
    case GetById(id) => Some(Call(GET, Item("/discounts", id), None))
    case Create(data) => Some(Call(POST, "/discounts", Some(data)))
    case Update(id, data) => Some(Call(PUT, Item("/discounts", id), Some(data)))
    case Delete(id) => Some(Call(DELETE, Item("/discounts", id), None))
    case UpdateStatus(id, status) => Some(Call(PATCH, Item("/discounts", id) + "/status", Some(Single("status", status))))
  }

  function ShippingApi(op: Op): Option<Call> {
    match op
    case GetAll => Some(Call(GET, "/shipping-methods", None))
    case GetById(id) => Some(Call(GET, Item("/shipping-methods", id), None))
    case Create(data) => Some(Call(POST, "/shipping-methods", Some(data)))
    case Update(id, data) => Some(Call(PUT, Item("/shipping-methods", id), Some(data)))
    case Delete(id) => Some(Call(DELETE, Item("/shipping-methods", id), None))
    case UpdateStatus(id, status) => Some(Call(PATCH, Item("/shipping-methods", id) + "/status", Some(Single("status", status))))
  }

  /** The operations a module does not define (calling them is a TypeError in the source). */
  predicate Offered(r: Resource, op: Op) {
    !(r == Orders && (op.Create? || op.Update?)) && !(r == Customers && op.Create?)
  }

  /** The call a named operation of a resource module makes, when the module defines it. */
  function ResourceApi(r: Resource, op: Op): (c: Option<Call>)
    ensures c.Some? <==> Offered(r, op)
  {
    match r
    case Products => ProductsApi(op)
    case Orders => OrdersApi(op)
    case Customers => CustomersApi(op)
    case Blogs => BlogsApi(op)
    case Discounts => DiscountsApi(op)
    case ShippingMethods => ShippingApi(op)
  }

  /** The call of an operation the module defines. */
  function Api(r: Resource, op: Op): Call
    requires Offered(r, op)
  {
    ResourceApi(r, op).value
  }

  /** The path segment naming each resource. */
  function Base(r: Resource): string {
    match r
    case Products => "products"
    case Orders => "orders"
    case Customers => "customers"
    case Blogs => "blogs"
    case Discounts => "discounts"
    case ShippingMethods => "shipping-methods"
  }

  /**
   * The uniform REST convention: `GET /R`, `GET /R/id`, `POST /R`,
   * `PUT /R/id`, `DELETE /R/id`, `PATCH /R/id/status` with `{ status }`.
   */
  function Convention(r: Resource, op: Op): Call {
    var root := "/" + Base(r);
    match op
    case GetAll => Call(GET, root, None)
    case GetById(id) => Call(GET, root + "/" + ToString(id), None)
    case Create(data) => Call(POST, root, Some(data))
    case Update(id, data) => Call(PUT, root + "/" + ToString(id), Some(data))
    case Delete(id) => Call(DELETE, root + "/" + ToString(id), None)
    case UpdateStatus(id, status) => Call(PATCH, root + "/" + ToString(id) + "/status", Some(Obj(map["status" := status])))
  }

  /** Every operation a module defines follows the convention; the others are exactly the missing ones. */
  lemma ModulesFollowConvention(r: Resource, op: Op)
    ensures ResourceApi(r, op) == if Offered(r, op) then Some(Convention(r, op)) else None
  {
    match r
    case Products => assert "/products" == "/" + Base(r);
    case Orders => assert "/orders" == "/" + Base(r);
    case Customers => assert "/customers" == "/" + Base(r);
    case Blogs => assert "/blogs" == "/" + Base(r);
    case Discounts => assert "/discounts" == "/" + Base(r);
    case ShippingMethods => assert "/shipping-methods" == "/" + Base(r);
  }

  /** `updateStatus(id, s)` wraps its argument, whatever it is, as `{ status: s }`. */
  lemma StatusIsWrapped(r: Resource, id: Value, s: Value)
    ensures ResourceApi(r, UpdateStatus(id, s)) ==
      Some(Call(PATCH, "/" + Base(r) + "/" + ToString(id) + "/status", Some(Single("status", s))))
  {
    ModulesFollowConvention(r, UpdateStatus(id, s));
  }

  /** No two resources share a call: the first segment of the path names the resource. */
  lemma CallDeterminesResource(r1: Resource, op1: Op, r2: Resource, op2: Op)
    requires Offered(r1, op1) && Offered(r2, op2)
    requires Api(r1, op1).verb == Api(r2, op2).verb && Api(r1, op1).path == Api(r2, op2).path
    ensures r1 == r2
  {
    ModulesFollowConvention(r1, op1);
    ModulesFollowConvention(r2, op2);
    var p1 := Api(r1, op1).path;
    var p2 := Api(r2, op2).path;
    assert p1[1] == Base(r1)[0];
    assert p2[1] == Base(r2)[0];
  }

  /** A module with the same verb and path for two operations got the same kind of operation. */
  lemma CallDeterminesKind(r: Resource, op1: Op, op2: Op)
    requires Offered(r, op1) && Offered(r, op2)
    requires Api(r, op1).verb == Api(r, op2).verb && Api(r, op1).path == Api(r, op2).path
    ensures op1.GetAll? <==> op2.GetAll?
    ensures op1.GetById? <==> op2.GetById?
    ensures op1.Create? <==> op2.Create?
    ensures op1.Update? <==> op2.Update?
    ensures op1.Delete? <==> op2.Delete?
    ensures op1.UpdateStatus? <==> op2.UpdateStatus?
  {
    ModulesFollowConvention(r, op1);
    ModulesFollowConvention(r, op2);
  }

  /** `authAPI`. */
  datatype AuthOp = Login(email: Value, password: Value) | GetCurrentUser | Logout

  function AuthApi(op: AuthOp): (c: Call)
    ensures op.Login? ==>
      (c.verb == POST && c.path == "/api/auth/login"
       && c.body == Some(Obj(map["email" := op.email, "password" := op.password])))
    ensures op.GetCurrentUser? ==> c == Call(GET, "/api/auth/me", None)
    ensures op.Logout? ==> c == Call(POST, "/api/auth/logout", None)
  {
    match op
    case Login(email, password) => Call(POST, "/api/auth/login", Some(Obj(map["email" := email, "password" := password])))
    case GetCurrentUser => Call(GET, "/api/auth/me", None)
    case Logout => Call(POST, "/api/auth/logout", None)
  }

  /** `settingsAPI`: a singleton without an id. */
  datatype SettingsOp = GetSettings | UpdateSettings(data: Value)

  function SettingsApi(op: SettingsOp): (c: Call)
    ensures c.path == "/settings"
    ensures op.GetSettings? ==> c.verb == GET && c.body == None
    ensures op.UpdateSettings? ==> c.verb == PUT && c.body == Some(op.data)
  {
    match op
    case GetSettings => Call(GET, "/settings", None)
    case UpdateSettings(data) => Call(PUT, "/settings", Some(data))
  }

  /** `dashboardAPI`: three read-only reports. */
  datatype DashboardOp = GetStats | GetRecentOrders | GetLowStockProducts

  function DashboardApi(op: DashboardOp): (c: Call)
    ensures c.verb == GET && c.body == None
    ensures op.GetStats? ==> c.path == "/dashboard/stats"
    ensures op.GetRecentOrders? ==> c.path == "/dashboard/recent-orders"
    ensures op.GetLowStockProducts? ==> c.path == "/dashboard/low-stock-products"
  {
    match op
    case GetStats => Call(GET, "/dashboard/stats", None)
    case GetRecentOrders => Call(GET, "/dashboard/recent-orders", None)
    case GetLowStockProducts => Call(GET, "/dashboard/low-stock-products", None)
  }
}
