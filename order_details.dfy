/**
 * One order, `src/admin/OrderDetails.jsx`: fetched by the id taken from the
 * route, shown with a status selector, and refreshed after every status
 * change. The route binds the id as `orderId`, while the page reads a
 * parameter named `id`.
 */
module OrderDetails {
  import opened Wrappers
  import opened Js
  import opened Http
  import opened Endpoints
  import opened Browser
  import opened Views
  import ApiClient
  import Routes

  const FetchFailed := "Failed to fetch order details"
  const StatusUpdated := "Order status updated successfully"
  const StatusFailed := "Failed to update order status"

  /** `const { id } = useParams()`, as written: the parameter named `id`, `undefined` when the route binds none. */
  function ParamId(params: map<string, string>): (v: Value)
    ensures "id" in params ==> v == Str(params["id"])
    ensures "id" !in params ==> v == Undefined
  {
    if "id" in params then Str(params["id"]) else Undefined
  }

  /** The parameter the order route actually binds. */
  function CorrectedParamId(params: map<string, string>): (v: Value)
    ensures "orderId" in params ==> v == Str(params["orderId"])
    ensures "orderId" !in params ==> v == Undefined
  {
    if "orderId" in params then Str(params["orderId"]) else Undefined
  }

  /**
   * As written, opening any order's location renders this page with no `id`
   * parameter, so the page asks the backend for the order "undefined".
   */
  lemma AsWrittenFetchesUndefined(id: string, storage: map<string, string>)
    requires id != "" && '/' !in id && HasToken(storage)
    ensures var o := Routes.Resolve("/admin/orders/" + id, storage);
      o == Routes.Render(Routes.OrderDetails, map["orderId" := id])
      && ParamId(o.params) == Undefined
      && Api(Orders, GetById(ParamId(o.params))) == Call(GET, "/orders/undefined", None)
  {
    Routes.OrderDetailsRoute(id, storage);
    UndefinedCall(map["orderId" := id]);
  }

  lemma UndefinedCall(params: map<string, string>)
    requires "id" !in params
    ensures Api(Orders, GetById(ParamId(params))) == Call(GET, "/orders/undefined", None)
  {
    assert ToString(Undefined) == "undefined";
  }

  /** Reading `orderId` instead fetches the order the location names. */
  lemma CorrectedFetchesOrder(id: string, storage: map<string, string>)
    requires id != "" && '/' !in id && HasToken(storage)
    ensures var o := Routes.Resolve("/admin/orders/" + id, storage);
      o == Routes.Render(Routes.OrderDetails, map["orderId" := id])
      && CorrectedParamId(o.params) == Str(id)
      && Api(Orders, GetById(CorrectedParamId(o.params))) == Call(GET, "/orders/" + id, None)
  {
    Routes.OrderDetailsRoute(id, storage);
    OrderCall(map["orderId" := id], id);
  }

  lemma OrderCall(params: map<string, string>, id: string)
    requires "orderId" in params && params["orderId"] == id
    ensures Api(Orders, GetById(CorrectedParamId(params))) == Call(GET, "/orders/" + id, None)
  {
  }

  /** What the page renders, checked in this order: the spinner, the error, "not found", the details. */
  datatype Screen = Spinner | ErrorPanel(message: string) | NotFound | Details(order: Value)

  function ScreenOf(loading: bool, error: string, order: Value): (s: Screen)
    ensures s.Spinner? <==> loading
    ensures s.ErrorPanel? <==> !loading && error != ""
    ensures s.ErrorPanel? ==> s.message == error
    ensures s.NotFound? <==> !loading && error == "" && !Truthy(order)
    ensures s.Details? <==> !loading && error == "" && Truthy(order)
    ensures s.Details? ==> s.order == order
  {
    if loading then Spinner
    else if error != "" then ErrorPanel(error)
    else if !Truthy(order) then NotFound
    else Details(order)
  }

  /**
   * Nothing clears the error: once a fetch has failed, no later fetch,
   * successful or not, brings the details back.
   */
  lemma ErrorHidesDetails(error: string, replies: seq<Reply>, order: Value)
    requires error != ""
    ensures ScreenOf(false, ErrorAfter(error, FetchFailed, replies), order).ErrorPanel?
  {
    ErrorSticks(error, FetchFailed, replies);
  }

  const Green := "bg-green-100 text-green-800"
  const Blue := "bg-blue-100 text-blue-800"
  const Purple := "bg-purple-100 text-purple-800"
  const Red := "bg-red-100 text-red-800"
  const Yellow := "bg-yellow-100 text-yellow-800"

  /** The status selector's colour: one per known status, yellow for pending and anything else. */
  function StatusColor(status: Value): (c: string)
    ensures c == Green <==> status == Str("completed")
    ensures c == Blue <==> status == Str("processing")
    ensures c == Purple <==> status == Str("shipped")
    ensures c == Red <==> status == Str("cancelled")
    ensures c == Yellow <==> status !in {Str("completed"), Str("processing"), Str("shipped"), Str("cancelled")}
  {
    if status == Str("completed") then Green
    else if status == Str("processing") then Blue
    else if status == Str("shipped") then Purple
    else if status == Str("cancelled") then Red
    else Yellow
  }

  /** `order.discount > 0`, for a discount that is a number, a boolean or absent. */
  function DiscountShown(order: Value): (r: bool)
    ensures Get(order, "discount").Num? ==> (r <==> Get(order, "discount").n > 0)
    ensures Get(order, "discount") == Bool(true) ==> r
    ensures IsNullish(Get(order, "discount")) || Get(order, "discount") == Bool(false) ==> !r
  {
    match Get(order, "discount")
    case Num(n) => n > 0
    case Bool(b) => b
    case _ => false
  }

  class OrderDetailsPage {
    /** The route parameter the page was rendered with. */
    const id: Value
    var order: Value
    var loading: bool
    var error: string
    var isUpdating: bool

    constructor (id: Value)
      ensures this.id == id && order == Null && loading && error == "" && !isUpdating
    {
      this.id := id;
      order := Null;
      loading := true;
      error := "";
      isUpdating := false;
    }

    function Screen(): Screen
      reads this
    {
      ScreenOf(loading, error, order)
    }

    /**
     * `fetchOrderDetails`, also the Refresh button: the order on success;
     * the error text and a toast on failure. A success leaves an earlier
     * error in place.
     */
    method FetchOrderDetails(b: Browser, reply: Reply) returns (pending: bool)
      modifies this`order, this`loading, this`error, b`storage, b`location, b`requests, b`toasts
      ensures pending && !loading
      ensures b.Net() == ApiClient.Dispatch(old(b.Net()), Exchange(Api(Orders, GetById(id)), reply))
      ensures order == (if reply.Ok? then reply.data else old(order))
      ensures error == ErrorAfter(old(error), FetchFailed, [reply])
      ensures b.toasts == old(b.toasts) + FailureToasts(reply, FetchFailed)
    {
      loading := true;
      pending := loading;
      var r := ApiClient.Send(b, Exchange(Api(Orders, GetById(id)), reply));
      if r.Ok? {
        order := r.data;
      } else {
        error := FetchFailed;
        b.toasts := b.toasts + [ToastError(FetchFailed)];
      }
      loading := false;
    }

    /**
     * `handleStatusChange(newStatus)`: one status call whose body wraps the
     * status twice, `{status: {status: newStatus}}`; a refetch on success.
     * `isUpdating` holds during the call and is false afterwards.
     */
    method HandleStatusChange(b: Browser, newStatus: Value, reply: Reply, refetch: Reply) returns (updatingDuringCall: bool)
      modifies this`order, this`loading, this`error, this`isUpdating, b`storage, b`location, b`requests, b`toasts
      ensures updatingDuringCall && !isUpdating
      ensures var n := ApiClient.Dispatch(old(b.Net()), Exchange(Api(Orders, UpdateStatus(id, Single("status", newStatus))), reply));
        b.Net() == (if reply.Ok? then ApiClient.Dispatch(n, Exchange(Api(Orders, GetById(id)), refetch)) else n)
      ensures reply.Ok? ==>
        order == (if refetch.Ok? then refetch.data else old(order)) && !loading
        && error == ErrorAfter(old(error), FetchFailed, [refetch])
        && b.toasts == old(b.toasts) + [ToastSuccess(StatusUpdated)] + FailureToasts(refetch, FetchFailed)
      ensures reply.Failed? ==>
        order == old(order) && loading == old(loading) && error == old(error)
        && b.toasts == old(b.toasts) + [ToastError(StatusFailed)]
    {
      isUpdating := true;
      updatingDuringCall := isUpdating;
      var r := ApiClient.Send(b, Exchange(Api(Orders, UpdateStatus(id, Single("status", newStatus))), reply));
      if r.Ok? {
        b.toasts := b.toasts + [ToastSuccess(StatusUpdated)];
        var _ := FetchOrderDetails(b, refetch);
      } else {
        b.toasts := b.toasts + [ToastError(StatusFailed)];
      }
      isUpdating := false;
    }
  }

  /** The status call of this page sends the status wrapped twice. */
  lemma StatusCallBody(id: Value, s: Value)
    ensures Api(Orders, UpdateStatus(id, Single("status", s))).body == Some(Single("status", Single("status", s)))
  {
  }
}
