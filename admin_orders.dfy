/**
 * The orders table, `src/admin/AdminOrders.jsx`: a list fetched from
 * `/orders`, a details modal, a delete action and a button that toggles an
 * order between completed and pending.
 */
module AdminOrders {
  import opened Wrappers
  import opened Js
  import opened Http
  import opened Endpoints
  import opened Browser
  import opened Views
  import ApiClient

  const FetchFailed := "Failed to fetch orders"
  const DeletedMsg := "Order deleted successfully"
  const DeleteFailed := "Failed to delete order"
  const StatusFailed := "Failed to update order status"

  const Completed := "completed"
  const Pending := "pending"

  const Green := "bg-green-100 text-green-800"
  const Yellow := "bg-yellow-100 text-yellow-800"
  const Red := "bg-red-100 text-red-800"
  const Gray := "bg-gray-100 text-gray-800"

  /** The status the row's button asks for: pending for a completed order, completed for any other. */
  function NewStatus(current: Value): (s: string)
    ensures s == Completed || s == Pending
    ensures s == Pending <==> current == Str(Completed)
  {
    Flip(current, Completed, Pending)
  }

  /** The toggle is an involution on the two statuses it produces. */
  lemma NewStatusTwice(s: string)
    requires s == Completed || s == Pending
    ensures NewStatus(Str(NewStatus(Str(s)))) == s
  {
    FlipTwice(s, Completed, Pending);
  }

  /** `Order ${newStatus} successfully`. */
  function StatusMessage(newStatus: string): string {
    "Order " + newStatus + " successfully"
  }

  /** `getStatusColor`: one colour per known status, gray for every other value. */
  function StatusColor(status: Value): (c: string)
    ensures c == Green <==> status == Str(Completed)
    ensures c == Yellow <==> status == Str(Pending)
    ensures c == Red <==> status == Str("cancelled")
    ensures c == Gray <==> status != Str(Completed) && status != Str(Pending) && status != Str("cancelled")
  {
    if status == Str(Completed) then Green
    else if status == Str(Pending) then Yellow
    else if status == Str("cancelled") then Red
    else Gray
  }

  class AdminOrdersPage {
    var orders: Value
    var loading: bool
    var selectedOrder: Value
    var showModal: bool

    constructor ()
      ensures orders == Arr([]) && loading && selectedOrder == Null && !showModal
    {
      orders := Arr([]);
      loading := true;
      selectedOrder := Null;
      showModal := false;
    }

    /** The details modal is on screen only while its flag holds and an order is selected. */
    predicate DetailsShown()
      reads this
    {
      ModalShown(showModal, selectedOrder)
    }

    /** `fetchOrders`: the list on success, only a toast on failure. */
    method FetchOrders(b: Browser, reply: Reply) returns (pending: bool)
      modifies this`orders, this`loading, b`storage, b`location, b`requests, b`toasts
      ensures pending && !loading
      ensures b.Net() == ApiClient.Dispatch(old(b.Net()), Exchange(Api(Orders, GetAll), reply))
      ensures orders == (if reply.Ok? then reply.data else old(orders))
      ensures b.toasts == old(b.toasts) + FailureToasts(reply, FetchFailed)
    {
      loading := true;
      pending := loading;
      var r := ApiClient.Send(b, Exchange(Api(Orders, GetAll), reply));
      if r.Ok? {
        orders := r.data;
      } else {
        b.toasts := b.toasts + [ToastError(FetchFailed)];
      }
      loading := false;
    }

    /** `handleDelete`: nothing without confirmation; with it one delete, and a refetch if it succeeded. */
    method HandleDelete(b: Browser, id: Value, confirmed: bool, reply: Reply, refetch: Reply)
      modifies this`orders, this`loading, b`storage, b`location, b`requests, b`toasts
      ensures !confirmed ==>
        b.Net() == old(b.Net()) && b.toasts == old(b.toasts) && orders == old(orders) && loading == old(loading)
      ensures confirmed ==>
        var n := ApiClient.Dispatch(old(b.Net()), Exchange(Api(Orders, Delete(id)), reply));
        b.Net() == (if reply.Ok? then ApiClient.Dispatch(n, Exchange(Api(Orders, GetAll), refetch)) else n)
      ensures confirmed && reply.Ok? ==>
        orders == (if refetch.Ok? then refetch.data else old(orders)) && !loading
        && b.toasts == old(b.toasts) + [ToastSuccess(DeletedMsg)] + FailureToasts(refetch, FetchFailed)
      ensures confirmed && reply.Failed? ==>
        orders == old(orders) && loading == old(loading) && b.toasts == old(b.toasts) + [ToastError(DeleteFailed)]
    {
      if confirmed {
        var r := ApiClient.Send(b, Exchange(Api(Orders, Delete(id)), reply));
        if r.Ok? {
          b.toasts := b.toasts + [ToastSuccess(DeletedMsg)];
          var _ := FetchOrders(b, refetch);
        } else {
          b.toasts := b.toasts + [ToastError(DeleteFailed)];
        }
      }
    }

    /**
     * `handleStatusChange(id, currentStatus)`: one status call with the
     * toggled status as a bare string, then a refetch on success.
     */
    method HandleStatusChange(b: Browser, id: Value, currentStatus: Value, reply: Reply, refetch: Reply)
      modifies this`orders, this`loading, b`storage, b`location, b`requests, b`toasts
      ensures var n := ApiClient.Dispatch(old(b.Net()), Exchange(Api(Orders, UpdateStatus(id, Str(NewStatus(currentStatus)))), reply));
        b.Net() == (if reply.Ok? then ApiClient.Dispatch(n, Exchange(Api(Orders, GetAll), refetch)) else n)
      ensures reply.Ok? ==>
        orders == (if refetch.Ok? then refetch.data else old(orders)) && !loading
        && b.toasts == old(b.toasts) + [ToastSuccess(StatusMessage(NewStatus(currentStatus)))] + FailureToasts(refetch, FetchFailed)
      ensures reply.Failed? ==>
        orders == old(orders) && loading == old(loading) && b.toasts == old(b.toasts) + [ToastError(StatusFailed)]
    {
      var newStatus := NewStatus(currentStatus);
      var r := ApiClient.Send(b, Exchange(Api(Orders, UpdateStatus(id, Str(newStatus))), reply));
      if r.Ok? {
        b.toasts := b.toasts + [ToastSuccess(StatusMessage(newStatus))];
        var _ := FetchOrders(b, refetch);
      } else {
        b.toasts := b.toasts + [ToastError(StatusFailed)];
      }
    }

    /** `handleViewDetails(order)`: selects the order and opens the modal. */
    method HandleViewDetails(order: Value)
      modifies this`selectedOrder, this`showModal
      ensures selectedOrder == order && showModal
      ensures DetailsShown() <==> Truthy(order)
    {
      selectedOrder := order;
      showModal := true;
    }

    /** The modal's Close button. */
    method CloseModal()
      modifies this`showModal
      ensures !showModal && !DetailsShown()
    {
      showModal := false;
    }
  }

  /** The order's status call sends `{status: <string>}` to `/orders/<id>/status`. */
  lemma StatusCallBody(id: Value, current: Value)
    ensures var c := Api(Orders, UpdateStatus(id, Str(NewStatus(current))));
      c.verb == PATCH && c.path == "/orders/" + ToString(id) + "/status"
      && c.body == Some(Single("status", Str(if current == Str(Completed) then Pending else Completed)))
  {
  }
}
