/**
 * The plain orders page, `src/admin/Orders.jsx`: a list fetched from
 * `/orders` with a status selector per row, an error banner above the
 * table, and a details modal.
 */
module Orders {
  import opened Wrappers
  import opened Js
  import opened Http
  import opened Endpoints
  import opened Browser
  import opened Views
  import ApiClient

  const FetchFailed := "Failed to fetch orders"
  const StatusUpdated := "Order status updated successfully"
  const StatusFailed := "Failed to update order status"

  const Green := "bg-green-100 text-green-800"
  const Yellow := "bg-yellow-100 text-yellow-800"
  const Red := "bg-red-100 text-red-800"

  /** The selector's colour: green when completed, yellow when pending, red for every other value. */
  function StatusColor(status: Value): (c: string)
    ensures c == Green <==> status == Str("completed")
    ensures c == Yellow <==> status == Str("pending")
    ensures c == Red <==> status != Str("completed") && status != Str("pending")
  {
    if status == Str("completed") then Green else if status == Str("pending") then Yellow else Red
  }

  /** The selector's call wraps the chosen status twice: `{status: {status: newStatus}}`. */
  lemma StatusCallBody(orderId: Value, newStatus: Value)
    ensures var c := Api(Orders, UpdateStatus(orderId, Single("status", newStatus)));
      c.verb == PATCH && c.path == "/orders/" + ToString(orderId) + "/status"
      && c.body == Some(Single("status", Single("status", newStatus)))
  {
  }

  class OrdersPage {
    var orders: Value
    var loading: bool
    var error: string
    var selectedOrder: Value
    var isModalOpen: bool

    constructor ()
      ensures orders == Arr([]) && loading && error == "" && selectedOrder == Null && !isModalOpen
    {
      orders := Arr([]);
      loading := true;
      error := "";
      selectedOrder := Null;
      isModalOpen := false;
    }

    /** `{error && ...}`: the banner shows above the table whenever the error text is set. */
    predicate BannerShown()
      reads this
    {
      error != ""
    }

    /** The details modal is on screen only while its flag holds and an order is selected. */
    predicate DetailsShown()
      reads this
    {
      ModalShown(isModalOpen, selectedOrder)
    }

    /** `fetchOrders`: the list on success; the error text and a toast on failure. Nothing clears the error. */
    method FetchOrders(b: Browser, reply: Reply) returns (pending: bool)
      modifies this`orders, this`loading, this`error, b`storage, b`location, b`requests, b`toasts
      ensures pending && !loading
      ensures b.Net() == ApiClient.Dispatch(old(b.Net()), Exchange(Api(Orders, GetAll), reply))
      ensures orders == (if reply.Ok? then reply.data else old(orders))
      ensures error == ErrorAfter(old(error), FetchFailed, [reply])
      ensures b.toasts == old(b.toasts) + FailureToasts(reply, FetchFailed)
    {
      loading := true;
      pending := loading;
      var r := ApiClient.Send(b, Exchange(Api(Orders, GetAll), reply));
      if r.Ok? {
        orders := r.data;
      } else {
        error := FetchFailed;
        b.toasts := b.toasts + [ToastError(FetchFailed)];
      }
      loading := false;
    }

    /** `handleStatusChange(orderId, newStatus)`: one status call, then a refetch on success. */
    method HandleStatusChange(b: Browser, orderId: Value, newStatus: Value, reply: Reply, refetch: Reply)
      modifies this`orders, this`loading, this`error, b`storage, b`location, b`requests, b`toasts
      ensures var n := ApiClient.Dispatch(old(b.Net()), Exchange(Api(Orders, UpdateStatus(orderId, Single("status", newStatus))), reply));
        b.Net() == (if reply.Ok? then ApiClient.Dispatch(n, Exchange(Api(Orders, GetAll), refetch)) else n)
      ensures reply.Ok? ==>
        orders == (if refetch.Ok? then refetch.data else old(orders)) && !loading
        && error == ErrorAfter(old(error), FetchFailed, [refetch])
        && b.toasts == old(b.toasts) + [ToastSuccess(StatusUpdated)] + FailureToasts(refetch, FetchFailed)
      ensures reply.Failed? ==>
        orders == old(orders) && loading == old(loading) && error == old(error)
        && b.toasts == old(b.toasts) + [ToastError(StatusFailed)]
    {
      var r := ApiClient.Send(b, Exchange(Api(Orders, UpdateStatus(orderId, Single("status", newStatus))), reply));
      if r.Ok? {
        b.toasts := b.toasts + [ToastSuccess(StatusUpdated)];
        var _ := FetchOrders(b, refetch);
      } else {
        b.toasts := b.toasts + [ToastError(StatusFailed)];
      }
    }

    /** `handleViewDetails(order)`: selects the order and opens the modal. */
    method HandleViewDetails(order: Value)
      modifies this`selectedOrder, this`isModalOpen
      ensures selectedOrder == order && isModalOpen
      ensures DetailsShown() <==> Truthy(order)
    {
      selectedOrder := order;
      isModalOpen := true;
    }

    /** The modal's Close button. */
    method CloseModal()
      modifies this`isModalOpen
      ensures !isModalOpen && !DetailsShown()
    {
      isModalOpen := false;
    }
  }
}
