/**
 * The customers page, `src/admin/Customers.jsx`: a list fetched from
 * `/customers`, an activate/deactivate button per row, an error banner and
 * a details modal.
 */
module Customers {
  import opened Wrappers
  import opened Js
  import opened Http
  import opened Endpoints
  import opened Browser
  import opened Views
  import ApiClient

  const FetchFailed := "Failed to fetch customers"
  const StatusUpdated := "Customer status updated successfully"
  const StatusFailed := "Failed to update customer status"

  const AvatarService := "https://ui-avatars.com/api/?name="

  /** `customer.avatar || <generated avatar>`: the customer's own picture, or one generated from the name. */
  function Avatar(c: Value): (v: Value)
    ensures Truthy(Get(c, "avatar")) ==> v == Get(c, "avatar")
    ensures !Truthy(Get(c, "avatar")) ==> v == Str(AvatarService + ToString(Get(c, "name")))
  {
    Or(Get(c, "avatar"), Str(AvatarService + ToString(Get(c, "name"))))
  }

  /** `customer.orders?.length || 0`: the number of orders of a list, 0 when there is none. */
  function OrderCount(c: Value): (v: Value)
    ensures Get(c, "orders").Arr? ==> v == Num(|Get(c, "orders").items|)
    ensures IsNullish(Get(c, "orders")) ==> v == Num(0)
    ensures !IsNullish(v)
  {
    Or(Get(Get(c, "orders"), "length"), Num(0))
  }

  /** The row's status label. */
  function StatusLabel(c: Value): string {
    if Truthy(Get(c, "isActive")) then "Active" else "Inactive"
  }

  /** The row's button label. */
  function ButtonLabel(c: Value): string {
    if Truthy(Get(c, "isActive")) then "Deactivate" else "Activate"
  }

  /** The argument the row's button passes: `!customer.isActive`. */
  function StatusArgument(c: Value): bool {
    !Truthy(Get(c, "isActive"))
  }

  /** The button offers the opposite of the label, and what it sends is what it offers. */
  lemma ButtonMatchesArgument(c: Value)
    ensures StatusLabel(c) == "Active" <==> ButtonLabel(c) == "Deactivate"
    ensures StatusArgument(c) <==> ButtonLabel(c) == "Activate"
    ensures Api(Customers, UpdateStatus(Get(c, "_id"), Single("isActive", Bool(StatusArgument(c))))).body
      == Some(Single("status", Single("isActive", Bool(!Truthy(Get(c, "isActive"))))))
  {
  }

  class CustomersPage {
    var customers: Value
    var loading: bool
    var error: string
    var selectedCustomer: Value
    var isModalOpen: bool

    constructor ()
      ensures customers == Arr([]) && loading && error == "" && selectedCustomer == Null && !isModalOpen
    {
      customers := Arr([]);
      loading := true;
      error := "";
      selectedCustomer := Null;
      isModalOpen := false;
    }

    /** The details modal is on screen only while its flag holds and a customer is selected. */
    predicate DetailsShown()
      reads this
    {
      ModalShown(isModalOpen, selectedCustomer)
    }

    /** `fetchCustomers`: the list on success; the error text and a toast on failure. Nothing clears the error. */
    method FetchCustomers(b: Browser, reply: Reply) returns (pending: bool)
      modifies this`customers, this`loading, this`error, b`storage, b`location, b`requests, b`toasts
      ensures pending && !loading
      ensures b.Net() == ApiClient.Dispatch(old(b.Net()), Exchange(Api(Customers, GetAll), reply))
      ensures customers == (if reply.Ok? then reply.data else old(customers))
      ensures error == ErrorAfter(old(error), FetchFailed, [reply])
      ensures b.toasts == old(b.toasts) + FailureToasts(reply, FetchFailed)
    {
      loading := true;
      pending := loading;
      var r := ApiClient.Send(b, Exchange(Api(Customers, GetAll), reply));
      if r.Ok? {
        customers := r.data;
      } else {
        error := FetchFailed;
        b.toasts := b.toasts + [ToastError(FetchFailed)];
      }
      loading := false;
    }

    /** `handleViewDetails(customer)`: selects the customer and opens the modal. */
    method HandleViewDetails(customer: Value)
      modifies this`selectedCustomer, this`isModalOpen
      ensures selectedCustomer == customer && isModalOpen
      ensures DetailsShown() <==> Truthy(customer)
    {
      selectedCustomer := customer;
      isModalOpen := true;
    }

    /** The modal's Close button. */
    method CloseModal()
      modifies this`isModalOpen
      ensures !isModalOpen && !DetailsShown()
    {
      isModalOpen := false;
    }

    /** `handleStatusChange(customerId, isActive)`: one status call with `{isActive}`, then a refetch on success. */
    method HandleStatusChange(b: Browser, customerId: Value, isActive: bool, reply: Reply, refetch: Reply)
      modifies this`customers, this`loading, this`error, b`storage, b`location, b`requests, b`toasts
      ensures var n := ApiClient.Dispatch(old(b.Net()), Exchange(Api(Customers, UpdateStatus(customerId, Single("isActive", Bool(isActive)))), reply));
        b.Net() == (if reply.Ok? then ApiClient.Dispatch(n, Exchange(Api(Customers, GetAll), refetch)) else n)
      ensures reply.Ok? ==>
        customers == (if refetch.Ok? then refetch.data else old(customers)) && !loading
        && error == ErrorAfter(old(error), FetchFailed, [refetch])
        && b.toasts == old(b.toasts) + [ToastSuccess(StatusUpdated)] + FailureToasts(refetch, FetchFailed)
      ensures reply.Failed? ==>
        customers == old(customers) && loading == old(loading) && error == old(error)
        && b.toasts == old(b.toasts) + [ToastError(StatusFailed)]
    {
      var r := ApiClient.Send(b, Exchange(Api(Customers, UpdateStatus(customerId, Single("isActive", Bool(isActive)))), reply));
      if r.Ok? {
        b.toasts := b.toasts + [ToastSuccess(StatusUpdated)];
        var _ := FetchCustomers(b, refetch);
      } else {
        b.toasts := b.toasts + [ToastError(StatusFailed)];
      }
    }
  }
}
