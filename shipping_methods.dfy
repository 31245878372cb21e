/**
 * The shipping methods page, `src/admin/ShippingMethods.jsx`: a list
 * fetched from `/shipping-methods`, an add modal and an edit modal over one
 * shared form, and per-row delete and activate/deactivate actions.
 */
module ShippingMethods {
  import opened Wrappers
  import opened Js
  import opened Http
  import opened Forms
  import opened Endpoints
  import opened Browser
  import opened Views
  import ApiClient

  const FetchFailed := "Failed to fetch shipping methods"
  const AddedMsg := "Shipping method added successfully"
  const AddFailed := "Failed to add shipping method"
  const UpdatedMsg := "Shipping method updated successfully"
  const UpdateFailed := "Failed to update shipping method"
  const DeletedMsg := "Shipping method deleted successfully"
  const DeleteFailed := "Failed to delete shipping method"
  const StatusFailed := "Failed to update shipping method status"

  /** The empty form: blank text fields, active. */
  const DefaultForm: map<string, Value> :=
    map["name" := Str(""), "description" := Str(""), "price" := Str(""), "estimatedDays" := Str(""), "isActive" := Bool(true)]

  /** `openEditModal` copies these fields of the method into the form. */
  const FormKeys: set<string> := {"name", "description", "price", "estimatedDays", "isActive"}

  /** The form `openEditModal` fills: each field is the method's own, `undefined` where it has none. */
  function EditForm(m: Value): (f: map<string, Value>)
    ensures f.Keys == FormKeys && f.Keys == DefaultForm.Keys
    ensures forall k :: k in FormKeys ==> f[k] == Get(m, k)
  {
    map["name" := Get(m, "name"), "description" := Get(m, "description"), "price" := Get(m, "price"),
      "estimatedDays" := Get(m, "estimatedDays"), "isActive" := Get(m, "isActive")]
  }

  /**
   * The call `handleEdit` makes: none when no method is selected (reading
   * `selectedMethod._id` throws), otherwise a PUT of the form to its id.
   */
  function EditCall(selected: Value, form: map<string, Value>): (c: Option<Call>)
    ensures c.None? <==> IsNullish(selected)
    ensures c.Some? ==>
      c.value.verb == PUT && c.value.body == Some(Obj(form))
      && c.value.path == "/shipping-methods/" + ToString(Get(selected, "_id"))
  {
    if IsNullish(selected) then None else Some(Api(ShippingMethods, Update(Get(selected, "_id"), Obj(form))))
  }

  /** Once a method has been opened for editing, submitting the untouched form updates that method with its own fields. */
  lemma EditOpenedMethod(m: Value)
    requires Truthy(m)
    ensures EditCall(m, EditForm(m)).Some?
    ensures var c := EditCall(m, EditForm(m)).value;
      c.path == "/shipping-methods/" + ToString(Get(m, "_id"))
      && c.body.Some? && forall k :: k in FormKeys ==> Get(c.body.value, k) == Get(m, k)
  {
  }

  /** `!currentStatus`: the status a row's button asks for. */
  function NewStatus(current: Value): (s: bool)
    ensures s <==> !Truthy(current)
  {
    !Truthy(current)
  }

  /** Pressing the status button on the refreshed row twice asks for the status it started with. */
  lemma StatusToggleTwice(b: bool)
    ensures NewStatus(Bool(NewStatus(Bool(b)))) == b
  {
  }

  /** The success toast of a status change names the new status. */
  function StatusMessage(newStatus: bool): (t: string)
    ensures newStatus ==> t == "Shipping method activated successfully"
    ensures !newStatus ==> t == "Shipping method deactivated successfully"
  {
    "Shipping method " + (if newStatus then "activated" else "deactivated") + " successfully"
  }

  /** The status call: a PATCH of `{status: <boolean>}`, not wrapped a second time. */
  lemma StatusCallBody(id: Value, current: Value)
    ensures var c := Api(ShippingMethods, UpdateStatus(id, Bool(NewStatus(current))));
      c.verb == PATCH && c.path == "/shipping-methods/" + ToString(id) + "/status"
      && c.body == Some(Single("status", Bool(!Truthy(current))))
  {
  }

  class ShippingMethodsPage {
    var shippingMethods: Value
    var loading: bool
    var showAddModal: bool
    var showEditModal: bool
    var selectedMethod: Value
    var formData: map<string, Value>

    constructor ()
      ensures shippingMethods == Arr([]) && loading && !showAddModal && !showEditModal
      ensures selectedMethod == Null && formData == DefaultForm
    {
      shippingMethods := Arr([]);
      loading := true;
      showAddModal := false;
      showEditModal := false;
      selectedMethod := Null;
      formData := DefaultForm;
    }

    /** The edit modal is on screen only while its flag holds and a method is selected. */
    predicate EditModalShown()
      reads this
    {
      ModalShown(showEditModal, selectedMethod)
    }

    /** `fetchShippingMethods`: the list on success, only a toast on failure. */
    method FetchShippingMethods(b: Browser, reply: Reply) returns (pending: bool)
      modifies this`shippingMethods, this`loading, b`storage, b`location, b`requests, b`toasts
      ensures pending && !loading
      ensures b.Net() == ApiClient.Dispatch(old(b.Net()), Exchange(Api(ShippingMethods, GetAll), reply))
      ensures shippingMethods == (if reply.Ok? then reply.data else old(shippingMethods))
      ensures b.toasts == old(b.toasts) + FailureToasts(reply, FetchFailed)
    {
      loading := true;
      pending := loading;
      var r := ApiClient.Send(b, Exchange(Api(ShippingMethods, GetAll), reply));
      if r.Ok? {
        shippingMethods := r.data;
      } else {
        b.toasts := b.toasts + [ToastError(FetchFailed)];
      }
      loading := false;
    }

    /** An input of either modal: `setFormData({ ...formData, <field>: <value> })`. */
    method SetFormField(name: string, v: Value)
      modifies this`formData
      ensures formData == SetField(old(formData), name, v)
    {
      formData := SetField(formData, name, v);
    }

    /** `resetForm`: the empty form and no selection. */
    method ResetForm()
      modifies this`selectedMethod, this`formData
      ensures selectedMethod == Null && formData == DefaultForm
    {
      formData := DefaultForm;
      selectedMethod := Null;
    }

    /** The "Add Shipping Method" button. */
    method OpenAddModal()
      modifies this`showAddModal
      ensures showAddModal
    {
      showAddModal := true;
    }

    /** The add modal's Cancel button: the modal closes and the form is reset. */
    method CancelAdd()
      modifies this`showAddModal, this`selectedMethod, this`formData
      ensures !showAddModal && selectedMethod == Null && formData == DefaultForm
    {
      showAddModal := false;
      ResetForm();
    }

    /** The edit modal's Cancel button: the modal closes and the form is reset. */
    method CancelEdit()
      modifies this`showEditModal, this`selectedMethod, this`formData
      ensures !showEditModal && !EditModalShown() && formData == DefaultForm
    {
      showEditModal := false;
      ResetForm();
    }

    /** `openEditModal(method)`: selects the method, copies its fields into the form, opens the edit modal. */
    method OpenEditModal(m: Value)
      requires !IsNullish(m)
      modifies this`selectedMethod, this`formData, this`showEditModal
      ensures selectedMethod == m && formData == EditForm(m) && showEditModal
      ensures Truthy(m) ==> EditModalShown()
    {
      selectedMethod := m;
      formData := EditForm(m);
      showEditModal := true;
    }

    /**
     * `handleAdd`: one create of the form. On success the add modal closes,
     * the list is fetched again (`refetch` is that call's reply) and the form
     * is reset; on failure only a toast is added.
     */
    method HandleAdd(b: Browser, reply: Reply, refetch: Reply)
      modifies this, b`storage, b`location, b`requests, b`toasts
      ensures var n := ApiClient.Dispatch(old(b.Net()), Exchange(Api(ShippingMethods, Create(Obj(old(formData)))), reply));
        b.Net() == (if reply.Ok? then ApiClient.Dispatch(n, Exchange(Api(ShippingMethods, GetAll), refetch)) else n)
      ensures reply.Ok? ==>
        !showAddModal && showEditModal == old(showEditModal) && selectedMethod == Null && formData == DefaultForm && !loading
        && shippingMethods == (if refetch.Ok? then refetch.data else old(shippingMethods))
        && b.toasts == old(b.toasts) + [ToastSuccess(AddedMsg)] + FailureToasts(refetch, FetchFailed)
      ensures reply.Failed? ==>
        showAddModal == old(showAddModal) && showEditModal == old(showEditModal)
        && selectedMethod == old(selectedMethod) && formData == old(formData)
        && shippingMethods == old(shippingMethods) && loading == old(loading)
        && b.toasts == old(b.toasts) + [ToastError(AddFailed)]
    {
      var r := ApiClient.Send(b, Exchange(Api(ShippingMethods, Create(Obj(formData))), reply));
      if r.Ok? {
        b.toasts := b.toasts + [ToastSuccess(AddedMsg)];
        showAddModal := false;
        var _ := FetchShippingMethods(b, refetch);
        ResetForm();
      } else {
        b.toasts := b.toasts + [ToastError(AddFailed)];
      }
    }

    /**
     * `handleEdit`: with no selection nothing is sent and the failure toast
     * shows; otherwise one update of the selected method, and on success the
     * edit modal closes, the list is fetched again and the form is reset.
     */
    method HandleEdit(b: Browser, reply: Reply, refetch: Reply)
      modifies this, b`storage, b`location, b`requests, b`toasts
      ensures IsNullish(old(selectedMethod)) ==>
        b.Net() == old(b.Net()) && b.toasts == old(b.toasts) + [ToastError(UpdateFailed)]
        && showAddModal == old(showAddModal) && showEditModal == old(showEditModal) && selectedMethod == old(selectedMethod)
        && formData == old(formData) && shippingMethods == old(shippingMethods) && loading == old(loading)
      ensures !IsNullish(old(selectedMethod)) ==>
        var n := ApiClient.Dispatch(old(b.Net()), Exchange(EditCall(old(selectedMethod), old(formData)).value, reply));
        b.Net() == (if reply.Ok? then ApiClient.Dispatch(n, Exchange(Api(ShippingMethods, GetAll), refetch)) else n)
      ensures !IsNullish(old(selectedMethod)) && reply.Ok? ==>
        !showEditModal && showAddModal == old(showAddModal) && selectedMethod == Null && formData == DefaultForm && !loading
        && shippingMethods == (if refetch.Ok? then refetch.data else old(shippingMethods))
        && b.toasts == old(b.toasts) + [ToastSuccess(UpdatedMsg)] + FailureToasts(refetch, FetchFailed)
      ensures !IsNullish(old(selectedMethod)) && reply.Failed? ==>
        showAddModal == old(showAddModal) && showEditModal == old(showEditModal)
        && selectedMethod == old(selectedMethod) && formData == old(formData)
        && shippingMethods == old(shippingMethods) && loading == old(loading)
        && b.toasts == old(b.toasts) + [ToastError(UpdateFailed)]
    {
      var call := EditCall(selectedMethod, formData);
      if call.None? {
        b.toasts := b.toasts + [ToastError(UpdateFailed)];
      } else {
        var r := ApiClient.Send(b, Exchange(call.value, reply));
        if r.Ok? {
          b.toasts := b.toasts + [ToastSuccess(UpdatedMsg)];
          showEditModal := false;
          var _ := FetchShippingMethods(b, refetch);
          ResetForm();
        } else {
          b.toasts := b.toasts + [ToastError(UpdateFailed)];
        }
      }
    }

    /** `handleDelete`: nothing without confirmation; with it one delete, and a refetch if it succeeded. */
    method HandleDelete(b: Browser, id: Value, confirmed: bool, reply: Reply, refetch: Reply)
      modifies this`shippingMethods, this`loading, b`storage, b`location, b`requests, b`toasts
      ensures !confirmed ==>
        b.Net() == old(b.Net()) && b.toasts == old(b.toasts)
        && shippingMethods == old(shippingMethods) && loading == old(loading)
      ensures confirmed ==>
        var n := ApiClient.Dispatch(old(b.Net()), Exchange(Api(ShippingMethods, Delete(id)), reply));
        b.Net() == (if reply.Ok? then ApiClient.Dispatch(n, Exchange(Api(ShippingMethods, GetAll), refetch)) else n)
      ensures confirmed && reply.Ok? ==>
        shippingMethods == (if refetch.Ok? then refetch.data else old(shippingMethods)) && !loading
        && b.toasts == old(b.toasts) + [ToastSuccess(DeletedMsg)] + FailureToasts(refetch, FetchFailed)
      ensures confirmed && reply.Failed? ==>
        shippingMethods == old(shippingMethods) && loading == old(loading)
        && b.toasts == old(b.toasts) + [ToastError(DeleteFailed)]
    {
      if confirmed {
        var r := ApiClient.Send(b, Exchange(Api(ShippingMethods, Delete(id)), reply));
        if r.Ok? {
          b.toasts := b.toasts + [ToastSuccess(DeletedMsg)];
          var _ := FetchShippingMethods(b, refetch);
        } else {
          b.toasts := b.toasts + [ToastError(DeleteFailed)];
        }
      }
    }

    /** `handleStatusChange(id, currentStatus)`: one status call with the negated status, then a refetch on success. */
    method HandleStatusChange(b: Browser, id: Value, currentStatus: Value, reply: Reply, refetch: Reply)
      modifies this`shippingMethods, this`loading, b`storage, b`location, b`requests, b`toasts
      ensures var n := ApiClient.Dispatch(old(b.Net()), Exchange(Api(ShippingMethods, UpdateStatus(id, Bool(NewStatus(currentStatus)))), reply));
        b.Net() == (if reply.Ok? then ApiClient.Dispatch(n, Exchange(Api(ShippingMethods, GetAll), refetch)) else n)
      ensures reply.Ok? ==>
        shippingMethods == (if refetch.Ok? then refetch.data else old(shippingMethods)) && !loading
        && b.toasts == old(b.toasts) + [ToastSuccess(StatusMessage(NewStatus(currentStatus)))] + FailureToasts(refetch, FetchFailed)
      ensures reply.Failed? ==>
        shippingMethods == old(shippingMethods) && loading == old(loading)
        && b.toasts == old(b.toasts) + [ToastError(StatusFailed)]
    {
      var newStatus := NewStatus(currentStatus);
      var r := ApiClient.Send(b, Exchange(Api(ShippingMethods, UpdateStatus(id, Bool(newStatus))), reply));
      if r.Ok? {
        b.toasts := b.toasts + [ToastSuccess(StatusMessage(newStatus))];
        var _ := FetchShippingMethods(b, refetch);
      } else {
        b.toasts := b.toasts + [ToastError(StatusFailed)];
      }
    }
  }
}
