/**
 * The discount codes page, `src/admin/Discounts.jsx`: a list fetched from
 * `/discounts`, one modal form used both to create a code and to edit the
 * selected one, and per-row delete and activate/deactivate actions.
 */
module Discounts {
  import opened Wrappers
  import opened Strings
  import opened Js
  import opened Http
  import opened Forms
  import opened Endpoints
  import opened Browser
  import opened Views
  import ApiClient

  const FetchFailed := "Failed to fetch discounts"
  const UpdatedMsg := "Discount updated successfully"
  const CreatedMsg := "Discount created successfully"
  const SaveFailed := "Failed to save discount"
  const DeletedMsg := "Discount deleted successfully"
  const DeleteFailed := "Failed to delete discount"
  const StatusMsg := "Discount status updated successfully"
  const StatusFailed := "Failed to update discount status"

  /** The empty form: blank fields, a percentage discount, active. */
  const DefaultForm: map<string, Value> := map[
    "code" := Str(""), "type" := Str("percentage"), "value" := Str(""), "minPurchase" := Str(""),
    "maxDiscount" := Str(""), "startDate" := Str(""), "endDate" := Str(""), "isActive" := Bool(true)]

  /** The fields `handleEdit` copies from the discount as they are. */
  const CopiedFields: set<string> := {"code", "type", "value", "minPurchase", "maxDiscount", "isActive"}

  /**
   * The one call a submit makes: an update of the selected discount when one
   * is selected, otherwise a create; the form is the body either way.
   */
  function SubmitCall(selected: Value, form: map<string, Value>): (c: Call)
    ensures c.body == Some(Obj(form))
    ensures Truthy(selected) ==> c.verb == PUT && c.path == "/discounts/" + ToString(Get(selected, "_id"))
    ensures !Truthy(selected) ==> c.verb == POST && c.path == "/discounts"
  {
    if Truthy(selected) then Api(Discounts, Update(Get(selected, "_id"), Obj(form)))
    else Api(Discounts, Create(Obj(form)))
  }

  /** The form `handleEdit` fills from a discount; the two dates arrive already formatted as days. */
  function EditForm(d: Value, startDay: string, endDay: string): (f: map<string, Value>)
    ensures f.Keys == DefaultForm.Keys
    ensures forall k :: k in CopiedFields ==> f[k] == Get(d, k)
    ensures f["startDate"] == Str(startDay) && f["endDate"] == Str(endDay)
  {
    map["code" := Get(d, "code"), "type" := Get(d, "type"), "value" := Get(d, "value"),
      "minPurchase" := Get(d, "minPurchase"), "maxDiscount" := Get(d, "maxDiscount"),
      "startDate" := Str(startDay), "endDate" := Str(endDay), "isActive" := Get(d, "isActive")]
  }

  /** The argument the row's status button passes: the negation of the row's `isActive`. */
  function StatusArgument(d: Value): bool {
    !Truthy(Get(d, "isActive"))
  }

  /** The status call of a row: the wrapped body `{status: {isActive: !isActive}}` on its id. */
  lemma StatusCallBody(d: Value)
    ensures var c := Api(Discounts, UpdateStatus(Get(d, "_id"), Single("isActive", Bool(StatusArgument(d)))));
      c.verb == PATCH && c.path == "/discounts/" + ToString(Get(d, "_id")) + "/status"
      && c.body == Some(Single("status", Single("isActive", Bool(!Truthy(Get(d, "isActive"))))))
  {
  }

  /** The Value column: `value%` for a percentage, `$value` for a fixed amount. */
  function ValueDisplay(d: Value): (r: string)
    ensures Get(d, "type") == Str("percentage") ==> |r| > 0 && r[|r| - 1] == '%' && r[..|r| - 1] == ToString(Get(d, "value"))
    ensures Get(d, "type") != Str("percentage") ==> |r| > 0 && r[0] == '$' && r[1..] == ToString(Get(d, "value"))
  {
    if Get(d, "type") == Str("percentage") then ToString(Get(d, "value")) + "%"
    else "$" + ToString(Get(d, "value"))
  }

  class DiscountsPage {
    var discounts: Value
    var loading: bool
    var error: string
    var selected: Value
    var isModalOpen: bool
    var formData: map<string, Value>

    constructor ()
      ensures discounts == Arr([]) && loading && error == "" && selected == Null && !isModalOpen
      ensures formData == DefaultForm
    {
      discounts := Arr([]);
      loading := true;
      error := "";
      selected := Null;
      isModalOpen := false;
      formData := DefaultForm;
    }

    /** `fetchDiscounts`: the list on success; the error message and a toast on failure. */
    method FetchDiscounts(b: Browser, reply: Reply) returns (pending: bool)
      modifies this`discounts, this`loading, this`error, b`storage, b`location, b`requests, b`toasts
      ensures pending && !loading
      ensures b.Net() == ApiClient.Dispatch(old(b.Net()), Exchange(Api(Discounts, GetAll), reply))
      ensures discounts == (if reply.Ok? then reply.data else old(discounts))
      ensures error == (if reply.Ok? then old(error) else FetchFailed)
      ensures b.toasts == old(b.toasts) + FailureToasts(reply, FetchFailed)
    {
      loading := true;
      pending := loading;
      var r := ApiClient.Send(b, Exchange(Api(Discounts, GetAll), reply));
      if r.Ok? {
        discounts := r.data;
      } else {
        error := FetchFailed;
        b.toasts := b.toasts + [ToastError(FetchFailed)];
      }
      loading := false;
    }

    /** `handleChange`: sets only the named field, to `checked` for a checkbox and `value` otherwise. */
    method HandleChange(e: InputEvent)
      modifies this`formData
      ensures formData == SetField(old(formData), e.name, InputValue(e))
    {
      formData := SetField(formData, e.name, InputValue(e));
    }

    /** `resetForm`: the empty form and no selection. */
    method ResetForm()
      modifies this`selected, this`formData
      ensures selected == Null && formData == DefaultForm
    {
      selected := Null;
      formData := DefaultForm;
    }

    /** The "Add Discount" button: an empty form in an open modal. */
    method OpenAdd()
      modifies this`selected, this`formData, this`isModalOpen
      ensures selected == Null && formData == DefaultForm && isModalOpen
    {
      ResetForm();
      isModalOpen := true;
    }

    /**
     * `handleSubmit`: exactly one create or update. On success the modal
     * closes, the list is fetched again (with `refetch` as its reply) and the
     * form is reset; on failure only a toast is added.
     */
    method HandleSubmit(b: Browser, reply: Reply, refetch: Reply)
      modifies this, b`storage, b`location, b`requests, b`toasts
      ensures var n := ApiClient.Dispatch(old(b.Net()), Exchange(SubmitCall(old(selected), old(formData)), reply));
        b.Net() == (if reply.Ok? then ApiClient.Dispatch(n, Exchange(Api(Discounts, GetAll), refetch)) else n)
      ensures reply.Ok? ==>
        !isModalOpen && selected == Null && formData == DefaultForm && !loading
        && discounts == (if refetch.Ok? then refetch.data else old(discounts))
        && error == (if refetch.Ok? then old(error) else FetchFailed)
        && b.toasts == old(b.toasts) + [ToastSuccess(if Truthy(old(selected)) then UpdatedMsg else CreatedMsg)] + FailureToasts(refetch, FetchFailed)
      ensures reply.Failed? ==>
        isModalOpen == old(isModalOpen) && selected == old(selected) && formData == old(formData)
        && discounts == old(discounts) && loading == old(loading) && error == old(error)
        && b.toasts == old(b.toasts) + [ToastError(SaveFailed)]
    {
      var wasSelected := Truthy(selected);
      var r := ApiClient.Send(b, Exchange(SubmitCall(selected, formData), reply));
      if r.Ok? {
        b.toasts := b.toasts + [ToastSuccess(if wasSelected then UpdatedMsg else CreatedMsg)];
        isModalOpen := false;
        var _ := FetchDiscounts(b, refetch);
        ResetForm();
      } else {
        b.toasts := b.toasts + [ToastError(SaveFailed)];
      }
    }

    /** `handleEdit`: selects the discount, fills the form from it and opens the modal. */
    method HandleEdit(d: Value, startDay: string, endDay: string)
      requires !IsNullish(d)
      modifies this`selected, this`formData, this`isModalOpen
      ensures selected == d && formData == EditForm(d, startDay, endDay) && isModalOpen
    {
      selected := d;
      formData := EditForm(d, startDay, endDay);
      isModalOpen := true;
    }

    /**
     * `handleDelete`: nothing happens without confirmation; with it, one
     * delete, followed by a refetch only if the delete succeeded.
     */
    method HandleDelete(b: Browser, id: Value, confirmed: bool, reply: Reply, refetch: Reply)
      modifies this`discounts, this`loading, this`error, b`storage, b`location, b`requests, b`toasts
      ensures !confirmed ==>
        b.Net() == old(b.Net()) && b.toasts == old(b.toasts)
        && discounts == old(discounts) && loading == old(loading) && error == old(error)
      ensures confirmed ==>
        var n := ApiClient.Dispatch(old(b.Net()), Exchange(Api(Discounts, Delete(id)), reply));
        b.Net() == (if reply.Ok? then ApiClient.Dispatch(n, Exchange(Api(Discounts, GetAll), refetch)) else n)
      ensures confirmed && reply.Ok? ==>
        discounts == (if refetch.Ok? then refetch.data else old(discounts)) && !loading && error == (if refetch.Ok? then old(error) else FetchFailed)
        && b.toasts == old(b.toasts) + [ToastSuccess(DeletedMsg)] + FailureToasts(refetch, FetchFailed)
      ensures confirmed && reply.Failed? ==>
        discounts == old(discounts) && error == old(error) && loading == old(loading)
        && b.toasts == old(b.toasts) + [ToastError(DeleteFailed)]
    {
      if confirmed {
        var r := ApiClient.Send(b, Exchange(Api(Discounts, Delete(id)), reply));
        if r.Ok? {
          b.toasts := b.toasts + [ToastSuccess(DeletedMsg)];
          var _ := FetchDiscounts(b, refetch);
        } else {
          b.toasts := b.toasts + [ToastError(DeleteFailed)];
        }
      }
    }

    /** `handleStatusChange(id, isActive)`: one status call with `{isActive}`, then a refetch on success. */
    method HandleStatusChange(b: Browser, id: Value, isActive: bool, reply: Reply, refetch: Reply)
      modifies this`discounts, this`loading, this`error, b`storage, b`location, b`requests, b`toasts
      ensures var n := ApiClient.Dispatch(old(b.Net()), Exchange(Api(Discounts, UpdateStatus(id, Single("isActive", Bool(isActive)))), reply));
        b.Net() == (if reply.Ok? then ApiClient.Dispatch(n, Exchange(Api(Discounts, GetAll), refetch)) else n)
      ensures reply.Ok? ==>
        discounts == (if refetch.Ok? then refetch.data else old(discounts)) && !loading && error == (if refetch.Ok? then old(error) else FetchFailed)
        && b.toasts == old(b.toasts) + [ToastSuccess(StatusMsg)] + FailureToasts(refetch, FetchFailed)
      ensures reply.Failed? ==>
        discounts == old(discounts) && error == old(error) && loading == old(loading)
        && b.toasts == old(b.toasts) + [ToastError(StatusFailed)]
    {
      var r := ApiClient.Send(b, Exchange(Api(Discounts, UpdateStatus(id, Single("isActive", Bool(isActive)))), reply));
      if r.Ok? {
        b.toasts := b.toasts + [ToastSuccess(StatusMsg)];
        var _ := FetchDiscounts(b, refetch);
      } else {
        b.toasts := b.toasts + [ToastError(StatusFailed)];
      }
    }
  }
}
