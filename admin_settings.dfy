/**
 * The admin settings page, `src/admin/AdminSettings.jsx`: a flat record of
 * site fields with two nested groups of switches, `paymentMethods` and
 * `shippingMethods`. Unlike the store settings page, the change handler
 * honours `checked` on plain names too, and every dotted name of its form
 * has exactly two segments.
 */
module AdminSettings {
  import opened Wrappers
  import opened Strings
  import opened Js
  import opened Http
  import opened Forms
  import opened Endpoints
  import opened Browser
  import ApiClient

  const PaymentKeys: set<string> := {"cashOnDelivery", "creditCard", "paypal"}
  const ShippingKeys: set<string> := {"standard", "express", "free"}

  /** The record the page starts with. */
  const Initial: Value := Obj(map[
    "siteName" := Str(""),
    "siteDescription" := Str(""),
    "contactEmail" := Str(""),
    "contactPhone" := Str(""),
    "address" := Str(""),
    "facebook" := Str(""),
    "twitter" := Str(""),
    "instagram" := Str(""),
    "linkedin" := Str(""),
    "paymentMethods" := Obj(map["cashOnDelivery" := Bool(true), "creditCard" := Bool(true), "paypal" := Bool(true)]),
    "shippingMethods" := Obj(map["standard" := Bool(true), "express" := Bool(true), "free" := Bool(true)])
  ])

  const FetchFailed := "Failed to fetch settings"
  const Updated := "Settings updated successfully"
  const UpdateFailed := "Failed to update settings"

  /**
   * `handleChange`: the input's value (`checked` for a checkbox, `value`
   * otherwise) goes to the plain key, or to `parent.child` for a dotted name;
   * nothing else changes.
   */
  function AdminSettingsChange(prev: Value, e: InputEvent): (r: Value)
    ensures r.Obj?
    ensures '.' !in e.name ==>
      Get(r, e.name) == InputValue(e)
      && r.fields.Keys == Spread(prev).Keys + {e.name}
      && forall k :: k in Spread(prev) && k != e.name ==> Get(r, k) == Spread(prev)[k]
    ensures '.' in e.name ==>
      var parent, child := Split(e.name, '.')[0], Split(e.name, '.')[1];
      Get(Get(r, parent), child) == InputValue(e)
      && r.fields.Keys == Spread(prev).Keys + {parent}
      && Spread(Get(r, parent)).Keys == Spread(Get(prev, parent)).Keys + {child}
      && (forall k :: k in Spread(prev) && k != parent ==> Get(r, k) == Spread(prev)[k])
      && (forall k :: k in Spread(Get(prev, parent)) && k != child ==> Get(Get(r, parent), k) == Get(Get(prev, parent), k))
  {
    if '.' in e.name then
      var parts := Split(e.name, '.');
      SetNested(prev, parts[0], parts[1], InputValue(e))
    else
      SetKey(prev, e.name, InputValue(e))
  }

  /** An input of the form: a plain name, or a `parent.child` name. */
  datatype Field = Plain(name: string) | Dotted(parent: string, child: string)

  function FieldName(f: Field): string {
    match f
    case Plain(n) => n
    case Dotted(p, c) => p + "." + c
  }

  /** The named inputs of the form, in order: the site fields, then the two groups of switches. */
  const SiteFields: seq<Field> := [
    Plain("siteName"), Plain("siteDescription"), Plain("contactEmail"), Plain("contactPhone"), Plain("address"),
    Plain("facebook"), Plain("twitter"), Plain("instagram"), Plain("linkedin")
  ]
  const PaymentFields: seq<Field> :=
    [Dotted("paymentMethods", "cashOnDelivery"), Dotted("paymentMethods", "creditCard"), Dotted("paymentMethods", "paypal")]
  const ShippingFields: seq<Field> :=
    [Dotted("shippingMethods", "standard"), Dotted("shippingMethods", "express"), Dotted("shippingMethods", "free")]
  const FormFields: seq<Field> := SiteFields + PaymentFields + ShippingFields

  /** A field whose edits cannot change the key sets of the two groups. */
  predicate KeepsGroups(f: Field) {
    match f
    case Plain(n) => '.' !in n && n != "paymentMethods" && n != "shippingMethods"
    case Dotted(p, c) =>
      '.' !in p && '.' !in c
      && (p == "paymentMethods" ==> c in PaymentKeys)
      && (p == "shippingMethods" ==> c in ShippingKeys)
  }

  lemma SiteFieldsKeepGroups()
    ensures forall f :: f in SiteFields ==> KeepsGroups(f)
  {
    assert KeepsGroups(Plain("siteName")) && KeepsGroups(Plain("siteDescription")) && KeepsGroups(Plain("contactEmail"));
    assert KeepsGroups(Plain("contactPhone")) && KeepsGroups(Plain("address")) && KeepsGroups(Plain("facebook"));
    assert KeepsGroups(Plain("twitter")) && KeepsGroups(Plain("instagram")) && KeepsGroups(Plain("linkedin"));
  }

  /** Every name of the form has at most two segments and addresses an existing switch. */
  lemma FormFieldsKeepGroups()
    ensures forall f :: f in FormFields ==> KeepsGroups(f)
  {
    SiteFieldsKeepGroups();
    PaymentFieldsKeepGroups();
    ShippingFieldsKeepGroups();
    forall f | f in FormFields ensures KeepsGroups(f) {
      assert f in SiteFields || f in PaymentFields || f in ShippingFields;
    }
  }

  lemma PaymentFieldsKeepGroups()
    ensures forall f :: f in PaymentFields ==> KeepsGroups(f)
  {
    assert KeepsGroups(Dotted("paymentMethods", "cashOnDelivery")) && KeepsGroups(Dotted("paymentMethods", "creditCard"));
    assert KeepsGroups(Dotted("paymentMethods", "paypal"));
  }

  lemma ShippingFieldsKeepGroups()
    ensures forall f :: f in ShippingFields ==> KeepsGroups(f)
  {
    assert KeepsGroups(Dotted("shippingMethods", "standard")) && KeepsGroups(Dotted("shippingMethods", "express"));
    assert KeepsGroups(Dotted("shippingMethods", "free"));
  }

  lemma DottedName(p: string, c: string)
    requires '.' !in p && '.' !in c
    ensures '.' in p + "." + c
    ensures Split(p + "." + c, '.') == [p, c]
  {
    assert p + "." + c == p + ['.'] + c;
    assert (p + "." + c)[|p|] == '.';
    SplitAround(p, '.', c);
    SplitFree(p, '.');
    SplitFree(c, '.');
  }

  /** Both groups are objects holding exactly their switches. */
  predicate Shaped(s: Value) {
    Get(s, "paymentMethods").Obj? && Spread(Get(s, "paymentMethods")).Keys == PaymentKeys
    && Get(s, "shippingMethods").Obj? && Spread(Get(s, "shippingMethods")).Keys == ShippingKeys
  }

  lemma InitialShaped()
    ensures Shaped(Initial)
  {
  }

  /** One edit through the form. */
  datatype Edit = Edit(field: Field, value: string, kind: string, checked: bool)

  function EventOf(x: Edit): InputEvent {
    InputEvent(FieldName(x.field), x.value, x.kind, x.checked)
  }

  /** The record after a sequence of edits, each applied to the result of the one before. */
  function ApplyEdits(s: Value, xs: seq<Edit>): Value
    decreases |xs|
  {
    if xs == [] then s else ApplyEdits(AdminSettingsChange(s, EventOf(xs[0])), xs[1..])
  }

  lemma EditKeepsShape(s: Value, x: Edit)
    requires Shaped(s) && KeepsGroups(x.field)
    ensures Shaped(AdminSettingsChange(s, EventOf(x)))
  {
    match x.field
    case Plain(n) =>
    case Dotted(p, c) =>
      DottedName(p, c);
  }

  /** Under any sequence of edits through the form, both groups keep their key sets. */
  lemma {:induction false} EditsKeepShape(s: Value, xs: seq<Edit>)
    requires Shaped(s)
    requires forall k :: 0 <= k < |xs| ==> xs[k].field in FormFields
    ensures Shaped(ApplyEdits(s, xs))
    decreases |xs|
  {
    if xs != [] {
      FormFieldsKeepGroups();
      EditKeepsShape(s, xs[0]);
      EditsKeepShape(AdminSettingsChange(s, EventOf(xs[0])), xs[1..]);
    }
  }

  /** The page's state: the record and the two flags around its calls. */
  class AdminSettingsPage {
    var settings: Value
    var loading: bool
    var saving: bool

    constructor ()
      ensures settings == Initial && loading && !saving
    {
      settings := Initial;
      loading := true;
      saving := false;
    }

    /**
     * `fetchSettings`: a success replaces the record with the response; a
     * failure leaves it as it was and shows a toast. `loading` holds while
     * the call is pending and is false afterwards.
     */
    method FetchSettings(b: Browser, reply: Reply) returns (pending: bool)
      modifies this`settings, this`loading, b`storage, b`location, b`requests, b`toasts
      ensures pending && !loading
      ensures b.Net() == ApiClient.Dispatch(old(b.Net()), Exchange(SettingsApi(GetSettings), reply))
      ensures reply.Ok? ==> settings == reply.data && b.toasts == old(b.toasts)
      ensures reply.Failed? ==> settings == old(settings) && b.toasts == old(b.toasts) + [ToastError(FetchFailed)]
    {
      loading := true;
      pending := loading;
      var r := ApiClient.Send(b, Exchange(SettingsApi(GetSettings), reply));
      if r.Ok? {
        settings := r.data;
      } else {
        b.toasts := b.toasts + [ToastError(FetchFailed)];
      }
      loading := false;
    }

    /** `handleSubmit`: one PUT of the record; `saving` holds during the call and is false after it. */
    method HandleSubmit(b: Browser, reply: Reply) returns (savingDuringCall: bool)
      modifies this`saving, b`storage, b`location, b`requests, b`toasts
      ensures savingDuringCall && !saving
      ensures b.Net() == ApiClient.Dispatch(old(b.Net()), Exchange(SettingsApi(UpdateSettings(settings)), reply))
      ensures b.toasts == old(b.toasts) + [if reply.Ok? then ToastSuccess(Updated) else ToastError(UpdateFailed)]
    {
      saving := true;
      savingDuringCall := saving;
      var r := ApiClient.Send(b, Exchange(SettingsApi(UpdateSettings(settings)), reply));
      if r.Ok? {
        b.toasts := b.toasts + [ToastSuccess(Updated)];
      } else {
        b.toasts := b.toasts + [ToastError(UpdateFailed)];
      }
      saving := false;
    }
  }
}
