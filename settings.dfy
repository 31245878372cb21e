/**
 * The store settings page, `src/admin/Settings.jsx`: a nested settings
 * record loaded from and saved to `/settings`, edited through inputs whose
 * `name` addresses a field with a dotted path.
 *
 * `SettingsChange` is `handleChange` as written: it keeps only the first two
 * segments of a dotted name. `SetPath`/`CorrectedChange` follow the whole
 * path, which is what the three-segment names of the shipping section need.
 */
module Settings {
  import opened Wrappers
  import opened Strings
  import opened Js
  import opened Http
  import opened Forms
  import opened Endpoints
  import opened Browser
  import ApiClient

  /** The record the page starts with, before the first fetch answers. */
  const Initial: Value := Obj(map[
    "siteName" := Str(""),
    "siteDescription" := Str(""),
    "contactEmail" := Str(""),
    "contactPhone" := Str(""),
    "address" := Str(""),
    "socialMedia" := Obj(map["facebook" := Str(""), "twitter" := Str(""), "instagram" := Str(""), "linkedin" := Str("")]),
    "paymentMethods" := Obj(map["stripe" := Bool(false), "paypal" := Bool(false), "bankTransfer" := Bool(false)]),
    "shippingMethods" := Obj(map[
      "standard" := Obj(map["enabled" := Bool(false), "price" := Num(0)]),
      "express" := Obj(map["enabled" := Bool(false), "price" := Num(0)])])
  ])

  const FetchFailed := "Failed to fetch settings"
  const Updated := "Settings updated successfully"
  const UpdateFailed := "Failed to update settings"

  /** A name that contains '.' splits into at least two segments. */
  lemma DottedSplits(name: string)
    requires '.' in name
    ensures |Split(name, '.')| >= 2
  {
    CountIn(name, '.');
    SplitLength(name, '.');
  }

  /**
   * `handleChange` as written. A plain name sets that key to the input's
   * `value`, checkbox or not. A dotted name `parent.child...` sets
   * `parent.child` to `checked` for a checkbox and to `value` otherwise;
   * any further segment is ignored.
   */
  function SettingsChange(prev: Value, e: InputEvent): (r: Value)
    ensures r.Obj?
    ensures '.' !in e.name ==>
      Get(r, e.name) == Str(e.value)
      && r.fields.Keys == Spread(prev).Keys + {e.name}
      && forall k :: k in Spread(prev) && k != e.name ==> Get(r, k) == Spread(prev)[k]
    ensures '.' in e.name ==>
      var parent, child := Split(e.name, '.')[0], Split(e.name, '.')[1];
      Get(Get(r, parent), child) == InputValue(e)
      && r.fields.Keys == Spread(prev).Keys + {parent}
      && (forall k :: k in Spread(prev) && k != parent ==> Get(r, k) == Spread(prev)[k])
      && (forall k :: k in Spread(Get(prev, parent)) && k != child ==> Get(Get(r, parent), k) == Get(Get(prev, parent), k))
  {
    if '.' in e.name then
      DottedSplits(e.name);
      var parts := Split(e.name, '.');
      SetNested(prev, parts[0], parts[1], InputValue(e))
    else
      SetKey(prev, e.name, Str(e.value))
  }

  /** The value at a property path, `undefined` once a step is missing. */
  function GetPath(v: Value, path: seq<string>): Value
    decreases |path|
  {
    if path == [] then v else GetPath(Get(v, path[0]), path[1..])
  }

  /** A nested spread update along the whole path. */
  function SetPath(prev: Value, path: seq<string>, v: Value): (r: Value)
    requires path != []
    ensures r.Obj? && r.fields.Keys == Spread(prev).Keys + {path[0]}
    decreases |path|
  {
    if |path| == 1 then SetKey(prev, path[0], v)
    else SetKey(prev, path[0], SetPath(Get(prev, path[0]), path[1..], v))
  }

  /** Reading back the path just written gives the value written. */
  lemma {:induction false} GetSetPath(prev: Value, path: seq<string>, v: Value)
    requires path != []
    ensures GetPath(SetPath(prev, path, v), path) == v
    decreases |path|
  {
    if |path| > 1 {
      GetSetPath(Get(prev, path[0]), path[1..], v);
    }
  }

  /**
   * Writing one path leaves every path that leaves it at position `k` as it
   * was, provided the record is an object along that path down to `k`.
   */
  lemma {:induction false} SetPathFrame(prev: Value, p: seq<string>, v: Value, q: seq<string>, k: nat)
    requires k < |p| && k < |q| && p[..k] == q[..k] && p[k] != q[k]
    requires forall j :: 0 <= j <= k ==> GetPath(prev, q[..j]).Obj?
    ensures GetPath(SetPath(prev, p, v), q) == GetPath(prev, q)
    decreases k
  {
    assert q[..0] == [];
    if k == 0 {
      assert prev.Obj?;
    } else {
      assert p[0] == p[..k][0] == q[..k][0] == q[0];
      var inner := Get(prev, q[0]);
      forall j | 0 <= j <= k - 1
        ensures GetPath(inner, q[1..][..j]).Obj?
      {
        assert q[..j + 1][0] == q[0] && q[..j + 1][1..] == q[1..][..j];
        assert GetPath(prev, q[..j + 1]).Obj?;
      }
      assert p[1..][..k - 1] == q[1..][..k - 1] by {
        assert p[1..][..k - 1] == p[..k][1..] && q[1..][..k - 1] == q[..k][1..];
      }
      SetPathFrame(inner, p[1..], v, q[1..], k - 1);
    }
  }

  /** `handleChange` with the dotted name followed to its end. */
  function CorrectedChange(prev: Value, e: InputEvent): (r: Value)
    ensures r.Obj?
  {
    if '.' in e.name then SetPath(prev, Split(e.name, '.'), InputValue(e))
    else SetKey(prev, e.name, Str(e.value))
  }

  /** The corrected update writes exactly the addressed leaf. */
  lemma CorrectedSetsLeaf(prev: Value, e: InputEvent)
    requires '.' in e.name
    ensures GetPath(CorrectedChange(prev, e), Split(e.name, '.')) == InputValue(e)
  {
    GetSetPath(prev, Split(e.name, '.'), InputValue(e));
  }

  /** On the two-segment names, which are most of the form, the corrected update is the written one. */
  lemma CorrectedAgreesOnTwoSegments(prev: Value, e: InputEvent)
    requires Count(e.name, '.') == 1
    ensures CorrectedChange(prev, e) == SettingsChange(prev, e)
  {
    CountIn(e.name, '.');
    SplitLength(e.name, '.');
    var parts := Split(e.name, '.');
    assert SetPath(Get(prev, parts[0]), parts[1..], InputValue(e)) == SetKey(Get(prev, parts[0]), parts[1], InputValue(e));
  }

  lemma DottedThree(a: string, b: string, c: string)
    requires '.' !in a && '.' !in b && '.' !in c
    ensures Split(a + "." + b + "." + c, '.') == [a, b, c]
  {
    assert a + "." + b + "." + c == a + ['.'] + (b + ['.'] + c);
    SplitAround(a, '.', b + ['.'] + c);
    SplitAround(b, '.', c);
    SplitFree(a, '.');
    SplitFree(b, '.');
    SplitFree(c, '.');
  }

  /** The name of the standard-shipping checkbox, a three-segment path. */
  const StandardEnabled := "shippingMethods" + "." + "standard" + "." + "enabled"

  lemma StandardEnabledPath()
    ensures Split(StandardEnabled, '.') == ["shippingMethods", "standard", "enabled"]
  {
    DottedThree("shippingMethods", "standard", "enabled");
  }

  /**
   * As written, ticking the standard-shipping checkbox replaces the whole
   * `shippingMethods.standard` object by a boolean, losing its price.
   */
  lemma ThreeSegmentNameReplacesObject(value: string, checked: bool)
    ensures var r := SettingsChange(Initial, InputEvent(StandardEnabled, value, "checkbox", checked));
      GetPath(r, ["shippingMethods", "standard"]) == Bool(checked)
      && GetPath(r, ["shippingMethods", "standard", "price"]) == Undefined
      && GetPath(Initial, ["shippingMethods", "standard", "price"]) == Num(0)
  {
    StandardEnabledPath();
    assert '.' in StandardEnabled by { assert StandardEnabled[15] == '.'; }
  }

  /** Setting `a.b.c` keeps its sibling `a.b.d` when `a` and `a.b` are objects. */
  lemma SetKeepsSibling(prev: Value, a: string, b: string, c: string, d: string, v: Value)
    requires c != d && prev.Obj? && GetPath(prev, [a]).Obj? && GetPath(prev, [a, b]).Obj?
    ensures GetPath(SetPath(prev, [a, b, c], v), [a, b, c]) == v
    ensures GetPath(SetPath(prev, [a, b, c], v), [a, b, d]) == GetPath(prev, [a, b, d])
  {
    var q := [a, b, d];
    GetSetPath(prev, [a, b, c], v);
    assert q[..0] == [] && q[..1] == [a] && q[..2] == [a, b];
    SetPathFrame(prev, [a, b, c], v, q, 2);
  }

  /** Corrected, the same click sets `enabled` and keeps the price. */
  lemma CorrectedKeepsPrice(value: string, checked: bool)
    ensures var r := CorrectedChange(Initial, InputEvent(StandardEnabled, value, "checkbox", checked));
      GetPath(r, ["shippingMethods", "standard", "enabled"]) == Bool(checked)
      && GetPath(r, ["shippingMethods", "standard", "price"]) == Num(0)
  {
    StandardEnabledPath();
    assert '.' in StandardEnabled by { assert StandardEnabled[15] == '.'; }
    assert GetPath(Initial, ["shippingMethods", "standard", "price"]) == Num(0);
    assert GetPath(Initial, ["shippingMethods", "standard"]).Obj?;
    SetKeepsSibling(Initial, "shippingMethods", "standard", "enabled", "price", Bool(checked));
  }

  /** The page's state: the settings record and the three flags around its calls. */
  class SettingsPage {
    var settings: Value
    var loading: bool
    var error: string
    var isSaving: bool

    constructor ()
      ensures settings == Initial && loading && error == "" && !isSaving
    {
      settings := Initial;
      loading := true;
      error := "";
      isSaving := false;
    }

    /**
     * `fetchSettings`: a success replaces the whole record with the response;
     * a failure keeps it, sets the error and shows a toast. `loading` is set
     * while the call is pending (returned as `pending`) and cleared after.
     */
    method FetchSettings(b: Browser, reply: Reply) returns (pending: bool)
      modifies this`settings, this`loading, this`error, b`storage, b`location, b`requests, b`toasts
      ensures pending && !loading
      ensures b.Net() == ApiClient.Dispatch(old(b.Net()), Exchange(SettingsApi(GetSettings), reply))
      ensures reply.Ok? ==> settings == reply.data && error == old(error) && b.toasts == old(b.toasts)
      ensures reply.Failed? ==>
        settings == old(settings) && error == FetchFailed && b.toasts == old(b.toasts) + [ToastError(FetchFailed)]
    {
      loading := true;
      pending := loading;
      var r := ApiClient.Send(b, Exchange(SettingsApi(GetSettings), reply));
      if r.Ok? {
        settings := r.data;
      } else {
        error := FetchFailed;
        b.toasts := b.toasts + [ToastError(FetchFailed)];
      }
      loading := false;
    }

    /**
     * `handleSubmit`: one PUT of the current record. `isSaving` holds while
     * the call is pending (returned as `saving`) and is false afterwards on
     * both outcomes; the record itself does not change.
     */
    method HandleSubmit(b: Browser, reply: Reply) returns (saving: bool)
      modifies this`isSaving, b`storage, b`location, b`requests, b`toasts
      ensures saving && !isSaving
      ensures b.Net() == ApiClient.Dispatch(old(b.Net()), Exchange(SettingsApi(UpdateSettings(settings)), reply))
      ensures b.toasts == old(b.toasts) + [if reply.Ok? then ToastSuccess(Updated) else ToastError(UpdateFailed)]
    {
      isSaving := true;
      saving := isSaving;
      var r := ApiClient.Send(b, Exchange(SettingsApi(UpdateSettings(settings)), reply));
      if r.Ok? {
        b.toasts := b.toasts + [ToastSuccess(Updated)];
      } else {
        b.toasts := b.toasts + [ToastError(UpdateFailed)];
      }
      isSaving := false;
    }
  }
}
