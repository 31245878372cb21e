/**
 * Controlled form inputs: the `e.target` of a change event and the
 * spread-based record updates the views build from it.
 */
module Forms {
  import opened Js

  /** The fields of `e.target` the handlers destructure: `name`, `value`, `type` and `checked`. */
  datatype InputEvent = InputEvent(name: string, value: string, kind: string, checked: bool)

  /** `type === 'checkbox' ? checked : value`. */
  function InputValue(e: InputEvent): (v: Value)
    ensures e.kind == "checkbox" ==> v == Bool(e.checked)
    ensures e.kind != "checkbox" ==> v == Str(e.value)
  {
    if e.kind == "checkbox" then Bool(e.checked) else Str(e.value)
  }

  /** `{ ...prev, [name]: v }` on a record: the field is set and every other field keeps its value. */
  function SetField(prev: map<string, Value>, name: string, v: Value): (r: map<string, Value>)
    ensures r.Keys == prev.Keys + {name}
    ensures r[name] == v
    ensures forall k :: k in prev && k != name ==> r[k] == prev[k]
  {
    prev[name := v]
  }

  /** `{ ...prev, [key]: v }` on a value, which need not be an object. */
  function SetKey(prev: Value, key: string, v: Value): (r: Value)
    ensures r.Obj? && r.fields.Keys == Spread(prev).Keys + {key}
    ensures Get(r, key) == v
    ensures forall k :: k in Spread(prev) && k != key ==> Get(r, k) == Spread(prev)[k]
  {
    Obj(SetField(Spread(prev), key, v))
  }

  /**
   * `{ ...prev, [parent]: { ...prev[parent], [child]: v } }`: one child of one
   * top-level object is set, every other child and every other top-level key
   * keeps its value.
   */
  function SetNested(prev: Value, parent: string, child: string, v: Value): (r: Value)
    ensures r.Obj? && r.fields.Keys == Spread(prev).Keys + {parent}
    ensures Get(Get(r, parent), child) == v
    ensures Spread(Get(r, parent)).Keys == Spread(Get(prev, parent)).Keys + {child}
    ensures forall k :: k in Spread(Get(prev, parent)) && k != child ==> Get(Get(r, parent), k) == Get(Get(prev, parent), k)
    ensures forall k :: k in Spread(prev) && k != parent ==> Get(r, k) == Spread(prev)[k]
  {
    SetKey(prev, parent, SetKey(Get(prev, parent), child, v))
  }
}
