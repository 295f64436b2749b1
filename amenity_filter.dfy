/**
 * The amenity toggles of the filter panel. Each amenity key of the `filters`
 * record cycles through three states, unset -> true -> false -> unset, and a
 * click rewrites exactly that one key of the record.
 */
module AmenityFilter {
  import opened JsValue

  /** FILTER_OPTIONS: the amenities that have a toggle button, in display order. */
  const FilterOptions: seq<string> := ["wifi", "parking", "pets", "breakfast"]

  /** The three states of a toggle: unset (`undefined`), `true` and `false`. */
  predicate IsTriState(v: Value) {
    v == Undefined || v.Bool?
  }

  /**
   * getNextState: `true` becomes `false`, `false` becomes unset, and anything
   * else (unset included) becomes `true`. The result is always a tri-state value
   * and never the value it started from.
   */
  function NextState(current: Value): (next: Value)
    ensures IsTriState(next)
    ensures next != current
    ensures current == Bool(true) ==> next == Bool(false)
    ensures current == Bool(false) ==> next == Undefined
    ensures current != Bool(true) && current != Bool(false) ==> next == Bool(true)
  {
    if current == Bool(true) then Bool(false)
    else if current == Bool(false) then Undefined
    else Bool(true)
  }

  /** Three steps of the cycle bring every tri-state value back to itself. */
  lemma NextStateCycle(v: Value)
    requires IsTriState(v)
    ensures NextState(NextState(NextState(v))) == v
  {
  }

  /** The cycle has no shorter period: two steps never return to the start. */
  lemma NextStateNoPeriodTwo(v: Value)
    requires IsTriState(v)
    ensures NextState(NextState(v)) != v
  {
  }

  /** getLabel: a distinct mark for `true`, for `false` and for any other value. */
  function Label(value: Value): (mark: string)
    ensures mark == "✅" <==> value == Bool(true)
    ensures mark == "❌" <==> value == Bool(false)
    ensures mark == "⚪" <==> value != Bool(true) && value != Bool(false)
  {
    if value == Bool(true) then "✅"
    else if value == Bool(false) then "❌"
    else "⚪"
  }

  /** The label tells the three states apart. */
  lemma LabelInjective(a: Value, b: Value)
    requires IsTriState(a) && IsTriState(b)
    requires Label(a) == Label(b)
    ensures a == b
  {
  }

  /**
   * handleToggle(key): the record passed to onFilterChange. `key` holds the
   * next state of its old value; every other key reads as before.
   */
  function Toggle(filters: Record, key: string): (r: Record)
    ensures r.Keys == filters.Keys + {key}
    ensures Get(r, key) == NextState(Get(filters, key))
    ensures forall k :: k != key ==> Get(r, k) == Get(filters, k)
  {
    filters[key := NextState(Get(filters, key))]
  }

  /** Three toggles of one key give back a record that reads the same everywhere. */
  lemma ToggleThrice(filters: Record, key: string)
    requires IsTriState(Get(filters, key))
    ensures forall k :: Get(Toggle(Toggle(Toggle(filters, key), key), key), k) == Get(filters, k)
  {
    NextStateCycle(Get(filters, key));
  }

  /** The click on the toggle button at position `button` of FILTER_OPTIONS. */
  function Press(filters: Record, button: nat): (r: Record)
    requires button < |FilterOptions|
    ensures Get(r, FilterOptions[button]) == NextState(Get(filters, FilterOptions[button]))
    ensures forall k :: k != FilterOptions[button] ==> Get(r, k) == Get(filters, k)
  {
    Toggle(filters, FilterOptions[button])
  }

  /**
   * A run of button clicks, each applied to the record the previous one
   * produced. Only the four amenity keys can change, and each of them is
   * left in a tri-state value if it was in one.
   */
  function PressAll(filters: Record, buttons: seq<nat>): (r: Record)
    requires forall i :: 0 <= i < |buttons| ==> buttons[i] < |FilterOptions|
    ensures forall k :: k !in FilterOptions ==> Get(r, k) == Get(filters, k)
    ensures forall k :: k in FilterOptions && IsTriState(Get(filters, k)) ==> IsTriState(Get(r, k))
    decreases |buttons|
  {
    if buttons == [] then filters
    else PressAll(Press(filters, buttons[0]), buttons[1..])
  }
}
