/**
 * The device's persistent key-value store (AsyncStorage). Every component of
 * the client holds a reference to the one shared store, so a write by one is
 * seen by every later read of the same key by another.
 */
module Storage {
  import opened Wrappers

  /** `getItem` on a snapshot: the stored string, or null (None) for a missing key. */
  function Lookup(items: map<string, string>, key: string): (v: Option<string>)
    ensures v.Some? <==> key in items
    ensures v.Some? ==> v.value == items[key]
  {
    if key in items then Some(items[key]) else None
  }

  /**
   * JavaScript truthiness of a `string | null`: both null and the empty string
   * are falsy, which is what `if (saved)` and `saved || fallback` test.
   */
  predicate Truthy(v: Option<string>) {
    v.Some? && v.value != ""
  }

  /**
   * `saved || fallback` on a `string | null`: the stored string when it is
   * present and non-empty, otherwise the fallback.
   */
  function StoredOr(saved: Option<string>, fallback: string): (v: string)
    ensures v == fallback || (saved.Some? && v == saved.value)
    ensures v == "" ==> fallback == ""
  {
    if Truthy(saved) then saved.value else fallback
  }

  class KeyValueStore {
    var items: map<string, string>

    constructor (initial: map<string, string>)
      ensures items == initial
    {
      items := initial;
    }

    method GetItem(key: string) returns (v: Option<string>)
      ensures v == Lookup(items, key)
    {
      v := if key in items then Some(items[key]) else None;
    }

    method SetItem(key: string, value: string)
      modifies this
      ensures items == old(items)[key := value]
    {
      items := items[key := value];
    }
  }
}
