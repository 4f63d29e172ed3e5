/**
 * The browser's localStorage as the client services use it: a map from keys to stored text.
 * Stored text is modelled by what `JSON.parse` makes of it: the empty string, the
 * serialisation of a value, or text it rejects. User records are flat objects of strings;
 * an absent key is an `undefined` field, which `JSON.stringify` drops.
 */
module BrowserStorage {
  import opened Wrappers

  type JsObject = map<string, string>

  datatype JsValue = JNull | JObject(fields: JsObject)

  datatype Item = EmptyText | Json(value: JsValue) | Malformed(text: string)

  /** A string value JavaScript treats as true: defined and not empty. */
  predicate Truthy(s: Option<string>) {
    s.Some? && s.value != ""
  }

  /** The field `s || fallback`. */
  function Or(s: Option<string>, fallback: Option<string>): (r: Option<string>)
    ensures Truthy(s) ==> r == s
    ensures !Truthy(s) ==> r == fallback
  {
    if Truthy(s) then s else fallback
  }

  /** An object literal entry `key: v`, which disappears when `v` is undefined. */
  function Put(m: JsObject, key: string, v: Option<string>): (r: JsObject)
    ensures v.Some? ==> r == m[key := v.value]
    ensures v.None? ==> r == m
  {
    if v.Some? then m[key := v.value] else m
  }

  /** `obj.key`, undefined when absent. */
  function Get(m: JsObject, key: string): Option<string> {
    if key in m then Some(m[key]) else None
  }

  /**
   * What `getItem(key)` followed by `JSON.parse` yields when the text is truthy: the stored
   * object, or nothing for an absent key, empty text, `null` or text that does not parse.
   */
  function StoredObject(items: map<string, Item>, key: string): (u: Option<JsObject>)
    ensures u.Some? <==> key in items && items[key].Json? && items[key].value.JObject?
    ensures u.Some? ==> u.value == items[key].value.fields
  {
    if key in items && items[key].Json? && items[key].value.JObject? then Some(items[key].value.fields) else None
  }

  /** The key holds text `JSON.parse` rejects. */
  predicate Corrupt(items: map<string, Item>, key: string) {
    key in items && items[key].Malformed?
  }

  class LocalStorage {
    var items: map<string, Item>

    constructor ()
      ensures items == map[]
    {
      items := map[];
    }

    method SetItem(key: string, value: Item)
      modifies this
      ensures items == old(items)[key := value]
    {
      items := items[key := value];
    }

    method RemoveItem(key: string)
      modifies this
      ensures items == old(items) - {key}
    {
      items := items - {key};
    }
  }
}
