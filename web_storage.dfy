/** The browser's `localStorage` (a string-to-string map owned by one object)
    and the JSON serialisation the storage helpers use, kept abstract: a pair
    of functions whose parse half may fail. */
module WebStorage {
  import opened Wrappers

  /** `JSON.stringify` and `JSON.parse` at one type; `decode` gives `None`
      where `JSON.parse` throws. */
  datatype Codec<!T> = Codec(encode: T -> string, decode: string -> Option<T>)

  /** A codec whose parse undoes its stringify, and whose text is never empty
      (as for `JSON.stringify` of any object or array). */
  ghost predicate Faithful<T(!new)>(c: Codec<T>) {
    forall x: T :: c.decode(c.encode(x)) == Some(x) && c.encode(x) != ""
  }

  class LocalStorage {
    var items: map<string, string>

    constructor ()
      ensures items == map[]
    {
      items := map[];
    }

    /** `getItem`: `null` (here `None`) for a missing key. */
    function GetItem(key: string): (r: Option<string>)
      reads this
      ensures r.Some? <==> key in items
      ensures r.Some? ==> r.value == items[key]
    {
      if key in items then Some(items[key]) else None
    }

    method SetItem(key: string, value: string)
      modifies this
      ensures items == old(items)[key := value]
    {
      items := items[key := value];
    }

    method RemoveItem(key: string)
      modifies this
      ensures items == old(items) - {key}
    {
      items := items - {key};
    }
  }
}
