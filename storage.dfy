/** The browser's `localStorage` / `sessionStorage`: a string-to-string map that may refuse access. */
module Storage {
  import opened Wrappers

  /** The keys the session is persisted under. */
  const TokenKey := "auth_token"
  const MobileKey := "auth_mobile"

  /** `getItem(key)` on the stored map: `null` (None) when the key is absent. */
  function Lookup(items: map<string, string>, key: string): (r: Option<string>)
    ensures r.Some? <==> key in items
    ensures r.Some? ==> r.value == items[key]
  {
    if key in items then Some(items[key]) else None
  }

  /**
   * One storage area. When `accessible` is false (storage disabled by the
   * browser) every call throws, which the methods report as `Thrown` or `false`.
   */
  class WebStorage {
    var items: map<string, string>
    var accessible: bool

    constructor (items: map<string, string>, accessible: bool)
      ensures this.items == items && this.accessible == accessible
    {
      this.items := items;
      this.accessible := accessible;
    }

    method GetItem(key: string) returns (r: Result<Option<string>>)
      ensures accessible ==> r == Ok(Lookup(items, key))
      ensures !accessible ==> r.Thrown?
    {
      if accessible {
        r := Ok(Lookup(items, key));
      } else {
        r := Thrown("SecurityError");
      }
    }

    /** `setItem`; `ok` is false when the call threw. */
    method SetItem(key: string, value: string) returns (ok: bool)
      modifies this`items
      ensures ok == accessible
      ensures items == if ok then old(items)[key := value] else old(items)
    {
      ok := accessible;
      if ok {
        items := items[key := value];
      }
    }

    /** `removeItem`; `ok` is false when the call threw. */
    method RemoveItem(key: string) returns (ok: bool)
      modifies this`items
      ensures ok == accessible
      ensures items == if ok then old(items) - {key} else old(items)
    {
      ok := accessible;
      if ok {
        items := items - {key};
      }
    }
  }
}
