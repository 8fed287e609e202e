/** The browser's `localStorage`: a map from keys to strings that handlers read and
    update in place, and the session token lookup the pages share. */
module BrowserStorage {
  import opened JsText

  /** `localStorage.getItem(key)`: `None` is `null`. */
  function Lookup(items: map<string, string>, key: string): Option<string> {
    if key in items then Some(items[key]) else None
  }

  /** `localStorage.getItem('token') || localStorage.getItem('access_token')`, as the
      request helpers of the dashboard and the profile page use it: they only go on when
      the value is truthy, so an empty value is reported as no token. */
  function AuthToken(items: map<string, string>): (t: Option<string>)
    ensures t.Some? ==> t.value != ""
    ensures Truthy(Lookup(items, "token")) ==> t == Lookup(items, "token")
    ensures !Truthy(Lookup(items, "token")) && Truthy(Lookup(items, "access_token")) ==>
              t == Lookup(items, "access_token")
    ensures t.None? <==> !Truthy(Lookup(items, "token")) && !Truthy(Lookup(items, "access_token"))
  {
    if Truthy(Lookup(items, "token")) then Lookup(items, "token")
    else if Truthy(Lookup(items, "access_token")) then Lookup(items, "access_token")
    else None
  }

  class LocalStorage {
    var items: map<string, string>

    constructor (initial: map<string, string>)
      ensures items == initial
    {
      items := initial;
    }

    function GetItem(key: string): Option<string>
      reads this
    {
      Lookup(items, key)
    }

    method SetItem(key: string, value: string)
      modifies this
      ensures items == old(items)[key := value]
    {
      items := items[key := value];
    }

    method RemoveItem(key: string)
      modifies this
      ensures items == old(items) - {key}
    {
      items := items - {key};
    }
  }
}
