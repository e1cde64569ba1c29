/** The browser's `localStorage`: a string-to-string store that outlives a page
    and is shared by every component of the application. */
module BrowserStorage {
  import opened Common

  /** `localStorage.getItem(key)` is truthy: present and not "". */
  predicate Stored(items: map<string, string>, key: string)
  {
    key in items && items[key] != ""
  }

  class LocalStorage {
    var items: map<string, string>

    constructor(initial: map<string, string>)
      ensures items == initial
    {
      items := initial;
    }

    /** `localStorage.getItem(key)`: the stored string, or null. */
    function GetItem(key: string): (r: Option<string>)
      reads this
      ensures r.Some? <==> key in items
      ensures r.Some? ==> r.value == items[key]
      ensures Present(r) <==> Stored(items, key)
    {
      if key in items then Some(items[key]) else None
    }

    /** `localStorage.setItem(key, value)`: overwrites one key, keeps the rest. */
    method SetItem(key: string, value: string)
      modifies this
      ensures items == old(items)[key := value]
    {
      items := items[key := value];
    }
  }
}
