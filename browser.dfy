// The browser's `localStorage`, shared by every client-side module.

module Browser {
  import opened Base

  /** `window.localStorage`: string keys mapped to string values. When the
      code runs on the server there is no window (`hasWindow` is false) and
      every helper that consults storage returns its default instead. */
  class LocalStorage {
    const hasWindow: bool
    var items: map<string, string>

    constructor (hasWindow: bool, items: map<string, string>)
      ensures this.hasWindow == hasWindow && this.items == items
    {
      this.hasWindow := hasWindow;
      this.items := items;
    }

    /** `getItem(key)`: null (None) for a key never set. */
    function GetItem(key: string): (r: Option<string>)
      reads this
      ensures r.Some? <==> key in items
      ensures r.Some? ==> r.value == items[key]
    {
      if key in items then Some(items[key]) else None
    }

    /** `getItem(key) || fallback`: a missing or empty value gives the fallback. */
    function GetItemOr(key: string, fallback: string): (r: string)
      reads this
      ensures key in items && items[key] != "" ==> r == items[key]
      ensures !(key in items && items[key] != "") ==> r == fallback
    {
      if key in items && items[key] != "" then items[key] else fallback
    }

    method SetItem(key: string, value: string)
      modifies this
      ensures items == old(items)[key := value]
    {
      items := items[key := value];
    }

    method RemoveItem(key: string)
      modifies this
      ensures items == old(items) - {key}
    {
      items := items - {key};
    }
  }
}
