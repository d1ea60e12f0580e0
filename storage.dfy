/** The browser's `localStorage`, one object shared by the session store,
    the request gateway and the login and register pages. */
module Storage {
  import opened Wrappers

  const TokenKey := "token"
  const UsernameKey := "username"

  class LocalStorage {
    var items: map<string, string>

    constructor (initial: map<string, string>)
      ensures items == initial
    {
      items := initial;
    }

    /** `localStorage.getItem(key)`: null when the key is absent. */
    function GetItem(key: string): Option<string>
      reads this
    {
      if key in items then Some(items[key]) else None
    }

    method SetItem(key: string, value: string)
      modifies this
      ensures items == old(items)[key := value]
    {
      items := items[key := value];
    }

    method RemoveItem(key: string)
      modifies this
      ensures items == old(items) - {key}
    {
      items := items - {key};
    }
  }
}
