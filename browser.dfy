/** The browser state the pages touch: `localStorage` and the current location. */
module Browser {
  import opened Wrappers

  /** The keys the credential layer keeps in `localStorage`. */
  const AccessKey := "access_token"
  const RefreshKey := "refresh_token"
  const UserKey := "user_data"

  /** `localStorage.getItem(key)`: the stored text, or `None` for `null`. */
  function Lookup(store: map<string, string>, key: string): Option<string> {
    if key in store then Some(store[key]) else None
  }

  /** `if (localStorage.getItem(key))`: a value is stored and it is not empty. */
  predicate HasTruthy(store: map<string, string>, key: string) {
    key in store && store[key] != ""
  }

  /** One browser window: its `localStorage` and the location it was last sent
      to (`window.location.href = ...` / `router.push(...)`). */
  class Window {
    var storage: map<string, string>
    var location: Option<string>

    constructor(storage: map<string, string>)
      ensures this.storage == storage && location == None
    {
      this.storage := storage;
      location := None;
    }

    function GetItem(key: string): (r: Option<string>)
      reads this
      ensures r.Some? <==> key in storage
      ensures r.Some? ==> r.value == storage[key]
    {
      Lookup(storage, key)
    }

    method SetItem(key: string, value: string)
      modifies this
      ensures storage == old(storage)[key := value]
      ensures location == old(location)
    {
      storage := storage[key := value];
    }

    method RemoveItem(key: string)
      modifies this
      ensures storage == old(storage) - {key}
      ensures location == old(location)
    {
      storage := storage - {key};
    }

    /** `localStorage.clear()`. */
    method Clear()
      modifies this
      ensures storage == map[]
      ensures location == old(location)
    {
      storage := map[];
    }

    method Navigate(url: string)
      modifies this
      ensures location == Some(url)
      ensures storage == old(storage)
    {
      location := Some(url);
    }
  }
}
