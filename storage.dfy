/** The browser's `localStorage`: one string-to-string map shared by every page.
    `getItem` yields `null` for an absent key, which the model writes as `None`. */
module BrowserStorage {
  import opened Wrappers

  const TokenKey: string := "authToken"
  const UserIdKey: string := "userId"
  const AdminKey: string := "isAdmin"

  /** `getItem` on a snapshot of the storage: `null` exactly for an absent key. */
  function Lookup(items: map<string, string>, key: string): (v: Option<string>)
    ensures v.Some? <==> key in items
    ensures v.Some? ==> v.value == items[key]
  {
    if key in items then Some(items[key]) else None
  }

  /** JavaScript truthiness of a stored value: present and not the empty string. */
  predicate Truthy(v: Option<string>)
  {
    v.Some? && v.value != ""
  }

  class Storage {
    var items: map<string, string>

    constructor (initial: map<string, string>)
      ensures items == initial
    {
      items := initial;
    }

    method GetItem(key: string) returns (v: Option<string>)
      ensures v.Some? <==> key in items
      ensures v.Some? ==> v.value == items[key]
    {
      v := Lookup(items, key);
    }

    method SetItem(key: string, value: string)
      modifies this
      ensures items == old(items)[key := value]
    {
      items := items[key := value];
    }

    method RemoveItem(key: string)
      modifies this
      ensures items == old(items) - {key}
    {
      items := items - {key};
    }
  }
}
