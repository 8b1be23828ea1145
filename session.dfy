/** The AuthContext session: three `localStorage` keys and the in-memory `user`.
    `login` writes all three keys, `logout` removes them, and the mount effect
    restores `user` from them before letting the children render. */
module Session {
  import opened Wrappers
  import opened BrowserStorage

  datatype User = User(token: string, userId: string, isAdmin: bool)

  /** The `userData` argument of `login`: the server's `_id` and `isAdmin`. */
  datatype UserData = UserData(id: string, isAdmin: bool)

  /** `setItem` stores a boolean as its string form. */
  function BoolString(b: bool): string
  {
    if b then "true" else "false"
  }

  /** Storage after `login(token, userData)`. */
  function AfterLogin(items: map<string, string>, token: string, data: UserData): (r: map<string, string>)
    ensures Lookup(r, TokenKey) == Some(token) && Lookup(r, UserIdKey) == Some(data.id)
    ensures Lookup(r, AdminKey) == Some(if data.isAdmin then "true" else "false")
    ensures forall k :: k != TokenKey && k != UserIdKey && k != AdminKey ==> Lookup(r, k) == Lookup(items, k)
  {
    items[TokenKey := token][UserIdKey := data.id][AdminKey := BoolString(data.isAdmin)]
  }

  /** Storage after `logout()`. */
  function AfterLogout(items: map<string, string>): (r: map<string, string>)
    ensures TokenKey !in r && UserIdKey !in r && AdminKey !in r
    ensures forall k :: k != TokenKey && k != UserIdKey && k != AdminKey ==> Lookup(r, k) == Lookup(items, k)
  {
    items - {TokenKey, UserIdKey, AdminKey}
  }

  /** The user the mount effect finds in storage, if any. */
  function Restored(items: map<string, string>): (u: Option<User>)
    ensures u.Some? <==> Truthy(Lookup(items, TokenKey)) && Truthy(Lookup(items, UserIdKey))
    ensures u.Some? ==> u.value.token == items[TokenKey] && u.value.userId == items[UserIdKey]
    ensures u.Some? ==> (u.value.isAdmin <==> AdminKey in items && items[AdminKey] == "true")
  {
    var token, userId := Lookup(items, TokenKey), Lookup(items, UserIdKey);
    if Truthy(token) && Truthy(userId) then
      Some(User(token.value, userId.value, Lookup(items, AdminKey) == Some("true")))
    else None
  }

  /** A login with a non-empty token and id survives a reload: restore yields the same user,
      whatever storage held before. */
  lemma LoginRestoreRoundTrip(items: map<string, string>, token: string, data: UserData)
    requires token != "" && data.id != ""
    ensures Restored(AfterLogin(items, token, data)) == Some(User(token, data.id, data.isAdmin))
  {
    var after := AfterLogin(items, token, data);
    assert after[AdminKey] == BoolString(data.isAdmin);
    assert BoolString(data.isAdmin) == "true" <==> data.isAdmin;
  }

  /** A login with an empty token or id is forgotten on reload. */
  lemma EmptyLoginNotRestored(items: map<string, string>, token: string, data: UserData)
    requires token == "" || data.id == ""
    ensures Restored(AfterLogin(items, token, data)) == None
  {
    var after := AfterLogin(items, token, data);
    assert after[TokenKey] == token && after[UserIdKey] == data.id;
  }

  /** After logout nothing is restored. */
  lemma LogoutRestoreNone(items: map<string, string>)
    ensures Restored(AfterLogout(items)) == None
  {
    assert TokenKey !in AfterLogout(items);
  }

  /** Logout erases every trace of a login: storage is as if the login never happened. */
  lemma LogoutUndoesLogin(items: map<string, string>, token: string, data: UserData)
    ensures AfterLogout(AfterLogin(items, token, data)) == AfterLogout(items)
  {
    var a, b := AfterLogout(AfterLogin(items, token, data)), AfterLogout(items);
    assert forall k :: k in a <==> k in b;
  }

  /** The AuthProvider's `user` and `loading` state. */
  class AuthProvider {
    var user: Option<User>
    var loading: bool

    constructor ()
      ensures user == None && loading
    {
      user := None;
      loading := true;
    }

    /** Children are rendered only once loading is over. */
    predicate RendersChildren(): (r: bool)
      reads this
      ensures r <==> !loading
    {
      !loading
    }

    /** The mount effect: read the three keys, set `user` when token and id are both truthy,
        then end loading whether or not a user was found. */
    method RestoreSession(store: Storage)
      modifies this
      ensures RendersChildren()
      ensures Restored(store.items).Some? ==> user == Restored(store.items)
      ensures Restored(store.items).None? ==> user == old(user)
    {
      var token := store.GetItem(TokenKey);
      var userId := store.GetItem(UserIdKey);
      var adminFlag := store.GetItem(AdminKey);
      var isAdmin := adminFlag == Some("true");
      if Truthy(token) && Truthy(userId) {
        user := Some(User(token.value, userId.value, isAdmin));
      }
      loading := false;
    }

    /** `login(token, userData)`. */
    method Login(store: Storage, token: string, data: UserData)
      modifies this, store
      ensures store.items == AfterLogin(old(store.items), token, data)
      ensures user == Some(User(token, data.id, data.isAdmin)) && loading == old(loading)
    {
      store.SetItem(TokenKey, token);
      store.SetItem(UserIdKey, data.id);
      store.SetItem(AdminKey, BoolString(data.isAdmin));
      user := Some(User(token, data.id, data.isAdmin));
    }

    /** `logout()`. */
    method Logout(store: Storage)
      modifies this, store
      ensures store.items == AfterLogout(old(store.items))
      ensures user == None && loading == old(loading)
    {
      store.RemoveItem(TokenKey);
      store.RemoveItem(UserIdKey);
      store.RemoveItem(AdminKey);
      user := None;
    }
  }
}
