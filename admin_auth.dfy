/** `handleAuthError`, written the same in both admin pages except for the toast text: a 401 or 403
    response shows an error toast, removes the token and the admin flag (but not
    the user id), and sends the admin to `/auth`. */
module AdminAuth {
  import opened Wrappers
  import opened BrowserStorage
  import opened Toasts
  import Session

  /** The end of a `fetch`: a response with its status and `ok` flag, or a thrown error. */
  datatype HttpResult = Response(status: int, ok: bool) | NetworkError

  /** Only the two "unauthorised" and "forbidden" statuses count; both are client errors. */
  predicate IsAuthError(status: int): (r: bool)
    ensures r ==> 400 <= status < 500
    ensures r <==> status in {401, 403}
  {
    status == 401 || status == 403
  }

  /** Storage after an auth error: two of the three session keys removed. */
  function AfterAuthError(items: map<string, string>): (r: map<string, string>)
    ensures TokenKey !in r && AdminKey !in r
    ensures forall k :: k != TokenKey && k != AdminKey ==> Lookup(r, k) == Lookup(items, k)
  {
    items - {TokenKey, AdminKey}
  }

  /** The user id survives an auth error while the token does not. */
  lemma AuthErrorKeepsUserId(items: map<string, string>)
    ensures Lookup(AfterAuthError(items), UserIdKey) == Lookup(items, UserIdKey)
    ensures Lookup(AfterAuthError(items), TokenKey) == None
    ensures Lookup(AfterAuthError(items), AdminKey) == None
  {
  }

  /** Even so, the leftover id alone restores no session on the next mount. */
  lemma AuthErrorEndsRestoredSession(items: map<string, string>)
    ensures Session.Restored(AfterAuthError(items)) == None
  {
    assert TokenKey !in AfterAuthError(items);
  }

  /** `handleAuthError(response)`; `handled` is its return value, on which the caller returns
      early after the redirect to `/auth`. */
  method HandleAuthError(store: Storage, toasts: ToastQueue, now: nat, message: string, status: int)
    returns (handled: bool)
    requires toasts.Valid()
    modifies store, toasts
    ensures toasts.Valid()
    ensures handled <==> IsAuthError(status)
    ensures handled ==> store.items == AfterAuthError(old(store.items))
    ensures handled ==> toasts.toasts == old(toasts.toasts) + [Toast(now, message, ErrorKind)]
    ensures !handled ==> store.items == old(store.items) && toasts.toasts == old(toasts.toasts)
    ensures |old(toasts.toasts)| <= |toasts.toasts|
    ensures toasts.pending == old(toasts.pending) + AddedIds(old(toasts.toasts), toasts.toasts)
  {
    if IsAuthError(status) {
      toasts.ShowToast(message, Some(ErrorKind), now);
      store.RemoveItem(TokenKey);
      store.RemoveItem(AdminKey);
      handled := true;
    } else {
      handled := false;
    }
  }
}
