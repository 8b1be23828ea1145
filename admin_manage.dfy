/** AdminManagePage: the admin's order list. Loading needs a stored token;
    a status change is applied to the local list only after an ok, non-auth-error answer. */
module AdminManage {
  import opened Wrappers
  import opened BrowserStorage
  import opened Toasts
  import opened AdminAuth

  /** `STATUS_OPTIONS`: paid, in progress, shipped, delivered, cancelled. */
  const StatusOptions: seq<string> := ["Оплачено", "В работе", "Отправлено", "Доставлено", "Отменено"]

  const SessionExpiredMessage: string := "Сессия истекла. Войдите заново."
  const LoadFailedMessage: string := "Не удалось загрузить заказы"
  const StatusUpdatedMessage: string := "Статус обновлен!"
  const UpdateFailedMessage: string := "Ошибка обновления"

  datatype Order = Order(id: string, status: string, totalPrice: real)

  /** The status selector offers five statuses; they are distinct, as the options' React
      `key={s}` requires. */
  lemma StatusOptionsDistinct()
    ensures |StatusOptions| == 5
    ensures forall i, j :: 0 <= i < j < |StatusOptions| ==> StatusOptions[i] != StatusOptions[j]
  {
  }

  /** `prev.map(o => o._id === orderId ? { ...o, status: newStatus } : o)`. */
  function WithStatus(orders: seq<Order>, orderId: string, status: string): (r: seq<Order>)
    ensures |r| == |orders|
    ensures forall i :: 0 <= i < |orders| && orders[i].id == orderId ==>
      r[i].status == status && r[i].id == orders[i].id && r[i].totalPrice == orders[i].totalPrice
    ensures forall i :: 0 <= i < |orders| && orders[i].id != orderId ==> r[i] == orders[i]
  {
    if orders == [] then []
    else
      var first := if orders[0].id == orderId then orders[0].(status := status) else orders[0];
      [first] + WithStatus(orders[1..], orderId, status)
  }

  /** Of two status changes to one order, the later wins, as if the first never happened. */
  lemma LastStatusWins(orders: seq<Order>, orderId: string, first: string, second: string)
    ensures WithStatus(WithStatus(orders, orderId, first), orderId, second)
         == WithStatus(orders, orderId, second)
  {
    var a := WithStatus(WithStatus(orders, orderId, first), orderId, second);
    var b := WithStatus(orders, orderId, second);
    assert |a| == |b|;
    forall i | 0 <= i < |a| ensures a[i] == b[i] {
    }
  }

  /** A change for an id no order carries leaves the list as it was. */
  lemma WithStatusAbsent(orders: seq<Order>, orderId: string, status: string)
    requires forall i :: 0 <= i < |orders| ==> orders[i].id != orderId
    ensures WithStatus(orders, orderId, status) == orders
  {
  }

  /** `order._id.slice(-6)`: the last six characters, or the whole id if it is shorter. */
  function OrderLabel(id: string): (r: string)
    ensures |r| == if |id| < 6 then |id| else 6
    ensures r == id[|id| - |r|..]
  {
    if |id| < 6 then id else id[|id| - 6..]
  }

  /** The end of the orders request: a response with status, `ok` and body, or a throw. */
  datatype OrdersResponse = OrdersResponse(status: int, ok: bool, data: seq<Order>) | OrdersNetworkError

  datatype FetchOutcome = RedirectedNoToken | RedirectedAuthError | LoadFailed | OrdersShown

  /** The status PATCH, with the token as read (possibly absent: this handler has no guard). */
  datatype StatusRequest = StatusRequest(orderId: string, status: string, token: Option<string>)

  class AdminManagePage {
    var orders: seq<Order>
    var loading: bool

    constructor ()
      ensures orders == [] && loading
    {
      orders := [];
      loading := true;
    }

    /** `fetchAllOrders`: without a (truthy) token nothing is requested and the page redirects;
        otherwise the answer is sorted into auth error, failure and success. `loading` ends in
        every case, early returns included. */
    method FetchAllOrders(store: Storage, toasts: ToastQueue, now: nat, response: OrdersResponse)
      returns (outcome: FetchOutcome)
      requires toasts.Valid()
      modifies this, store, toasts
      ensures toasts.Valid() && !loading
      ensures |old(toasts.toasts)| <= |toasts.toasts|
      ensures toasts.pending == old(toasts.pending) + AddedIds(old(toasts.toasts), toasts.toasts)
      ensures outcome == RedirectedNoToken <==> !Truthy(Lookup(old(store.items), TokenKey))
      ensures outcome == RedirectedNoToken ==>
        orders == old(orders) && store.items == old(store.items) && toasts.toasts == old(toasts.toasts)
      ensures outcome == RedirectedAuthError <==>
        Truthy(Lookup(old(store.items), TokenKey)) && response.OrdersResponse? && IsAuthError(response.status)
      ensures outcome == RedirectedAuthError ==>
        orders == old(orders) && store.items == AfterAuthError(old(store.items))
        && toasts.toasts == old(toasts.toasts) + [Toast(now, SessionExpiredMessage, ErrorKind)]
      ensures outcome == LoadFailed <==>
        Truthy(Lookup(old(store.items), TokenKey))
        && (response.OrdersNetworkError? || (!IsAuthError(response.status) && !response.ok))
      ensures outcome == LoadFailed ==>
        orders == old(orders) && store.items == old(store.items)
        && toasts.toasts == old(toasts.toasts) + [Toast(now, LoadFailedMessage, ErrorKind)]
      ensures outcome == OrdersShown <==>
        Truthy(Lookup(old(store.items), TokenKey)) && response.OrdersResponse?
        && !IsAuthError(response.status) && response.ok
      ensures outcome == OrdersShown ==>
        orders == response.data && store.items == old(store.items) && toasts.toasts == old(toasts.toasts)
    {
      loading := true;
      var token := store.GetItem(TokenKey);
      if !Truthy(token) {
        outcome := RedirectedNoToken;
      } else if response.OrdersNetworkError? {
        toasts.ShowToast(LoadFailedMessage, Some(ErrorKind), now);
        outcome := LoadFailed;
      } else {
        var handled := HandleAuthError(store, toasts, now, SessionExpiredMessage, response.status);
        if handled {
          outcome := RedirectedAuthError;
        } else if !response.ok {
          toasts.ShowToast(LoadFailedMessage, Some(ErrorKind), now);
          outcome := LoadFailed;
        } else {
          orders := response.data;
          outcome := OrdersShown;
        }
      }
      loading := false;
    }

    /** `handleStatusChange(orderId, newStatus)`: the local list changes (only that order's
        status) exactly when the answer is ok and not an auth error. */
    method HandleStatusChange(orderId: string, newStatus: string, store: Storage, toasts: ToastQueue,
                              now: nat, result: HttpResult)
      returns (request: StatusRequest)
      requires toasts.Valid()
      modifies this, store, toasts
      ensures toasts.Valid() && loading == old(loading)
      ensures |old(toasts.toasts)| <= |toasts.toasts|
      ensures toasts.pending == old(toasts.pending) + AddedIds(old(toasts.toasts), toasts.toasts)
      ensures request == StatusRequest(orderId, newStatus, Lookup(old(store.items), TokenKey))
      ensures result.Response? && !IsAuthError(result.status) && result.ok ==>
        orders == WithStatus(old(orders), orderId, newStatus)
        && toasts.toasts == old(toasts.toasts) + [Toast(now, StatusUpdatedMessage, SuccessKind)]
      ensures !(result.Response? && !IsAuthError(result.status) && result.ok) ==> orders == old(orders)
      ensures result.NetworkError? ==>
        toasts.toasts == old(toasts.toasts) + [Toast(now, UpdateFailedMessage, ErrorKind)]
      ensures result.Response? && IsAuthError(result.status) ==>
        store.items == AfterAuthError(old(store.items))
        && toasts.toasts == old(toasts.toasts) + [Toast(now, SessionExpiredMessage, ErrorKind)]
      ensures result.Response? && !IsAuthError(result.status) && !result.ok ==>
        toasts.toasts == old(toasts.toasts)
      ensures !(result.Response? && IsAuthError(result.status)) ==> store.items == old(store.items)
    {
      var token := store.GetItem(TokenKey);
      request := StatusRequest(orderId, newStatus, token);
      if result.NetworkError? {
        toasts.ShowToast(UpdateFailedMessage, Some(ErrorKind), now);
        return;
      }
      var handled := HandleAuthError(store, toasts, now, SessionExpiredMessage, result.status);
      if handled {
        return;
      }
      if result.ok {
        toasts.ShowToast(StatusUpdatedMessage, Some(SuccessKind), now);
        orders := WithStatus(orders, orderId, newStatus);
      }
    }
  }
}
