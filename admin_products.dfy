/** AdminProductsPage: the cross-sell selection editor, the in-place price
    editor, and the confirm handlers of the page's modals. Each handler turns
    the product held by its modal into one request (requests are returned,
    not sent) and clears that modal in its `finally` block. */
module AdminProducts {
  import opened Wrappers
  import opened Seqs
  import opened Catalog
  import opened BrowserStorage
  import opened Toasts
  import opened AdminAuth

  const SessionExpiredMessage: string := "Session expired. Please log in again."
  const PhotoUpdatedMessage: string := "Photo updated!"
  const PhotoErrorMessage: string := "Error loading photo"
  const SimilarUpdatedMessage: string := "Recommendations updated!"
  const GenericErrorMessage: string := "Error"
  const VisibilityMessage: string := "Visibility updated"
  const DeletedMessage: string := "Deleted"
  const RestockedMessage: string := "Stock replenished"
  const PricesMessage: string := "Prices updated"
  const DescriptionMessage: string := "Description updated"

  /** The toast of a handler that does not look at the answer: its success message once the
      request went out, the generic error when `fetch` threw. */
  function SentToast(thrown: bool, now: nat, success: string): (t: Toast)
    ensures t.id == now
    ensures t.kind == ErrorKind <==> thrown
    ensures t.message == (if thrown then GenericErrorMessage else success)
  {
    if thrown then Toast(now, GenericErrorMessage, ErrorKind) else Toast(now, success, SuccessKind)
  }

  /** `(p && typeof p === 'object') ? p._id : p` for one entry. */
  function EntryId(e: SimilarEntry): string
  {
    match e
    case PlainId(id) => id
    case Populated(productId) => productId
  }

  /** The ids `EditSimilarModal` starts from: populated entries give their `_id`, plain ids stay. */
  function SimilarIds(entries: seq<SimilarEntry>): (ids: seq<string>)
    ensures |ids| == |entries|
    ensures forall i :: 0 <= i < |entries| && entries[i].PlainId? ==> ids[i] == entries[i].id
    ensures forall i :: 0 <= i < |entries| && entries[i].Populated? ==> ids[i] == entries[i].productId
  {
    seq(|entries|, i requires 0 <= i < |entries| => EntryId(entries[i]))
  }

  /** The modal's effect when its product changes: the selection is reloaded only from a
      product that has `similarProducts`; otherwise the previous selection stays. */
  function LoadedSelection(previous: seq<string>, product: Option<Product>): (r: seq<string>)
    ensures product.Some? && product.value.similarProducts.Some? ==>
      r == SimilarIds(product.value.similarProducts.value)
    ensures product.None? || product.value.similarProducts.None? ==> r == previous
  {
    if product.Some? && product.value.similarProducts.Some? then
      SimilarIds(product.value.similarProducts.value)
    else previous
  }

  /** `prev.filter(pId => pId !== id)`. */
  function RemoveId(ids: seq<string>, id: string): (r: seq<string>)
    ensures |r| <= |ids|
    ensures forall x :: x in r <==> x in ids && x != id
  {
    Filter(ids, (x: string) => x != id)
  }


  lemma RemoveIdAbsent(ids: seq<string>, id: string)
    requires id !in ids
    ensures RemoveId(ids, id) == ids
  {
    FilterAllKept(ids, (x: string) => x != id);
  }


  lemma RemoveIdConcat(a: seq<string>, b: seq<string>, id: string)
    ensures RemoveId(a + b, id) == RemoveId(a, id) + RemoveId(b, id)
  {
    FilterConcat(a, b, (x: string) => x != id);
  }


  /** `toggleSelection(id)`: a selected id is dropped (every copy of it), an unselected one
      is appended at the end. */
  function ToggleSelection(selected: seq<string>, id: string): (r: seq<string>)
    ensures id in r <==> id !in selected
    ensures forall x :: x != id ==> (x in r <==> x in selected)
    ensures id !in selected ==> r == selected + [id]
    ensures id in selected ==> r == RemoveId(selected, id)
  {
    if id in selected then RemoveId(selected, id) else selected + [id]
  }

  /** Selecting an id and deselecting it again gives back the original list. */
  lemma ToggleTwiceRestores(selected: seq<string>, id: string)
    requires id !in selected
    ensures ToggleSelection(ToggleSelection(selected, id), id) == selected
  {
    RemoveIdConcat(selected, [id], id);
    RemoveIdAbsent(selected, id);
    assert RemoveId([id], id) == RemoveId([], id) == [];
  }

  /** `allProducts.filter(p => p._id !== product._id)`: the product being edited is never
      offered as its own cross-sell. */
  function CrossSellCandidates(all: seq<Product>, product: Product): (r: seq<Product>)
    ensures |r| <= |all|
    ensures forall q :: q in r <==> q in all && q.id != product.id
  {
    Filter(all, (q: Product) => q.id != product.id)
  }


  /** The variants after `handlePriceChange(index, newPrice)`. */
  function WithPrice(variants: seq<Variant>, index: nat, price: real): (r: seq<Variant>)
    requires index < |variants|
    ensures |r| == |variants|
    ensures r[index].price == price
    ensures r[index].size == variants[index].size && r[index].image == variants[index].image
    ensures forall j :: 0 <= j < |variants| && j != index ==> r[j] == variants[j]
  {
    variants[index := variants[index].(price := price)]
  }

  /** `EditPriceModal`'s `editedVariants`: a copy of the product's variants, edited in place. */
  class PriceEditor {
    var editedVariants: array<Variant>

    constructor (product: Product)
      ensures fresh(editedVariants) && editedVariants[..] == product.variants
    {
      editedVariants := new Variant[|product.variants|](i requires 0 <= i < |product.variants| => product.variants[i]);
    }

    /** `handlePriceChange(index, newPrice)`: sets the price of variant `index` only. */
    method HandlePriceChange(index: nat, newPrice: real)
      requires index < editedVariants.Length
      modifies editedVariants
      ensures editedVariants[..] == WithPrice(old(editedVariants[..]), index, newPrice)
    {
      editedVariants[index] := editedVariants[index].(price := newPrice);
    }
  }

  datatype Modal = DeleteModal | RestockModal | PriceModal | DescriptionModal | ImageModal | SimilarModal

  datatype PatchBody =
    | HiddenPatch(isHidden: bool)
    | StockPatch(totalStockMl: int)
    | VariantsPatch(variants: seq<Variant>)
    | DescriptionPatch(baseDescription: string)
    | ImagesPatch(files: map<nat, string>, variants: seq<Variant>)
    | SimilarPatch(similarIds: seq<string>)

  /** A product request with the `Bearer` token as read from storage just before it is sent.
      None of these handlers checks the token, so an absent one is sent as `Bearer null`. */
  datatype Request = Patch(productId: string, body: PatchBody, token: Option<string>)
                   | Delete(productId: string, token: Option<string>)

  /** `toggleVisibility(id, currentStatus)`: the PATCH that flips the product's visibility. */
  function VisibilityRequest(id: string, currentStatus: bool, token: Option<string>): (r: Request)
    ensures r.Patch? && r.productId == id && r.body.HiddenPatch? && r.token == token
    ensures r.body.isHidden != currentStatus
  {
    Patch(id, HiddenPatch(!currentStatus), token)
  }

  /** The page's modal targets (`productToDelete`, `productToRestock`, ...): a modal is open
      exactly when it holds a product. */
  class AdminProductsPage {
    var targets: map<Modal, Product>

    constructor ()
      ensures targets == map[]
    {
      targets := map[];
    }

    /** A row's button sets its modal's product. */
    method Open(modal: Modal, product: Product)
      modifies this
      ensures targets == old(targets)[modal := product]
    {
      targets := targets[modal := product];
    }

    /** A modal's cancel button clears its product. */
    method Cancel(modal: Modal)
      modifies this
      ensures targets == old(targets) - {modal}
    {
      targets := targets - {modal};
    }

    /** `toggleVisibility(id, currentStatus)`: the PATCH goes out and its toast follows; no
        modal is involved. */
    method ToggleVisibility(id: string, currentStatus: bool, thrown: bool, store: Storage, toasts: ToastQueue, now: nat)
      returns (request: Request)
      requires toasts.Valid()
      modifies toasts
      ensures toasts.Valid()
      ensures |old(toasts.toasts)| <= |toasts.toasts|
      ensures toasts.pending == old(toasts.pending) + AddedIds(old(toasts.toasts), toasts.toasts)
      ensures request == VisibilityRequest(id, currentStatus, Lookup(old(store.items), TokenKey))
      ensures toasts.toasts == old(toasts.toasts) + [SentToast(thrown, now, VisibilityMessage)]
    {
      var token := store.GetItem(TokenKey);
      request := VisibilityRequest(id, currentStatus, token);
      var t := SentToast(thrown, now, VisibilityMessage);
      toasts.ShowToast(t.message, Some(t.kind), now);
    }

    /** `handleConfirmDelete`. */
    method ConfirmDelete(thrown: bool, store: Storage, toasts: ToastQueue, now: nat) returns (request: Option<Request>)
      requires toasts.Valid()
      modifies this, toasts
      ensures toasts.Valid()
      ensures |old(toasts.toasts)| <= |toasts.toasts|
      ensures toasts.pending == old(toasts.pending) + AddedIds(old(toasts.toasts), toasts.toasts)
      ensures DeleteModal !in old(targets) ==>
        request == None && targets == old(targets) && toasts.toasts == old(toasts.toasts)
      ensures DeleteModal in old(targets) ==>
        request == Some(Delete(old(targets)[DeleteModal].id, Lookup(old(store.items), TokenKey)))
        && targets == old(targets) - {DeleteModal}
        && toasts.toasts == old(toasts.toasts) + [SentToast(thrown, now, DeletedMessage)]
    {
      if DeleteModal !in targets {
        return None;
      }
      var token := store.GetItem(TokenKey);
      request := Some(Delete(targets[DeleteModal].id, token));
      var t := SentToast(thrown, now, DeletedMessage);
      toasts.ShowToast(t.message, Some(t.kind), now);
      targets := targets - {DeleteModal};
    }

    /** `handleConfirmRestock(val)`: the new stock is the current stock plus the amount entered. */
    method ConfirmRestock(amount: int, thrown: bool, store: Storage, toasts: ToastQueue, now: nat) returns (request: Option<Request>)
      requires toasts.Valid()
      modifies this, toasts
      ensures toasts.Valid()
      ensures |old(toasts.toasts)| <= |toasts.toasts|
      ensures toasts.pending == old(toasts.pending) + AddedIds(old(toasts.toasts), toasts.toasts)
      ensures RestockModal !in old(targets) ==>
        request == None && targets == old(targets) && toasts.toasts == old(toasts.toasts)
      ensures RestockModal in old(targets) ==>
        var p := old(targets)[RestockModal];
        request == Some(Patch(p.id, StockPatch(p.totalStockMl + amount), Lookup(old(store.items), TokenKey)))
        && targets == old(targets) - {RestockModal}
        && toasts.toasts == old(toasts.toasts) + [SentToast(thrown, now, RestockedMessage)]
    {
      if RestockModal !in targets {
        return None;
      }
      var p := targets[RestockModal];
      var newTotal := p.totalStockMl + amount;
      var token := store.GetItem(TokenKey);
      request := Some(Patch(p.id, StockPatch(newTotal), token));
      var t := SentToast(thrown, now, RestockedMessage);
      toasts.ShowToast(t.message, Some(t.kind), now);
      targets := targets - {RestockModal};
    }

    /** `handleConfirmPriceEdit(vars)`: sends the edited variants as they are. */
    method ConfirmPriceEdit(variants: seq<Variant>, thrown: bool, store: Storage, toasts: ToastQueue, now: nat) returns (request: Option<Request>)
      requires toasts.Valid()
      modifies this, toasts
      ensures toasts.Valid()
      ensures |old(toasts.toasts)| <= |toasts.toasts|
      ensures toasts.pending == old(toasts.pending) + AddedIds(old(toasts.toasts), toasts.toasts)
      ensures PriceModal !in old(targets) ==>
        request == None && targets == old(targets) && toasts.toasts == old(toasts.toasts)
      ensures PriceModal in old(targets) ==>
        request == Some(Patch(old(targets)[PriceModal].id, VariantsPatch(variants), Lookup(old(store.items), TokenKey)))
        && targets == old(targets) - {PriceModal}
        && toasts.toasts == old(toasts.toasts) + [SentToast(thrown, now, PricesMessage)]
    {
      if PriceModal !in targets {
        return None;
      }
      var token := store.GetItem(TokenKey);
      request := Some(Patch(targets[PriceModal].id, VariantsPatch(variants), token));
      var t := SentToast(thrown, now, PricesMessage);
      toasts.ShowToast(t.message, Some(t.kind), now);
      targets := targets - {PriceModal};
    }

    /** `handleConfirmDescriptionEdit(desc)`. */
    method ConfirmDescriptionEdit(description: string, thrown: bool, store: Storage, toasts: ToastQueue, now: nat) returns (request: Option<Request>)
      requires toasts.Valid()
      modifies this, toasts
      ensures toasts.Valid()
      ensures |old(toasts.toasts)| <= |toasts.toasts|
      ensures toasts.pending == old(toasts.pending) + AddedIds(old(toasts.toasts), toasts.toasts)
      ensures DescriptionModal !in old(targets) ==>
        request == None && targets == old(targets) && toasts.toasts == old(toasts.toasts)
      ensures DescriptionModal in old(targets) ==>
        request == Some(Patch(old(targets)[DescriptionModal].id, DescriptionPatch(description), Lookup(old(store.items), TokenKey)))
        && targets == old(targets) - {DescriptionModal}
        && toasts.toasts == old(toasts.toasts) + [SentToast(thrown, now, DescriptionMessage)]
    {
      if DescriptionModal !in targets {
        return None;
      }
      var token := store.GetItem(TokenKey);
      request := Some(Patch(targets[DescriptionModal].id, DescriptionPatch(description), token));
      var t := SentToast(thrown, now, DescriptionMessage);
      toasts.ShowToast(t.message, Some(t.kind), now);
      targets := targets - {DescriptionModal};
    }

    /** `handleConfirmImageEdit(newImagesMap)`: no chosen file closes the modal without a
        request; otherwise the files and the current variants are sent. A throw shows the
        photo error, a 401/403 goes through `handleAuthError`, an ok answer shows the success
        toast, and any other answer shows nothing. The modal closes on every path. */
    method ConfirmImageEdit(newImages: map<nat, string>, result: HttpResult,
                            store: Storage, toasts: ToastQueue, now: nat)
      returns (request: Option<Request>)
      requires toasts.Valid()
      modifies this, store, toasts
      ensures toasts.Valid()
      ensures |old(toasts.toasts)| <= |toasts.toasts|
      ensures toasts.pending == old(toasts.pending) + AddedIds(old(toasts.toasts), toasts.toasts)
      ensures ImageModal !in old(targets) ==> request == None && targets == old(targets)
      ensures ImageModal in old(targets) ==> targets == old(targets) - {ImageModal}
      ensures ImageModal in old(targets) && |newImages| > 0 ==>
        var p := old(targets)[ImageModal];
        request == Some(Patch(p.id, ImagesPatch(newImages, p.variants), Lookup(old(store.items), TokenKey)))
      ensures ImageModal in old(targets) && |newImages| == 0 ==> request == None
      ensures request.None? ==> store.items == old(store.items) && toasts.toasts == old(toasts.toasts)
      ensures request.Some? && result.NetworkError? ==>
        store.items == old(store.items)
        && toasts.toasts == old(toasts.toasts) + [Toast(now, PhotoErrorMessage, ErrorKind)]
      ensures request.Some? && result.Response? && IsAuthError(result.status) ==>
        store.items == AfterAuthError(old(store.items))
        && toasts.toasts == old(toasts.toasts) + [Toast(now, SessionExpiredMessage, ErrorKind)]
      ensures request.Some? && result.Response? && !IsAuthError(result.status) ==>
        store.items == old(store.items)
        && toasts.toasts == old(toasts.toasts)
                            + (if result.ok then [Toast(now, PhotoUpdatedMessage, SuccessKind)] else [])
    {
      if ImageModal !in targets {
        return None;
      }
      if |newImages| == 0 {
        targets := targets - {ImageModal};
        return None;
      }
      var p := targets[ImageModal];
      var token := store.GetItem(TokenKey);
      request := Some(Patch(p.id, ImagesPatch(newImages, p.variants), token));
      if result.NetworkError? {
        toasts.ShowToast(PhotoErrorMessage, Some(ErrorKind), now);
      } else {
        var handled := HandleAuthError(store, toasts, now, SessionExpiredMessage, result.status);
        if !handled && result.ok {
          toasts.ShowToast(PhotoUpdatedMessage, Some(SuccessKind), now);
        }
      }
      targets := targets - {ImageModal};
    }

    /** `handleConfirmSimilarEdit(similarIds)`: the selected ids are sent. A throw shows the
        generic error, a 401/403 goes through `handleAuthError`, an ok answer shows the success
        toast, and any other answer shows nothing. The modal closes on every path. */
    method ConfirmSimilarEdit(similarIds: seq<string>, result: HttpResult,
                              store: Storage, toasts: ToastQueue, now: nat)
      returns (request: Option<Request>)
      requires toasts.Valid()
      modifies this, store, toasts
      ensures toasts.Valid()
      ensures |old(toasts.toasts)| <= |toasts.toasts|
      ensures toasts.pending == old(toasts.pending) + AddedIds(old(toasts.toasts), toasts.toasts)
      ensures SimilarModal !in old(targets) ==> request == None && targets == old(targets)
      ensures SimilarModal in old(targets) ==>
        request == Some(Patch(old(targets)[SimilarModal].id, SimilarPatch(similarIds), Lookup(old(store.items), TokenKey)))
        && targets == old(targets) - {SimilarModal}
      ensures request.None? ==> store.items == old(store.items) && toasts.toasts == old(toasts.toasts)
      ensures request.Some? && result.NetworkError? ==>
        store.items == old(store.items)
        && toasts.toasts == old(toasts.toasts) + [Toast(now, GenericErrorMessage, ErrorKind)]
      ensures request.Some? && result.Response? && IsAuthError(result.status) ==>
        store.items == AfterAuthError(old(store.items))
        && toasts.toasts == old(toasts.toasts) + [Toast(now, SessionExpiredMessage, ErrorKind)]
      ensures request.Some? && result.Response? && !IsAuthError(result.status) ==>
        store.items == old(store.items)
        && toasts.toasts == old(toasts.toasts)
                            + (if result.ok then [Toast(now, SimilarUpdatedMessage, SuccessKind)] else [])
    {
      if SimilarModal !in targets {
        return None;
      }
      var token := store.GetItem(TokenKey);
      request := Some(Patch(targets[SimilarModal].id, SimilarPatch(similarIds), token));
      if result.NetworkError? {
        toasts.ShowToast(GenericErrorMessage, Some(ErrorKind), now);
      } else {
        var handled := HandleAuthError(store, toasts, now, SessionExpiredMessage, result.status);
        if !handled && result.ok {
          toasts.ShowToast(SimilarUpdatedMessage, Some(SuccessKind), now);
        }
      }
      targets := targets - {SimilarModal};
    }
  }
}
