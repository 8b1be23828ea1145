/** DiscoverySetPage: the customer fills five scent slots and adds one custom
    "Discovery Set" item, priced from the base product's first variant. */
module DiscoverySet {
  import opened Wrappers
  import opened Seqs
  import opened Text
  import opened Catalog
  import opened Cart
  import opened Toasts

  const BaseSetName: string := "Discovery Set"
  const SlotCount: nat := 5
  const EmptySlots: seq<string> := ["", "", "", "", ""]

  const LoadErrorMessage: string := "Ошибка загрузки данных"
  const BaseMissingMessage: string := "Товар \"Discovery Set\" не найден в базе!"
  const EmptySlotMessage: string := "Пожалуйста, выберите все 5 ароматов."
  const NoVariantsMessage: string := "У товара Discovery Set нет вариантов цены."
  const AddedMessage: string := "Набор пробников добавлен в корзину!"

  /** `k` is the index of the first product named exactly "Discovery Set". */
  predicate FirstBaseSetAt(data: seq<Product>, k: int)
  {
    0 <= k < |data| && data[k].name == BaseSetName
    && forall j :: 0 <= j < k ==> data[j].name != BaseSetName
  }

  /** `data.find(p => p.name === 'Discovery Set')`: the first product with exactly that name. */
  function FindBaseSet(data: seq<Product>): (r: Option<Product>)
    ensures r.None? <==> forall i :: 0 <= i < |data| ==> data[i].name != BaseSetName
    ensures r.Some? ==> exists k :: FirstBaseSetAt(data, k) && data[k] == r.value
  {
    var r := Find(data, (p: Product) => p.name == BaseSetName);
    assert r.Some? ==> exists k :: FirstBaseSetAt(data, k) && data[k] == r.value by {
      if r.Some? {
        var k :| FirstAt(data, (p: Product) => p.name == BaseSetName, k) && data[k] == r.value;
        assert FirstBaseSetAt(data, k);
      }
    }
    r
  }


  /** `data.filter(p => p.name !== 'Discovery Set' && !p.isHidden)`: the selectable scents. */
  function AvailableScents(data: seq<Product>): (r: seq<Product>)
    ensures |r| <= |data|
    ensures forall p :: p in r <==> p in data && p.name != BaseSetName && !p.isHidden
  {
    Filter(data, (p: Product) => p.name != BaseSetName && !p.isHidden)
  }


  /** `selections.some(s => s === '')`. */
  function HasEmptySlot(selections: seq<string>): (b: bool)
    ensures b <==> "" in selections
  {
    exists i :: 0 <= i < |selections| && selections[i] == ""
  }

  /** Where the name's slot list begins: after `"Discovery Set ("`. */
  const NameHead: nat := |BaseSetName| + 2
  /** What separates two scents in the name. */
  const Comma: string := ", "

  /** The custom name: `"Discovery Set ("`, the scents in slot order separated by `", "`, and
      `")"`. */
  function SetName(selections: seq<string>): (name: string)
    ensures NameHead < |name| && name[..NameHead] == BaseSetName + " (" && name[|name| - 1] == ')'
    ensures selections == [] ==> name == BaseSetName + " ()"
    ensures selections != [] ==>
      |name| == |BaseSetName| + 3 + LengthSum(selections) + 2 * (|selections| - 1)
    ensures forall i :: 0 <= i < |selections| ==> SlotAt(name, selections, i)
    ensures forall i :: 0 <= i < |selections| - 1 ==> CommaAfter(name, selections, i)
  {
    var joined := Join(selections, Comma);
    var name := BaseSetName + " (" + joined + ")";
    forall i | 0 <= i < |selections| ensures SlotAt(name, selections, i) {
      JoinPartAt(selections, Comma, i);
      InName(BaseSetName + " (", joined, name, PartStart(selections, Comma, i), selections[i]);
    }
    forall i | 0 <= i < |selections| - 1 ensures CommaAfter(name, selections, i) {
      JoinSepAt(selections, Comma, i);
      InName(BaseSetName + " (", joined, name, PartStart(selections, Comma, i) + |selections[i]|, Comma);
    }
    name
  }

  /** Scent `i` stands in the name at its place in the slot list. */
  ghost predicate SlotAt(name: string, selections: seq<string>, i: nat)
    requires i < |selections|
  {
    var a := NameHead + PartStart(selections, Comma, i);
    a + |selections[i]| < |name| && name[a..a + |selections[i]|] == selections[i]
  }

  /** Exactly `", "` follows scent `i` and precedes scent `i + 1`. */
  ghost predicate CommaAfter(name: string, selections: seq<string>, i: nat)
    requires i + 1 < |selections|
  {
    var a := NameHead + PartStart(selections, Comma, i) + |selections[i]|;
    a + |Comma| == NameHead + PartStart(selections, Comma, i + 1) && a + |Comma| < |name|
    && name[a..a + |Comma|] == Comma
  }

  /** A piece found at offset `a` of the slot list is found at `NameHead + a` of the name. */
  lemma InName(head: string, joined: string, name: string, a: nat, piece: string)
    requires |head| == NameHead && name == head + joined + ")"
    requires a + |piece| <= |joined| && joined[a..a + |piece|] == piece
    ensures NameHead + a + |piece| < |name| && name[NameHead + a..NameHead + a + |piece|] == piece
  {
    SliceOfWrapped(head, joined, ")", a, a + |piece|);
  }


  datatype SetError = BaseMissing | EmptySlot | NoVariants

  /** The error-toast text of each failed check; distinct checks give distinct texts. */
  function ErrorMessage(e: SetError): (r: string)
    ensures r != ""
    ensures r == BaseMissingMessage <==> e.BaseMissing?
    ensures r == EmptySlotMessage <==> e.EmptySlot?
    ensures r == NoVariantsMessage <==> e.NoVariants?
  {
    match e
    case BaseMissing => BaseMissingMessage
    case EmptySlot => EmptySlotMessage
    case NoVariants => NoVariantsMessage
  }

  /** The `cartItemId` of a set added at time `now`: the base id, a dash and the timestamp. */
  function SetCartItemId(base: Product, now: nat): (r: string)
    ensures |base.id| + 2 <= |r|
    ensures r[..|base.id| + 1] == base.id + "-"
    ensures forall i :: |base.id| + 1 <= i < |r| ==> '0' <= r[i] <= '9'
    ensures DigitsValue(r[|base.id| + 1..]) == now
    ensures r[|base.id| + 1] == '0' ==> now == 0
    ensures r[|base.id| + 1..] == NatToString(now)
  {
    var digits := NatToString(now);
    var r := base.id + "-" + digits;
    assert r[|base.id| + 1..] == digits;
    r
  }

  /** The validation chain and item construction of `handleAddToCart`, checks in the order `handleAddToCart` runs them:
      the base product, then the slots, then the base product's first variant. */
  function BuildSetItem(base: Option<Product>, selections: seq<string>, now: nat): (r: Result<ItemToAdd, SetError>)
    ensures base.None? ==> r == Err(BaseMissing)
    ensures base.Some? && HasEmptySlot(selections) ==> r == Err(EmptySlot)
    ensures base.Some? && !HasEmptySlot(selections) && base.value.variants == [] ==> r == Err(NoVariants)
    ensures r.Ok? <==> base.Some? && !HasEmptySlot(selections) && base.value.variants != []
    ensures r.Ok? ==>
      var v := base.value.variants[0];
      r.value.id == base.value.id && r.value.name == SetName(selections)
      && r.value.cartItemId == SetCartItemId(base.value, now)
      && r.value.size == v.size && r.value.price == v.price && r.value.image == v.image
      && r.value.quantity == Some(1)
  {
    if base.None? then Err(BaseMissing)
    else if HasEmptySlot(selections) then Err(EmptySlot)
    else if base.value.variants == [] then Err(NoVariants)
    else
      var v := base.value.variants[0];
      Ok(ItemToAdd(SetCartItemId(base.value, now), base.value.id, SetName(selections),
                   v.size, v.price, v.image, Some(1)))
  }

  /** Non-emptiness is the only slot check: one scent in all five slots is accepted. */
  lemma RepeatedScentAccepted(base: Product, scent: string, now: nat)
    requires base.variants != [] && scent != ""
    ensures BuildSetItem(Some(base), [scent, scent, scent, scent, scent], now).Ok?
  {
    var slots := [scent, scent, scent, scent, scent];
    assert !HasEmptySlot(slots);
  }

  /** Sets added at different times get different `cartItemId`s, yet the cart merges on the
      product id: the second set only raises the first set's quantity, and its scents are lost. */
  lemma DifferentSetsShareOneLine(lines: seq<CartLine>, base: Product,
                                  first: seq<string>, second: seq<string>, t1: nat, t2: nat)
    requires !HasId(lines, base.id)
    requires BuildSetItem(Some(base), first, t1).Ok? && BuildSetItem(Some(base), second, t2).Ok?
    ensures t1 != t2 ==>
      BuildSetItem(Some(base), first, t1).value.cartItemId != BuildSetItem(Some(base), second, t2).value.cartItemId
    ensures
      var a, b := BuildSetItem(Some(base), first, t1).value, BuildSetItem(Some(base), second, t2).value;
      AddLine(AddLine(lines, a), b) == lines + [NewLine(a).(quantity := 2)]
      && NewLine(a).name == SetName(first)
  {
    var a, b := BuildSetItem(Some(base), first, t1).value, BuildSetItem(Some(base), second, t2).value;
    SameIdCollapses(lines, a, b);
  }

  class DiscoverySetPage {
    var allProducts: seq<Product>
    var baseSetProduct: Option<Product>
    var loading: bool
    var selections: seq<string>

    /** There are always exactly five slots. */
    ghost predicate Valid()
      reads this
    {
      |selections| == SlotCount
    }

    constructor ()
      ensures Valid() && selections == EmptySlots
      ensures allProducts == [] && baseSetProduct == None && loading
    {
      allProducts := [];
      baseSetProduct := None;
      loading := true;
      selections := EmptySlots;
    }

    /** `fetchData`: the base product is set only when one is found; the scents are replaced;
        a failed load shows an error toast. `loading` ends either way. */
    method FetchData(toasts: ToastQueue, now: nat, response: Option<seq<Product>>)
      requires toasts.Valid()
      modifies this, toasts
      ensures toasts.Valid() && !loading && selections == old(selections)
      ensures |old(toasts.toasts)| <= |toasts.toasts|
      ensures toasts.pending == old(toasts.pending) + AddedIds(old(toasts.toasts), toasts.toasts)
      ensures response.None? ==>
        allProducts == old(allProducts) && baseSetProduct == old(baseSetProduct)
        && toasts.toasts == old(toasts.toasts) + [Toast(now, LoadErrorMessage, ErrorKind)]
      ensures response.Some? ==>
        allProducts == AvailableScents(response.value) && toasts.toasts == old(toasts.toasts)
        && baseSetProduct == (if FindBaseSet(response.value).Some? then FindBaseSet(response.value)
                              else old(baseSetProduct))
    {
      if response.None? {
        toasts.ShowToast(LoadErrorMessage, Some(ErrorKind), now);
      } else {
        var setProduct := FindBaseSet(response.value);
        var availableScents := AvailableScents(response.value);
        if setProduct.Some? {
          baseSetProduct := setProduct;
        }
        allProducts := availableScents;
      }
      loading := false;
    }

    /** `handleSelectChange(index, value)`: slot `index` takes `value`, the others keep theirs. */
    method HandleSelectChange(index: nat, value: string)
      requires Valid() && index < |selections|
      modifies this
      ensures Valid()
      ensures selections == old(selections)[index := value]
      ensures allProducts == old(allProducts) && baseSetProduct == old(baseSetProduct)
      ensures loading == old(loading)
    {
      var newSelections := selections;
      newSelections := newSelections[index := value];
      selections := newSelections;
    }

    /** `handleAddToCart`: on a failed check an error toast and no cart change; otherwise
        the built item goes to `addToCart` and a success toast follows. */
    method HandleAddToCart(cart: CartStore, toasts: ToastQueue, now: nat, toastNow: nat)
      requires cart.Valid() && toasts.Valid()
      modifies cart, toasts
      ensures cart.Valid() && toasts.Valid()
      ensures |old(toasts.toasts)| <= |toasts.toasts|
      ensures toasts.pending == old(toasts.pending) + AddedIds(old(toasts.toasts), toasts.toasts)
      ensures var r := BuildSetItem(baseSetProduct, selections, now);
              r.Err? ==>
                cart.cartItems == old(cart.cartItems)
                && toasts.toasts == old(toasts.toasts) + [Toast(toastNow, ErrorMessage(r.error), ErrorKind)]
      ensures var r := BuildSetItem(baseSetProduct, selections, now);
              r.Ok? ==>
                cart.cartItems == AddLine(old(cart.cartItems), r.value)
                && toasts.toasts == old(toasts.toasts) + [Toast(toastNow, AddedMessage, SuccessKind)]
    {
      var r := BuildSetItem(baseSetProduct, selections, now);
      AddBuiltSet(cart, toasts, r, toastNow);
    }
  }

  /** The second half of `handleAddToCart`, once the item is built or refused: an error
      toast and no cart change, or `addToCart` followed by the success toast. */
  method AddBuiltSet(cart: CartStore, toasts: ToastQueue, r: Result<ItemToAdd, SetError>, toastNow: nat)
    requires cart.Valid() && toasts.Valid()
    modifies cart, toasts
    ensures cart.Valid() && toasts.Valid()
    ensures |old(toasts.toasts)| <= |toasts.toasts|
    ensures toasts.pending == old(toasts.pending) + AddedIds(old(toasts.toasts), toasts.toasts)
    ensures r.Err? ==>
              cart.cartItems == old(cart.cartItems)
              && toasts.toasts == old(toasts.toasts) + [Toast(toastNow, ErrorMessage(r.error), ErrorKind)]
    ensures r.Ok? ==>
              cart.cartItems == AddLine(old(cart.cartItems), r.value)
              && toasts.toasts == old(toasts.toasts) + [Toast(toastNow, AddedMessage, SuccessKind)]
  {
    if r.Err? {
      toasts.ShowToast(ErrorMessage(r.error), Some(ErrorKind), toastNow);
      return;
    }
    cart.AddToCart(r.value);
    toasts.ShowToast(AddedMessage, Some(SuccessKind), toastNow);
  }
}
