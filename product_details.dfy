/** ProductDetailsPage: finds the routed product in the catalogue, selects its
    first variant, and adds the selected variant to the cart. */
module ProductDetails {
  import opened Wrappers
  import opened Seqs
  import opened Text
  import opened Catalog
  import opened Cart

  /** `k` is the index of the first product whose `_id` is `productId`. */
  predicate FirstWithIdAt(products: seq<Product>, productId: string, k: int)
  {
    0 <= k < |products| && products[k].id == productId
    && forall j :: 0 <= j < k ==> products[j].id != productId
  }

  /** `products.find(p => p._id === productId)`. */
  function FindProduct(products: seq<Product>, productId: string): (r: Option<Product>)
    ensures r.None? <==> forall i :: 0 <= i < |products| ==> products[i].id != productId
    ensures r.Some? ==> exists k :: FirstWithIdAt(products, productId, k) && products[k] == r.value
  {
    var r := Find(products, (p: Product) => p.id == productId);
    assert r.Some? ==> exists k :: FirstWithIdAt(products, productId, k) && products[k] == r.value by {
      if r.Some? {
        var k :| FirstAt(products, (p: Product) => p.id == productId, k) && products[k] == r.value;
        assert FirstWithIdAt(products, productId, k);
      }
    }
    r
  }


  /** `product.variants[0]`, which is `undefined` for a product without variants. */
  function FirstVariant(p: Product): (v: Option<Variant>)
    ensures v.Some? <==> p.variants != []
    ensures v.Some? ==> v.value == p.variants[0]
  {
    if p.variants == [] then None else Some(p.variants[0])
  }

  /** `${product._id}-${selectedVariant.size}ml`. */
  function CartItemId(p: Product, v: Variant): (r: string)
    ensures |p.id| + 4 <= |r|
    ensures r[..|p.id| + 1] == p.id + "-" && r[|r| - 2..] == "ml"
    ensures forall i :: |p.id| + 1 <= i < |r| - 2 ==> '0' <= r[i] <= '9'
    ensures DigitsValue(r[|p.id| + 1..|r| - 2]) == v.size
    ensures r[|p.id| + 1] == '0' ==> v.size == 0
    ensures r[|p.id| + 1..|r| - 2] == NatToString(v.size)
  {
    var head := p.id + "-";
    var digits := NatToString(v.size);
    var r := head + digits + "ml";
    assert r[..|head|] == head;
    assert r[|head|..|r| - 2] == digits;
    assert r[|r| - 2..] == "ml";
    assert r[|head|] == digits[0];
    r
  }

  /** The `itemToAdd` of `handleAddToCart`: the product's id and name, the variant's
      size, price and image, and no quantity. */
  function ItemFor(p: Product, v: Variant): (item: ItemToAdd)
    ensures item.id == p.id && item.name == p.name && item.cartItemId == CartItemId(p, v)
    ensures item.size == v.size && item.price == v.price && item.image == v.image
    ensures item.quantity.None?
  {
    ItemToAdd(CartItemId(p, v), p.id, p.name, v.size, v.price, v.image, None)
  }

  /** A variant button is highlighted when its size is the selected variant's size. */
  predicate IsActive(v: Variant, selected: Variant): (r: bool)
    ensures v == selected ==> r
    ensures r <==> v.size == selected.size
  {
    v.size == selected.size
  }

  /** With distinct sizes, exactly the selected variant's button is highlighted. */
  lemma ActiveButtonIsSelected(variants: seq<Variant>, k: nat)
    requires k < |variants|
    requires forall i, j :: 0 <= i < j < |variants| ==> variants[i].size != variants[j].size
    ensures forall i :: 0 <= i < |variants| ==> (IsActive(variants[i], variants[k]) <==> i == k)
  {
    forall i | 0 <= i < |variants| && i != k ensures !IsActive(variants[i], variants[k]) {
      if i < k {
        assert variants[i].size != variants[k].size;
      } else {
        assert variants[k].size != variants[i].size;
      }
    }
  }

  /** Different sizes give different `cartItemId`s... */
  lemma CartItemIdsDiffer(p: Product, v1: Variant, v2: Variant)
    requires v1.size != v2.size
    ensures CartItemId(p, v1) != CartItemId(p, v2)
  {
  }

  /** ...yet adding two sizes of one product yields a single cart line that keeps the first
      size, price and `cartItemId`, with quantity 2. */
  lemma TwoSizesShareOneLine(lines: seq<CartLine>, p: Product, v1: Variant, v2: Variant)
    requires !HasId(lines, p.id)
    ensures AddLine(AddLine(lines, ItemFor(p, v1)), ItemFor(p, v2))
         == lines + [CartLine(CartItemId(p, v1), p.id, p.name, v1.size, v1.price, v1.image, 2)]
  {
    SameIdCollapses(lines, ItemFor(p, v1), ItemFor(p, v2));
  }

  datatype View = LoadingView | NotFoundView | DetailsView

  class ProductDetailsPage {
    var product: Option<Product>
    var selectedVariant: Option<Variant>
    var loading: bool

    constructor ()
      ensures product == None && selectedVariant == None && loading
    {
      product := None;
      selectedVariant := None;
      loading := true;
    }

    /** The loading view shows first; the not-found view shows whenever loading is over
        without a product and a variant. */
    function View(): (v: View)
      reads this
      ensures v == LoadingView <==> loading
      ensures v == NotFoundView <==> !loading && (product.None? || selectedVariant.None?)
    {
      if loading then LoadingView
      else if product.None? || selectedVariant.None? then NotFoundView
      else DetailsView
    }

    /** `fetchProductDetails`: `None` stands for a response that is not ok or a thrown error.
        The product is set only when one has the routed id. */
    method FetchProductDetails(productId: string, response: Option<seq<Product>>)
      modifies this
      ensures !loading && selectedVariant == old(selectedVariant)
      ensures response.Some? && FindProduct(response.value, productId).Some? ==>
        product == FindProduct(response.value, productId)
      ensures response.None? || FindProduct(response.value, productId).None? ==> product == old(product)
    {
      loading := true;
      if response.Some? {
        var foundProduct := FindProduct(response.value, productId);
        if foundProduct.Some? {
          product := foundProduct;
        }
      }
      loading := false;
    }

    /** The effect on `product`: once loaded, its first variant becomes the selection. */
    method SelectDefaultVariant()
      modifies this
      ensures product == old(product) && loading == old(loading)
      ensures product.Some? ==> selectedVariant == FirstVariant(product.value)
      ensures product.None? ==> selectedVariant == old(selectedVariant)
    {
      if product.Some? {
        selectedVariant := FirstVariant(product.value);
      }
    }

    /** `handleVariantClick(variant)`. */
    method HandleVariantClick(variant: Variant)
      modifies this
      ensures selectedVariant == Some(variant)
      ensures product == old(product) && loading == old(loading)
    {
      selectedVariant := Some(variant);
    }

    /** `handleAddToCart`: nothing without a product and a selected variant; otherwise the
        selected variant of the product is passed to `addToCart`. */
    method HandleAddToCart(cart: CartStore)
      requires cart.Valid()
      modifies cart
      ensures cart.Valid()
      ensures product.None? || selectedVariant.None? ==> cart.cartItems == old(cart.cartItems)
      ensures product.Some? && selectedVariant.Some? ==>
        cart.cartItems == AddLine(old(cart.cartItems), ItemFor(product.value, selectedVariant.value))
    {
      if product.None? || selectedVariant.None? {
        return;
      }
      cart.AddToCart(ItemFor(product.value, selectedVariant.value));
    }
  }
}
