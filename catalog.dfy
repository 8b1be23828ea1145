/** Product records as the storefront's API returns them. The MongoDB `_id`
    is the field `id`; sizes and stock are whole millilitres; prices are exact reals. */
module Catalog {
  import opened Wrappers

  datatype Variant = Variant(size: nat, price: real, image: string)

  /** An entry of `similarProducts`: a bare id, or a populated product object of which only `_id` is read. */
  datatype SimilarEntry = PlainId(id: string) | Populated(productId: string)

  datatype Product = Product(
    id: string,
    name: string,
    variants: seq<Variant>,
    totalStockMl: int,
    isHidden: bool,
    baseDescription: string,
    similarProducts: Option<seq<SimilarEntry>>)
}
