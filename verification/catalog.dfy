/** The product catalog as the cart and the storefront read it. Identifiers are
    opaque strings compared by equality; prices and stock are whole currency
    units and whole pieces. */
module Catalog {
  import opened Wrappers

  type ProductId = string
  type UserId = string

  /** A catalog product. `sizes` is absent for products that do not list sizes. */
  datatype Product = Product(
    name: string,
    price: nat,
    image: string,
    category: string,
    stock: nat,
    sizes: Option<seq<string>>)
}
