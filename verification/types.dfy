/**
 * The record shapes the cart works with (src/types.ts). Only the fields the cart
 * reads or writes are kept. Prices are whole numbers of cents.
 */
module Types {
  import opened Wrappers

  /** A price variant offered by a product (its `label` and `price`), referenced by value when it is added. */
  datatype SizeOption = SizeOption(sizeLabel: string, price: int)

  /** The catalog product as the cart sees it: `id`, `name`, `image_url?`, `base_price?`. */
  datatype Product = Product(id: string, name: string, imageUrl: Option<string>, basePrice: Option<int>)

  /** One line of the cart: a product, optionally in one size, with its quantity. */
  datatype CartItem = CartItem(
    productId: string,
    name: string,
    imageUrl: Option<string>,
    unitPrice: int,
    sizeLabel: Option<string>,
    quantity: int,
    subtotal: int)
}
