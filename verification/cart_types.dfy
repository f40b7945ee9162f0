/**
  The values the cart/order store of context/CartContext.js keeps: products
  as the screens hand them in, cart lines, shipping addresses and orders.
  Money is kept in integers: a product's unit price in cents and an order's
  total (which carries the 10% tax) in mills, tenths of a cent.
*/
module CartTypes {

  /** The source's `null`/absent value next to a present one. */
  datatype Option<T> = None | Some(value: T)

  /** A catalogue entry; `id` is the product id as it renders in a template string. */
  datatype Product = Product(id: string, name: string, price: nat, image: string)

  /** One cart line: one (product, size, color) variant and how many of it are in the cart. */
  datatype CartItem = CartItem(itemId: string, product: Product, size: string, color: string, quantity: int)

  /** The shipping details the checkout screen passes when it places an order. */
  datatype Address = Address(email: string, phone: string, street: string, paymentMethod: string)

  /** `Delivered` is shown by the screens but never produced by the store. */
  datatype Status = Processing | Shipped | Delivered

  /** A placed order: a value copy of the cart, the taxed total in mills, and its status. */
  datatype Order = Order(
    id: string,
    items: seq<CartItem>,
    total: int,
    date: string,
    status: Status,
    estimatedDelivery: string,
    address: Option<Address>)
}
