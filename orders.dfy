/** The record shapes the store's order API returns (rust/src/main.rs:21-37),
    and the Option/Result wrappers used for the source's failure paths. */
module Orders {

  datatype Option<+T> = None | Some(value: T)

  datatype Result<+T, +E> = Ok(value: T) | Err(error: E)

  /** One purchasable entry of an order; `price` is the decimal string the API sends. */
  datatype LineItem = LineItem(name: string, price: string)

  /** One order as fetched: its line items, its payment state and its subtotal,
      the subtotal being a decimal string such as "49.99". */
  datatype Order = Order(
    lineItems: seq<LineItem>,
    financialStatus: string,
    currentSubtotalPrice: string)
}
