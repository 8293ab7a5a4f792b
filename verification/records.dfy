/**
 * The records the pages pass around. Prices are integers in minor currency
 * units (paise), so that line totals, subtotals and report sums are exact;
 * the tax percentage and the amounts derived from it are reals.
 */
module Records {
  import opened Outcomes

  /** A catalog item. `id` is the store's `_id`; it is absent on an item the
      item page has appended locally after an add, because the page keeps the
      submitted form values rather than the stored document. */
  datatype Item = Item(id: Option<string>, name: string, price: int, image: string, category: string)

  /** A cart record: the catalog item spread into a new object with a `quantity` field. */
  datatype LineItem = LineItem(item: Item, quantity: int)

  function Qty(li: LineItem): int
  {
    li.quantity
  }

  /** The extended price `price * quantity` of one line. */
  function LineTotal(li: LineItem): int
  {
    li.item.price * li.quantity
  }

  function NameOf(li: LineItem): string
  {
    li.item.name
  }

  /** The values offered by the payment-method select of the invoice form. */
  datatype PaymentMethod = Cash | Card | Upi

  /** A stored bill. `tax` is the tax AMOUNT (not the percentage); there is no
      stored subtotal. `date` and `createdAt` are stamped by the bill store.
      The constant `userId` placeholder the cart page sends with every bill is
      not modelled, since nothing reads it. */
  datatype Bill = Bill(
    customerName: string,
    customerPhoneNumber: string,
    totalAmount: real,
    tax: real,
    paymentMethod: PaymentMethod,
    cartItems: seq<LineItem>,
    date: int,
    createdAt: int)
}
