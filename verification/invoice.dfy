/**
 * The cart page: the running subtotal, the quantity buttons, creating the
 * bill from the invoice form, and the printed invoice.
 *
 * Amounts stay exact: line totals and the subtotal are integers in minor
 * units; the tax percentage, the tax amount and the total are reals.
 */
module Invoice {
  import opened Outcomes
  import opened Seqs
  import opened Records

  /** The cart's subtotal, the sum of `price * quantity` over its records,
      accumulated from 0. */
  function Subtotal(cart: seq<LineItem>): (r: int)
    ensures |cart| == 0 ==> r == 0
    ensures (forall k :: 0 <= k < |cart| ==> cart[k].item.price >= 0 && cart[k].quantity >= 0) ==> r >= 0
  {
    SumNonNegative(cart, LineTotal);
    Sum(cart, LineTotal)
  }

  /** Adding records to the cart adds their line totals to the subtotal; an empty cart's is 0. */
  lemma SubtotalSplits(a: seq<LineItem>, b: seq<LineItem>)
    ensures Subtotal(a + b) == Subtotal(a) + Subtotal(b)
    ensures Subtotal([]) == 0
  {
    SumAppend(a, b, LineTotal);
  }

  /** The subtotal does not depend on the order of the cart's records. */
  lemma SubtotalIgnoresOrder(a: seq<LineItem>, b: seq<LineItem>)
    requires multiset(a) == multiset(b)
    ensures Subtotal(a) == Subtotal(b)
  {
    SumPermutation(a, b, LineTotal);
  }

  /** The payload of the "+" button: the same record with one more unit. */
  function Increment(record: LineItem): (r: LineItem)
    ensures r.item == record.item
    ensures r.quantity == record.quantity + 1
  {
    record.(quantity := record.quantity + 1)
  }

  /** The payload of the "-" button; None when the quantity is 1, in which case
      nothing is dispatched. */
  function Decrement(record: LineItem): (r: Option<LineItem>)
    ensures r.None? <==> record.quantity == 1
    ensures r.Some? ==> r.value.item == record.item && r.value.quantity == record.quantity - 1
  {
    if record.quantity != 1 then Some(record.(quantity := record.quantity - 1)) else None
  }

  /** The buttons never take a quantity of at least 1 below 1. */
  lemma QuantityStaysPositive(record: LineItem)
    requires record.quantity >= 1
    ensures Increment(record).quantity >= 1
    ensures Decrement(record).Some? ==> Decrement(record).value.quantity >= 1
  {
  }

  /** "-" after "+" restores the record, and so does "+" after a dispatched "-". */
  lemma IncrementDecrementInverse(record: LineItem)
    ensures record.quantity >= 1 ==> Decrement(Increment(record)) == Some(record)
    ensures Decrement(record).Some? ==> Increment(Decrement(record).value) == record
  {
  }

  /** The values of the invoice form; `taxPercent` is the "Tax (%)" field. */
  datatype InvoiceForm = InvoiceForm(
    customerName: string,
    phoneNumber: string,
    taxPercent: real,
    paymentMethod: PaymentMethod)

  /** The bill created from the cart and the form, as the store keeps it; the
      store stamps `date` and `createdAt` with `savedAt`. */
  function CreateInvoice(cart: seq<LineItem>, form: InvoiceForm, savedAt: int): (b: Bill)
    ensures b.cartItems == cart
    ensures b.tax == Subtotal(cart) as real * form.taxPercent / 100.0
    ensures b.totalAmount == Subtotal(cart) as real + b.tax
    ensures b.customerName == form.customerName && b.customerPhoneNumber == form.phoneNumber
    ensures b.paymentMethod == form.paymentMethod
    ensures b.date == savedAt && b.createdAt == savedAt
  {
    var subtotal := Subtotal(cart) as real;
    var taxAmount := subtotal * (form.taxPercent / 100.0);
    var totalAmount := subtotal + taxAmount;
    Bill(form.customerName, form.phoneNumber, totalAmount, taxAmount, form.paymentMethod, cart, savedAt, savedAt)
  }

  /** With a percentage in [0, 100] and no negative price or quantity,
      0 <= tax <= subtotal <= total. */
  lemma InvoiceAmountsOrdered(cart: seq<LineItem>, form: InvoiceForm, savedAt: int)
    requires 0.0 <= form.taxPercent <= 100.0
    requires forall k :: 0 <= k < |cart| ==> cart[k].item.price >= 0 && cart[k].quantity >= 0
    ensures 0.0 <= CreateInvoice(cart, form, savedAt).tax
    ensures CreateInvoice(cart, form, savedAt).tax <= Subtotal(cart) as real
    ensures Subtotal(cart) as real <= CreateInvoice(cart, form, savedAt).totalAmount
  {
    var s := Subtotal(cart) as real;
    var f := form.taxPercent / 100.0;
    assert 0.0 <= f <= 1.0;
    assert 0.0 <= s;
    assert CreateInvoice(cart, form, savedAt).tax == s * f;
    assert s * f <= s * 1.0;
  }

  /** The code does not refuse an empty cart: it creates a bill of amount 0. */
  lemma EmptyCartMakesZeroBill(form: InvoiceForm, savedAt: int)
    ensures CreateInvoice([], form, savedAt).totalAmount == 0.0
    ensures CreateInvoice([], form, savedAt).tax == 0.0
  {
  }

  /** One row of the printed item table. */
  datatype InvoiceLine = InvoiceLine(name: string, quantity: int, price: int, total: int)

  /** The printed invoice, as structured content: customer, phone and date
      lines, one table row per cart record, the Subtotal, Tax and Total rows
      and the payment-method footer. */
  datatype InvoiceDocument = InvoiceDocument(
    customer: string,
    phone: string,
    date: int,
    lines: seq<InvoiceLine>,
    subtotal: real,
    tax: real,
    total: real,
    paymentMethod: PaymentMethod)

  function PrintLine(li: LineItem): InvoiceLine
  {
    InvoiceLine(li.item.name, li.quantity, li.item.price, li.item.price * li.quantity)
  }

  function LineAmount(line: InvoiceLine): int
  {
    line.total
  }

  /** The printed form of a stored bill. Its "Subtotal" row is not read from
      the bill but derived as total minus tax. */
  function PrintBill(bill: Bill): (d: InvoiceDocument)
    ensures d.customer == bill.customerName && d.phone == bill.customerPhoneNumber && d.date == bill.date
    ensures |d.lines| == |bill.cartItems|
    ensures forall k :: 0 <= k < |bill.cartItems| ==>
              d.lines[k].name == bill.cartItems[k].item.name &&
              d.lines[k].quantity == bill.cartItems[k].quantity &&
              d.lines[k].price == bill.cartItems[k].item.price &&
              d.lines[k].total == LineTotal(bill.cartItems[k])
    ensures d.subtotal == bill.totalAmount - bill.tax
    ensures d.tax == bill.tax && d.total == bill.totalAmount
    ensures d.subtotal + d.tax == d.total
    ensures d.paymentMethod == bill.paymentMethod
  {
    InvoiceDocument(
      bill.customerName, bill.customerPhoneNumber, bill.date,
      Map(bill.cartItems, PrintLine),
      bill.totalAmount - bill.tax, bill.tax, bill.totalAmount,
      bill.paymentMethod)
  }

  lemma {:induction false} PrintedLinesAddUp(items: seq<LineItem>)
    ensures Sum(Map(items, PrintLine), LineAmount) == Subtotal(items)
  {
    if |items| > 0 {
      var n := |items| - 1;
      PrintedLinesAddUp(items[..n]);
      assert Map(items, PrintLine)[..n] == Map(items[..n], PrintLine);
    }
  }

  /** For a bill created from a cart, the printed Subtotal row equals the cart's
      subtotal and the sum of the printed row totals. */
  lemma PrintedSubtotalMatchesCart(cart: seq<LineItem>, form: InvoiceForm, savedAt: int)
    ensures PrintBill(CreateInvoice(cart, form, savedAt)).subtotal == Subtotal(cart) as real
    ensures Sum(PrintBill(CreateInvoice(cart, form, savedAt)).lines, LineAmount) == Subtotal(cart)
  {
    PrintedLinesAddUp(cart);
  }

  /** The worked example: Tea 20 x 3 and Cake 150 x 1 at 10% give 210, 21 and 231. */
  lemma TeaAndCakeExample(tea: Item, cake: Item, form: InvoiceForm, savedAt: int)
    requires tea.price == 20 && cake.price == 150 && form.taxPercent == 10.0
    ensures var b := CreateInvoice([LineItem(tea, 3), LineItem(cake, 1)], form, savedAt);
            Subtotal(b.cartItems) == 210 && b.tax == 21.0 && b.totalAmount == 231.0
  {
    var cart := [LineItem(tea, 3), LineItem(cake, 1)];
    assert cart[..1] == [LineItem(tea, 3)];
    assert cart[..1][..0] == [];
    assert Sum(cart[..1], LineTotal) == 60;
    assert Subtotal(cart) == 210;
  }
}
