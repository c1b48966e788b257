/**
 * The records the tax-position calculator works on: sale events with their
 * line items, tax payments, and sale amendments. Money amounts and tax rates
 * are JavaScript numbers in the service; here they are exact reals.
 */
module TaxTypes {

  /** One line item of a sale: its id (unique within the sale), cost and tax rate. */
  datatype Item = Item(itemId: string, cost: real, taxRate: real)

  /**
   * A recorded financial event: either a "SALES" event with its invoice id and
   * line items, or a "TAX_PAYMENT" event with the amount paid.
   */
  datatype Transaction =
    | Sale(date: string, invoiceId: string, items: seq<Item>)
    | TaxPayment(date: string, amount: real)

  /** A full replacement of the cost and tax rate of the line item (invoiceId, itemId). */
  datatype SaleAmendment = SaleAmendment(date: string, invoiceId: string, itemId: string, cost: real, taxRate: real)

  /** The error an aborted calculation reports (the message of the thrown Error). */
  datatype CalcError =
    | InvalidItem(itemId: string)   // "Invalid cost or tax rate for item <itemId>"
    | InvalidPayment                // "Invalid tax payment amount"

  /** True when amendment `a` targets the line item `itemId` of invoice `invoiceId`. */
  predicate Targets(a: SaleAmendment, invoiceId: string, itemId: string)
  {
    a.invoiceId == invoiceId && a.itemId == itemId
  }
}
