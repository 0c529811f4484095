/**
 * The records the query layer reads and returns. Field names follow the
 * application's own records; amounts are integer cents.
 */
module Definitions {

  datatype Customer = Customer(id: string, name: string, email: string, image_url: string)

  datatype Invoice = Invoice(id: string, customer_id: string, amount: int, date: string, status: string)

  /** An invoice joined with its customer's fields, its amount already formatted. */
  datatype JoinedInvoice = JoinedInvoice(
    id: string, customer_id: string, amount: string, date: string, status: string,
    name: string, image_url: string, email: string)

  /** An invoice as handed to the edit form: amount in dollars, status normalised. */
  datatype InvoiceForm = InvoiceForm(id: string, customer_id: string, amount: real, date: string, status: string)

  /** The dashboard summary cards. */
  datatype CardData = CardData(
    numberOfCustomers: nat, numberOfInvoices: nat,
    totalPaidInvoices: string, totalPendingInvoices: string)

  /**
   * What the query layer takes from code outside it: the currency formatter
   * and the parse of a date string into a millisecond timestamp.
   */
  datatype Env = Env(formatCurrency: int -> string, timestamp: string -> int)
}
