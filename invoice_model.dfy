/** The `Invoice` schema with its embedded item schema
    (server/models/Invoice.js) and the invoice collection. */
module InvoiceModel {
  import opened Common

  /** A priced line, as stored inside an invoice. */
  datatype Item = Item(productId: Id, name: string, quantity: real, price: real, discount: real, total: real)

  datatype Invoice = Invoice(id: Id, invoiceNumber: string, partyId: Id, partyName: string,
                             partyPhone: string, items: seq<Item>, subtotal: real, tax: real,
                             discount: real, total: real, paymentStatus: string, createdAt: int)

  const Paid: string := "paid"
  const Unpaid: string := "unpaid"
  const Partial: string := "partial"

  /** The `paymentStatus` enum. */
  predicate IsPaymentStatus(s: string)
  {
    s == Paid || s == Unpaid || s == Partial
  }

  /** An item's only required string is its name. */
  predicate ValidItem(it: Item)
  {
    it.name != ""
  }

  /** What saving an invoice checks: the required strings, the status enum and every item. */
  predicate ValidInvoice(inv: Invoice)
  {
    && inv.invoiceNumber != "" && inv.partyName != "" && inv.partyPhone != ""
    && IsPaymentStatus(inv.paymentStatus)
    && forall i :: 0 <= i < |inv.items| ==> ValidItem(inv.items[i])
  }

  function InvoiceIds(docs: seq<Invoice>): (r: seq<Id>)
    ensures |r| == |docs| && forall i :: 0 <= i < |docs| ==> r[i] == docs[i].id
  {
    seq(|docs|, i requires 0 <= i < |docs| => docs[i].id)
  }

  function InvoiceNumbers(docs: seq<Invoice>): (r: seq<string>)
    ensures |r| == |docs| && forall i :: 0 <= i < |docs| ==> r[i] == docs[i].invoiceNumber
  {
    seq(|docs|, i requires 0 <= i < |docs| => docs[i].invoiceNumber)
  }

  function FindInvoice(docs: seq<Invoice>, id: Id): (r: Option<Invoice>)
    ensures r.Some? ==> r.value in docs && r.value.id == id
    ensures r.None? <==> id !in InvoiceIds(docs)
  {
    match IndexOf(InvoiceIds(docs), id)
    case None => None
    case Some(k) => Some(docs[k])
  }

  class InvoiceCollection {
    var docs: seq<Invoice>

    /** `_id` and `invoiceNumber` are unique keys. */
    ghost predicate Valid()
      reads this
    {
      NoDuplicates(InvoiceIds(docs)) && NoDuplicates(InvoiceNumbers(docs))
    }

    constructor()
      ensures Valid() && docs == []
    {
      docs := [];
    }
  }
}
