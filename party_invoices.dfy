// One party's invoice screen: the list the by-party listing returns, shown
// with a header taken from its first invoice, a total, and a paid/unpaid
// badge per invoice.

module PartyInvoices {
  import opened Common
  import opened InvoiceModel
  import opened InvoiceController
  import opened PartyModel
  import opened Dashboard

  const NoInvoicesFound: string := "No Invoices Found"
  const PaidBadge: string := "Paid"
  const UnpaidBadge: string := "Unpaid"

  /** What the screen shows once loading is over and no error occurred. */
  datatype PartyScreen =
    | NoInvoices(notice: string)
    | Listing(party: Option<PartyRef>, invoiceCount: nat, totalAmount: real, invoices: seq<InvoiceView>)

  /**
   * The empty list gets the notice and no totals; otherwise the header party
   * is the populated party of the first invoice and the footer total sums
   * every invoice's total.
   */
  function Screen(views: seq<InvoiceView>): (r: PartyScreen)
    ensures r.NoInvoices? <==> views == []
    ensures r.NoInvoices? ==> r.notice == NoInvoicesFound
    ensures r.Listing? ==> r.party == views[0].party && r.invoices == views
    ensures r.Listing? ==> r.invoiceCount == |views| && r.totalAmount == Summarize(views).totalAmount
  {
    if |views| == 0 then NoInvoices(NoInvoicesFound)
    else Listing(views[0].party, |views|, TotalAmount(views), views)
  }

  /** The status badge: paid invoices show "Paid", every other status "Unpaid". */
  function Badge(inv: Invoice): (r: string)
    ensures r == PaidBadge <==> inv.paymentStatus == Paid
    ensures r == UnpaidBadge <==> inv.paymentStatus != Paid
  {
    if inv.paymentStatus == Paid then PaidBadge else UnpaidBadge
  }

  /**
   * Over the by-party listing, each listed invoice is the stored invoice with
   * its id, so its badge reads "Paid" exactly when the stored invoice with
   * that id has status paid, and "Unpaid" otherwise (partial included).
   */
  lemma BadgesMatchStore(invoices: InvoiceCollection, parties: PartyCollection, partyId: Id)
    requires invoices.Valid() && IsObjectId(partyId)
    ensures var r := GetInvoicesByParty(invoices, parties, partyId);
      forall i :: 0 <= i < |r.body| ==>
        && FindInvoice(invoices.docs, r.body[i].invoice.id) == Some(r.body[i].invoice)
        && (Badge(r.body[i].invoice) == PaidBadge <==> FindInvoice(invoices.docs, r.body[i].invoice.id).value.paymentStatus == Paid)
  {
    var r := GetInvoicesByParty(invoices, parties, partyId);
    forall i | 0 <= i < |r.body|
      ensures FindInvoice(invoices.docs, r.body[i].invoice.id) == Some(r.body[i].invoice)
    {
      ListedIsStored(invoices, r.body, i);
    }
  }

  /** A listed invoice drawn from a store with unique ids is what the lookup by its id finds. */
  lemma ListedIsStored(invoices: InvoiceCollection, views: seq<InvoiceView>, i: nat)
    requires invoices.Valid() && i < |views| && multiset(InvoicesOf(views)) <= multiset(invoices.docs)
    ensures FindInvoice(invoices.docs, views[i].invoice.id) == Some(views[i].invoice)
  {
    var v := views[i].invoice;
    assert InvoicesOf(views)[i] == v;
    assert v in multiset(invoices.docs);
    var a :| 0 <= a < |invoices.docs| && invoices.docs[a] == v;
    var w := FindInvoice(invoices.docs, v.id).value;
    var b :| 0 <= b < |invoices.docs| && invoices.docs[b] == w;
    assert InvoiceIds(invoices.docs)[a] == InvoiceIds(invoices.docs)[b];
  }

  /**
   * Over the by-party listing: the screen is empty exactly when no stored
   * invoice names the party, and otherwise its header shows that party as
   * populated from the party store (absent once the party was deleted).
   */
  lemma {:induction false} HeaderIsRequestedParty(invoices: InvoiceCollection, parties: PartyCollection, partyId: Id)
    requires IsObjectId(partyId)
    ensures var r := GetInvoicesByParty(invoices, parties, partyId);
      && r.Ok?
      && (Screen(r.body).NoInvoices? <==> forall i :: 0 <= i < |invoices.docs| ==> invoices.docs[i].partyId != partyId)
      && (Screen(r.body).Listing? ==> Screen(r.body).party == PopulatedParty(parties.docs, partyId))
  {
    var r := GetInvoicesByParty(invoices, parties, partyId);
    if r.body != [] {
      var first := InvoicesOf(r.body)[0];
      assert first in multiset(invoices.docs);
      var i :| 0 <= i < |invoices.docs| && invoices.docs[i] == first;
      assert invoices.docs[i].partyId == partyId;
    }
  }
}
