/** The bill form of the second client (App/src/screens/NewBillForm.jsx):
    the discount on an entry is a flat amount stored as entered, and the tax
    is a flat amount. Only product, quantity and discount are submitted; the
    server prices the invoice itself. */
module AppBillForm {
  import opened Common
  import opened PartyModel
  import opened ProductModel
  import opened BillEntries
  import InvoiceController

  /** `handleProductChange` on one entry: the value is stored as given. */
  function Applied(e: Entry, edit: Edit): (r: Entry)
    ensures edit.SetDiscount? ==> r == e.(discount := edit.value)
    ensures edit.SetQuantity? ==> r == e.(quantity := edit.quantity)
    ensures edit.SetProductId? ==> r == e.(productId := edit.id)
    ensures edit.SetName? ==> r == e.(name := edit.text)
    ensures edit.SetWeight? ==> r == e.(weight := edit.text)
    ensures edit.SetPrice? ==> r == e.(price := edit.text)
  {
    match edit
    case SetProductId(id) => e.(productId := id)
    case SetName(text) => e.(name := text)
    case SetWeight(text) => e.(weight := text)
    case SetPrice(text) => e.(price := text)
    case SetQuantity(q) => e.(quantity := q)
    case SetDiscount(v) => e.(discount := v)
  }

  /** One entry's share of `calculateTotal`: entries without a product or
      with a NaN price are skipped; otherwise the gross less the discount. */
  function Contribution(catalog: seq<CatalogProduct>, e: Entry): real
  {
    match Resolve(catalog, e)
    case None => 0.0
    case Some(p) => if p.price.NaN? then 0.0 else e.quantity * p.price.value - OrZero(e.discount)
  }

  function Subtotal(catalog: seq<CatalogProduct>, entries: seq<Entry>): real
  {
    if entries == [] then 0.0
    else Subtotal(catalog, entries[..|entries| - 1]) + Contribution(catalog, entries[|entries| - 1])
  }

  /** The value `calculateTotal` computes: the subtotal plus `parseFloat(tax || 0)`. */
  function Total(catalog: seq<CatalogProduct>, entries: seq<Entry>, tax: Number): real
  {
    Subtotal(catalog, entries) + OrZero(tax)
  }

  /** An item as submitted: `{productId, quantity, discount: discount || 0}`. */
  function SentItem(e: Entry): InvoiceController.ItemRequest
  {
    InvoiceController.ItemRequest(e.productId, e.quantity, Some(OrZero(e.discount)))
  }

  function SentItems(entries: seq<Entry>): (r: seq<InvoiceController.ItemRequest>)
    ensures |r| == |entries|
    ensures forall i :: 0 <= i < |entries| ==>
      r[i] == InvoiceController.ItemRequest(entries[i].productId, entries[i].quantity, Some(OrZero(entries[i].discount)))
  {
    seq(|entries|, i requires 0 <= i < |entries| => SentItem(entries[i]))
  }

  /** The invoice body: `{partyId, tax, paymentStatus, items}`; the server
      reads `tax || 0`. */
  function SentInvoice(partyId: Id, form: FormData, entries: seq<Entry>): InvoiceController.InvoiceRequest
  {
    InvoiceController.InvoiceRequest(partyId, Some(form.paymentStatus), SentItems(entries), Some(OrZero(form.tax)), None)
  }

  datatype Submission = Rejected(error: string) | Send(newParty: Option<PartyFields>, invoice: InvoiceController.InvoiceRequest)

  class BillForm {
    var catalog: seq<CatalogProduct>
    var entries: seq<Entry>
    var form: FormData
    var useExistingParty: bool

    /** The form once the fetch effect has loaded the products. */
    constructor(catalog: seq<CatalogProduct>)
      ensures this.catalog == catalog && entries == [] && form == DefaultFormData && useExistingParty
    {
      this.catalog := catalog;
      entries := [];
      form := DefaultFormData;
      useExistingParty := true;
    }

    /** `calculateTotal`: the loop over the entries, then the flat tax. */
    method CalculateTotal() returns (total: real)
      ensures total == Total(catalog, entries, form.tax)
    {
      var subtotal := 0.0;
      for i := 0 to |entries|
        invariant subtotal == Subtotal(catalog, entries[..i])
      {
        assert entries[..i + 1][..i] == entries[..i];
        var item := entries[i];
        var product := Resolve(catalog, item);
        if product.Some? && product.value.price.Num? {
          var itemTotal := item.quantity * product.value.price.value;
          subtotal := subtotal + (itemTotal - OrZero(item.discount));
        }
      }
      assert entries[..|entries|] == entries;
      total := subtotal + OrZero(form.tax);
    }

    /** `handleAddProduct`: one default entry at the end. */
    method AddProduct()
      modifies this
      ensures entries == old(entries) + [DefaultEntry]
      ensures catalog == old(catalog) && form == old(form) && useExistingParty == old(useExistingParty)
    {
      entries := entries + [DefaultEntry];
    }

    /** `handleProductChange`: only entry `index` changes, with no clamping. */
    method ProductChange(index: nat, edit: Edit)
      requires index < |entries|
      modifies this
      ensures entries == old(entries)[index := Applied(old(entries)[index], edit)]
      ensures catalog == old(catalog) && form == old(form) && useExistingParty == old(useExistingParty)
    {
      entries := entries[index := Applied(entries[index], edit)];
    }

    /** `handleRemoveProduct`: `splice(index, 1)`, which ignores an index past the end. */
    method RemoveProduct(index: nat)
      modifies this
      ensures entries == if index < |old(entries)| then RemoveAt(old(entries), index) else old(entries)
      ensures catalog == old(catalog) && form == old(form) && useExistingParty == old(useExistingParty)
    {
      if index < |entries| {
        entries := RemoveAt(entries, index);
      }
    }

    /** `toggleProductType`. */
    method ToggleProductType(index: nat)
      requires index < |entries|
      modifies this
      ensures entries == old(entries)[index := Toggled(old(entries)[index])]
      ensures catalog == old(catalog) && form == old(form) && useExistingParty == old(useExistingParty)
    {
      entries := entries[index := Toggled(entries[index])];
    }

    /** `handleSubmit`, given the id the server gives a party created in new-party mode. */
    function Submit(createdPartyId: Id): (r: Submission)
      reads this
      ensures r.Rejected? <==> SubmitError(useExistingParty, form, |entries|).Some?
      ensures r.Send? ==> && (r.newParty.Some? <==> !useExistingParty)
                          && (r.newParty.Some? ==> r.newParty.value == PartyFields(Some(form.partyName), Some(form.partyPhone), Some(form.partyPlace)))
                          && r.invoice.tax == Some(OrZero(form.tax))
                          && r.invoice.paymentStatus == Some(form.paymentStatus)
                          && r.invoice.discount.None?
                          && r.invoice.partyId == (if useExistingParty then form.partyId else createdPartyId)
                          && |r.invoice.items| == |entries|
                          && forall i :: 0 <= i < |entries| ==>
                               && r.invoice.items[i].productId == entries[i].productId
                               && r.invoice.items[i].quantity == entries[i].quantity
                               && r.invoice.items[i].discount == Some(OrZero(entries[i].discount))
    {
      match SubmitError(useExistingParty, form, |entries|)
      case Some(message) => Rejected(message)
      case None =>
        Send(if useExistingParty then None else Some(NewPartyBody(form)),
             SentInvoice(if useExistingParty then form.partyId else createdPartyId, form, entries))
    }
  }

  /** Every entry names a stored product (by a well-formed id) whose price the
      form also holds. */
  ghost predicate MatchesStore(catalog: seq<CatalogProduct>, products: seq<Product>, entries: seq<Entry>)
  {
    forall i :: 0 <= i < |entries| ==>
      && InvoiceController.ItemLookup(products, SentItem(entries[i])).Ok?
      && PricedAt(catalog, entries[i], InvoiceController.ItemLookup(products, SentItem(entries[i])).body.price)
  }

  lemma SentLineTotal(catalog: seq<CatalogProduct>, p: Product, e: Entry)
    requires PricedAt(catalog, e, p.price)
    ensures InvoiceController.LineFor(p, SentItem(e)).total == Contribution(catalog, e)
  {
  }

  /** When the form's prices are the stored ones, the server's subtotal for
      the submitted items is the one the form displayed. */
  lemma {:induction false} ServerSubtotalAgrees(catalog: seq<CatalogProduct>, products: seq<Product>, entries: seq<Entry>)
    requires MatchesStore(catalog, products, entries)
    ensures InvoiceController.PriceAll(products, SentItems(entries)).Priced?
    ensures InvoiceController.PriceAll(products, SentItems(entries)).subtotal == Subtotal(catalog, entries)
  {
    if entries != [] {
      var n := |entries| - 1;
      var items := SentItems(entries);
      assert MatchesStore(catalog, products, entries[..n]);
      ServerSubtotalAgrees(catalog, products, entries[..n]);
      assert items[..n] == SentItems(entries[..n]);
      var e := entries[n];
      assert items[n] == SentItem(e);
      var prev := InvoiceController.PriceAll(products, items[..n]);
      var look := InvoiceController.ItemLookup(products, items[n]);
      assert look.Ok?;
      var line := InvoiceController.LineFor(look.body, items[n]);
      assert InvoiceController.PriceAll(products, items) == InvoiceController.Priced(prev.lines + [line], prev.subtotal + line.total);
      SentLineTotal(catalog, look.body, e);
    }
  }

  /** The same agreement for the grand total: the server adds `tax || 0`, as the form does. */
  lemma ServerTotalAgrees(catalog: seq<CatalogProduct>, products: seq<Product>, form: FormData,
                          entries: seq<Entry>, partyId: Id)
    requires MatchesStore(catalog, products, entries)
    ensures var req := SentInvoice(partyId, form, entries);
      && InvoiceController.PriceAll(products, req.items).Priced?
      && InvoiceController.PriceAll(products, req.items).subtotal + Get(req.tax, 0.0) == Total(catalog, entries, form.tax)
  {
    ServerSubtotalAgrees(catalog, products, entries);
  }
}
