/** The bill form of the first client (client/src/screens/NewBillForm.jsx):
    the discount on an entry is a percentage clamped to [0, 100], and the tax
    is a percentage of the subtotal. */
module ClientBillForm {
  import opened Common
  import opened PartyModel
  import opened ProductModel
  import opened BillEntries
  import InvoiceController

  /** `Math.min(100, Math.max(0, parseFloat(value) || 0))`. */
  function ClampDiscount(v: Number): (r: real)
    ensures 0.0 <= r <= 100.0
    ensures v.NaN? ==> r == 0.0
    ensures v.Num? && 0.0 <= v.value <= 100.0 ==> r == v.value
    ensures v.Num? && v.value < 0.0 ==> r == 0.0
    ensures v.Num? && v.value > 100.0 ==> r == 100.0
  {
    var d := OrZero(v);
    if d > 100.0 then 100.0 else if d < 0.0 then 0.0 else d
  }

  /** `handleProductChange` on one entry: the discount is clamped, every other
      field is stored as given. */
  function Applied(e: Entry, edit: Edit): (r: Entry)
    ensures edit.SetDiscount? ==> r == e.(discount := Num(ClampDiscount(edit.value)))
    ensures !edit.SetDiscount? ==> r.discount == e.discount
    ensures edit.SetProductId? ==> r == e.(productId := edit.id)
    ensures edit.SetName? ==> r == e.(name := edit.text)
    ensures edit.SetWeight? ==> r == e.(weight := edit.text)
    ensures edit.SetPrice? ==> r == e.(price := edit.text)
    ensures edit.SetQuantity? ==> r == e.(quantity := edit.quantity)
  {
    match edit
    case SetProductId(id) => e.(productId := id)
    case SetName(text) => e.(name := text)
    case SetWeight(text) => e.(weight := text)
    case SetPrice(text) => e.(price := text)
    case SetQuantity(q) => e.(quantity := q)
    case SetDiscount(v) => e.(discount := Num(ClampDiscount(v)))
  }

  /** `calculateItemTotal`: an entry without a product or with a NaN price
      counts 0, otherwise its gross less `discount` percent of it. */
  function ItemTotal(catalog: seq<CatalogProduct>, e: Entry): real
  {
    match Resolve(catalog, e)
    case None => 0.0
    case Some(p) =>
      if p.price.NaN? then 0.0
      else
        var gross := e.quantity * p.price.value;
        gross - gross * OrZero(e.discount) / 100.0
  }

  function Subtotal(catalog: seq<CatalogProduct>, entries: seq<Entry>): real
  {
    if entries == [] then 0.0
    else Subtotal(catalog, entries[..|entries| - 1]) + ItemTotal(catalog, entries[|entries| - 1])
  }

  /** The value `calculateTotal` computes: the subtotal plus `tax` percent of it. */
  function GrandTotal(catalog: seq<CatalogProduct>, entries: seq<Entry>, tax: Number): real
  {
    var subtotal := Subtotal(catalog, entries);
    subtotal + subtotal * OrZero(tax) / 100.0
  }

  /** An item of the submitted invoice. */
  datatype ClientItem = ClientItem(productId: Id, quantity: real, discount: real, price: real, name: string,
                                   total: real, discountAmount: real, itemTotalWithoutDiscount: real)

  /** The mapping in `handleSubmit`: a missing product or NaN price counts as price 0. */
  function SubmittedItem(catalog: seq<CatalogProduct>, e: Entry): ClientItem
  {
    var product := Resolve(catalog, e);
    var price := if product.Some? then OrZero(product.value.price) else 0.0;
    var gross := e.quantity * price;
    var amount := gross * OrZero(e.discount) / 100.0;
    var name := if product.Some? && product.value.name != "" then product.value.name else e.name;
    ClientItem(e.productId, e.quantity, OrZero(e.discount), price, name, gross - amount, amount, gross)
  }

  function SubmittedItems(catalog: seq<CatalogProduct>, entries: seq<Entry>): seq<ClientItem>
  {
    seq(|entries|, i requires 0 <= i < |entries| => SubmittedItem(catalog, entries[i]))
  }

  datatype ClientInvoice = ClientInvoice(partyId: Id, tax: Number, paymentStatus: string,
                                         items: seq<ClientItem>, grandTotal: real)

  /** What `handleSubmit` does: show an error and send nothing, or create the
      party first (new-party mode) and then send the invoice. */
  datatype Submission = Rejected(error: string) | Send(newParty: Option<PartyFields>, invoice: ClientInvoice)

  class BillForm {
    var catalog: seq<CatalogProduct>
    var entries: seq<Entry>
    var form: FormData
    var useExistingParty: bool
    var currentProductIndex: nat

    /** Every discount went through the clamp. */
    ghost predicate Valid()
      reads this
    {
      forall i :: 0 <= i < |entries| ==> entries[i].discount.Num? && 0.0 <= entries[i].discount.value <= 100.0
    }

    /** The form once the fetch effect has loaded the products. */
    constructor(catalog: seq<CatalogProduct>)
      ensures Valid() && this.catalog == catalog && entries == []
      ensures form == DefaultFormData && useExistingParty && currentProductIndex == 0
    {
      this.catalog := catalog;
      entries := [];
      form := DefaultFormData;
      useExistingParty := true;
      currentProductIndex := 0;
    }

    /** `calculateTotal`: the loop over the entries, then the percentage tax. */
    method CalculateTotal() returns (total: real)
      ensures total == GrandTotal(catalog, entries, form.tax)
    {
      var subtotal := 0.0;
      for i := 0 to |entries|
        invariant subtotal == Subtotal(catalog, entries[..i])
      {
        assert entries[..i + 1][..i] == entries[..i];
        subtotal := subtotal + ItemTotal(catalog, entries[i]);
      }
      assert entries[..|entries|] == entries;
      total := subtotal + subtotal * OrZero(form.tax) / 100.0;
    }

    /** `handleReset`. */
    method Reset()
      modifies this
      ensures Valid()
      ensures form == DefaultFormData && currentProductIndex == 0 && entries == []
      ensures catalog == old(catalog) && useExistingParty == old(useExistingParty)
    {
      form := DefaultFormData;
      currentProductIndex := 0;
      entries := [];
    }

    /** `handleAddProduct`: one default entry at the end. */
    method AddProduct()
      requires Valid()
      modifies this
      ensures Valid()
      ensures entries == old(entries) + [DefaultEntry]
      ensures catalog == old(catalog) && form == old(form) && useExistingParty == old(useExistingParty)
      ensures currentProductIndex == old(currentProductIndex)
    {
      entries := entries + [DefaultEntry];
    }

    /** `handleProductChange`: only entry `index` changes. */
    method ProductChange(index: nat, edit: Edit)
      requires Valid() && index < |entries|
      modifies this
      ensures Valid()
      ensures entries == old(entries)[index := Applied(old(entries)[index], edit)]
      ensures catalog == old(catalog) && form == old(form) && useExistingParty == old(useExistingParty)
      ensures currentProductIndex == old(currentProductIndex)
    {
      entries := entries[index := Applied(entries[index], edit)];
    }

    /** `handleRemoveProduct`: `splice(index, 1)`, which ignores an index past the end. */
    method RemoveProduct(index: nat)
      requires Valid()
      modifies this
      ensures Valid()
      ensures entries == if index < |old(entries)| then RemoveAt(old(entries), index) else old(entries)
      ensures catalog == old(catalog) && form == old(form) && useExistingParty == old(useExistingParty)
      ensures currentProductIndex == old(currentProductIndex)
    {
      if index < |entries| {
        entries := RemoveAt(entries, index);
      }
    }

    /** `toggleProductType`. */
    method ToggleProductType(index: nat)
      requires Valid() && index < |entries|
      modifies this
      ensures Valid()
      ensures entries == old(entries)[index := Toggled(old(entries)[index])]
      ensures catalog == old(catalog) && form == old(form) && useExistingParty == old(useExistingParty)
      ensures currentProductIndex == old(currentProductIndex)
    {
      entries := entries[index := Toggled(entries[index])];
    }

    /** `handleSubmit`, given the id the server gives a party created in new-party mode. */
    function Submit(createdPartyId: Id): Submission
      reads this
    {
      match SubmitError(useExistingParty, form, |entries|)
      case Some(message) => Rejected(message)
      case None =>
        Send(if useExistingParty then None else Some(NewPartyBody(form)),
             ClientInvoice(if useExistingParty then form.partyId else createdPartyId, form.tax,
                           form.paymentStatus, SubmittedItems(catalog, entries),
                           GrandTotal(catalog, entries, form.tax)))
    }
  }

  /** The submitted total of an entry is the one the form displayed. */
  lemma SubmittedItemTotal(catalog: seq<CatalogProduct>, e: Entry)
    ensures SubmittedItem(catalog, e).total == ItemTotal(catalog, e)
    ensures SubmittedItem(catalog, e).total ==
            SubmittedItem(catalog, e).itemTotalWithoutDiscount - SubmittedItem(catalog, e).discountAmount
  {
  }

  /** A submission is refused exactly when a check fails; otherwise it names
      the chosen or created party and carries one item per entry, each with
      the displayed total, and the displayed grand total. */
  lemma SubmitSendsDisplayedTotals(f: BillForm, createdPartyId: Id)
    ensures var s := f.Submit(createdPartyId);
      && (s.Rejected? <==> SubmitError(f.useExistingParty, f.form, |f.entries|).Some?)
      && (s.Send? ==>
            && s.invoice.partyId == (if f.useExistingParty then f.form.partyId else createdPartyId)
            && (s.newParty.Some? <==> !f.useExistingParty)
            && |s.invoice.items| == |f.entries|
            && (forall i :: 0 <= i < |f.entries| ==>
                  s.invoice.items[i].productId == f.entries[i].productId &&
                  s.invoice.items[i].total == ItemTotal(f.catalog, f.entries[i]))
            && s.invoice.grandTotal == GrandTotal(f.catalog, f.entries, f.form.tax))
  {
    var s := f.Submit(createdPartyId);
    if s.Send? {
      forall i | 0 <= i < |f.entries| ensures s.invoice.items[i].total == ItemTotal(f.catalog, f.entries[i]) {
        SubmittedItemTotal(f.catalog, f.entries[i]);
      }
    }
  }

  /** A clamped discount never raises a line above its gross nor below 0. */
  lemma ItemTotalWithinGross(catalog: seq<CatalogProduct>, e: Entry, price: real)
    requires 0.0 <= OrZero(e.discount) <= 100.0 && 0.0 <= e.quantity && 0.0 <= price
    requires PricedAt(catalog, e, price)
    ensures 0.0 <= ItemTotal(catalog, e) <= e.quantity * price
  {
    var gross := e.quantity * price;
    assert 0.0 <= gross;
    assert gross * OrZero(e.discount) <= gross * 100.0;
    assert 0.0 <= gross * OrZero(e.discount);
  }

  /** Entries whose products all have non-negative prices and quantities. */
  ghost predicate NonNegative(catalog: seq<CatalogProduct>, entries: seq<Entry>)
  {
    forall i :: 0 <= i < |entries| ==>
      0.0 <= entries[i].quantity && 0.0 <= OrZero(entries[i].discount) <= 100.0 &&
      match Resolve(catalog, entries[i])
      case None => true
      case Some(p) => p.price.NaN? || 0.0 <= p.price.value
  }

  /** With non-negative quantities and prices the subtotal is non-negative. */
  lemma {:induction false} SubtotalNonNegative(catalog: seq<CatalogProduct>, entries: seq<Entry>)
    requires NonNegative(catalog, entries)
    ensures 0.0 <= Subtotal(catalog, entries)
  {
    if entries != [] {
      var n := |entries| - 1;
      assert NonNegative(catalog, entries[..n]);
      SubtotalNonNegative(catalog, entries[..n]);
      var e := entries[n];
      match Resolve(catalog, e)
      case None =>
      case Some(p) =>
        if p.price.Num? {
          ItemTotalWithinGross(catalog, e, p.price.value);
        }
    }
  }

  /** The server prices the same request, but reads `discount` as an amount
      rather than a percentage: it agrees with the displayed total only when
      the discount is 0 or the line's gross is exactly 100. */
  lemma ServerLineTotalDiffers(catalog: seq<CatalogProduct>, e: Entry, p: Product)
    requires PricedAt(catalog, e, p.price)
    ensures var sent := SubmittedItem(catalog, e);
      var line := InvoiceController.LineFor(p, InvoiceController.ItemRequest(sent.productId, sent.quantity, Some(sent.discount)));
      line.total == ItemTotal(catalog, e) <==> OrZero(e.discount) == 0.0 || e.quantity * p.price == 100.0
  {
    var gross := e.quantity * p.price;
    var d := OrZero(e.discount);
    assert ItemTotal(catalog, e) == gross - gross * d / 100.0;
    assert gross - d == gross - gross * d / 100.0 <==> d * (gross - 100.0) == 0.0;
  }

  /** Two units at 100 with 10 entered as the discount: the form shows 180,
      the server stores 190. */
  lemma ServerLineTotalExample()
    ensures var catalog := [CatalogProduct("p", "Tea", Num(100.0))];
      var e := DefaultEntry.(productId := "p", quantity := 2.0, discount := Num(10.0));
      var p := Product("p", "Tea", "SVAB12", None, None, None, None, 100.0, 0);
      && ItemTotal(catalog, e) == 180.0
      && InvoiceController.LineFor(p, InvoiceController.ItemRequest("p", 2.0, Some(10.0))).total == 190.0
  {
  }
}
