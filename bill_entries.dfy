/** The state the two bill forms share (client/src/screens/NewBillForm.jsx
    and App/src/screens/NewBillForm.jsx declare it identically): the fetched
    product list, the editable line entries, the form fields and the checks
    made before submitting. */
module BillEntries {
  import opened Common
  import opened PartyModel

  /** A product as the client holds it: fetched from the server or returned
      when a new product is created from the form. */
  datatype CatalogProduct = CatalogProduct(id: Id, name: string, price: Number)

  /** One line entry of the bill. `name`, `weight` and `price` are the text
      fields of the new-product form. */
  datatype Entry = Entry(productId: Id, newProduct: Option<CatalogProduct>, useExistingProduct: bool,
                         quantity: real, discount: Number, name: string, weight: string, price: string)

  /** The entry `handleAddProduct` appends. */
  const DefaultEntry: Entry := Entry("", None, true, 1.0, Num(0.0), "", "", "")

  datatype FormData = FormData(partyId: Id, tax: Number, discount: real, paymentStatus: string,
                               partyName: string, partyPhone: string, partyPlace: string)

  /** The form's initial value, which `handleReset` restores. */
  const DefaultFormData: FormData := FormData("", Num(0.0), 0.0, "unpaid", "", "", "")

  /** One call of `handleProductChange(index, field, value)`. */
  datatype Edit =
    | SetProductId(id: Id)
    | SetName(text: string)
    | SetWeight(text: string)
    | SetPrice(text: string)
    | SetQuantity(quantity: real)
    | SetDiscount(value: Number)

  /** `products.find(p => p._id === id)`. */
  function FindInCatalog(catalog: seq<CatalogProduct>, id: Id): (r: Option<CatalogProduct>)
    ensures r.Some? ==> r.value in catalog && r.value.id == id
    ensures r.None? <==> forall p :: p in catalog ==> p.id != id
  {
    if catalog == [] then None
    else if catalog[0].id == id then Some(catalog[0])
    else FindInCatalog(catalog[1..], id)
  }

  /** `products.find(...) || item.newProduct`: the fetched product with the
      entry's id, else the product created from the entry, if any. */
  function Resolve(catalog: seq<CatalogProduct>, e: Entry): Option<CatalogProduct>
  {
    if FindInCatalog(catalog, e.productId).Some? then FindInCatalog(catalog, e.productId) else e.newProduct
  }

  /** `toggleProductType` on one entry: flips the mode, and switching back to
      an existing product forgets the created one. */
  function Toggled(e: Entry): (r: Entry)
    ensures r.useExistingProduct == !e.useExistingProduct
    ensures r.useExistingProduct ==> r.newProduct.None?
    ensures !r.useExistingProduct ==> r.newProduct == e.newProduct
    ensures r.(useExistingProduct := e.useExistingProduct, newProduct := e.newProduct) == e
  {
    var flipped := e.(useExistingProduct := !e.useExistingProduct);
    if flipped.useExistingProduct then flipped.(newProduct := None) else flipped
  }

  /** The entry resolves to a product whose price is the number `price`. */
  ghost predicate PricedAt(catalog: seq<CatalogProduct>, e: Entry, price: real)
  {
    Resolve(catalog, e).Some? && Resolve(catalog, e).value.price == Num(price)
  }

  /** The checks at the top of `handleSubmit`, in order; `None` lets the submission go ahead. */
  function SubmitError(useExistingParty: bool, form: FormData, entryCount: nat): (r: Option<string>)
    ensures r.None? <==> && (useExistingParty ==> form.partyId != "")
                         && (!useExistingParty ==> form.partyName != "" && form.partyPhone != "")
                         && entryCount > 0
    ensures useExistingParty && form.partyId == "" ==> r == Some("Select a party")
    ensures !useExistingParty && (form.partyName == "" || form.partyPhone == "") ==> r == Some("Enter party details")
    ensures r.Some? ==> r.value in {"Select a party", "Enter party details", "Add at least one product"}
  {
    if useExistingParty && form.partyId == "" then Some("Select a party")
    else if !useExistingParty && (form.partyName == "" || form.partyPhone == "") then Some("Enter party details")
    else if entryCount == 0 then Some("Add at least one product")
    else None
  }

  /** The body of the `createParty` call made in new-party mode. */
  function NewPartyBody(form: FormData): PartyFields
  {
    PartyFields(Some(form.partyName), Some(form.partyPhone), Some(form.partyPlace))
  }
}
