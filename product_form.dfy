// The product form of the web client: a stored product is loaded with its
// weight shown in kg from 1000 g up, and on submit the weight is converted
// back to grams; with a product id the form updates, otherwise it creates.

module ProductForm {
  import opened Common
  import opened ProductModel

  /** The weight unit picker. */
  datatype Unit = G | Kg

  /**
   * The text in a numeric input: either a number the screen rendered with
   * `toString()`, which `parseFloat` reads back as the same number, or text
   * the user typed.
   */
  datatype NumberText = Rendered(value: real) | Typed(text: string)

  function ParseText(t: NumberText): Number
  {
    match t
    case Rendered(x) => Num(x)
    case Typed(s) => ParseFloat(s)
  }

  /** A rendered natural number reads back exactly as its typed decimal digits do. */
  lemma RenderedNatAsTyped(n: nat)
    ensures ParseText(Rendered(n as real)) == ParseText(Typed(NatToString(n)))
  {
    ParseFloatOfNat(n);
  }

  datatype FormData = FormData(name: string, sku: string, price: NumberText, weight: NumberText,
                               stock: NumberText, weightUnit: Unit,
                               manufactureDate: Option<int>, expireDate: Option<int>)

  /** The empty form: price, weight and stock read "0", the unit is grams. */
  const InitialForm := FormData("", "", Typed("0"), Typed("0"), Typed("0"), G, None, None)

  /** How a stored gram weight is shown: divided by 1000 in kg from 1000 up, else as is in g. */
  function DisplayWeight(grams: real): (r: (real, Unit))
    ensures grams >= 1000.0 ==> r == (grams / 1000.0, Kg)
    ensures grams < 1000.0 ==> r == (grams, G)
  {
    if grams >= 1000.0 then (grams / 1000.0, Kg) else (grams, G)
  }

  /** The weight sent on submit: the parsed input, times 1000 when the unit is kg. */
  function WeightInGrams(f: FormData): (r: Number)
    ensures ParseText(f.weight).NaN? <==> r.NaN?
    ensures r.Num? && f.weightUnit == Kg ==> r.value == ParseText(f.weight).value * 1000.0
    ensures r.Num? && f.weightUnit == G ==> r.value == ParseText(f.weight).value
  {
    match ParseText(f.weight)
    case NaN => NaN
    case Num(x) => Num(if f.weightUnit == Kg then x * 1000.0 else x)
  }

  /**
   * Filling the form from a product. Reading `toString()` of a missing weight
   * or stock throws, so such a product leaves the form unloaded (`None`).
   */
  function FromProduct(p: Product): (r: Option<FormData>)
    ensures r.Some? <==> p.weight.Some? && p.stock.Some?
    ensures r.Some? ==> && r.value.name == p.name && r.value.sku == p.sku
                        && r.value.price == Rendered(p.price) && r.value.stock == Rendered(p.stock.value)
                        && r.value.weight == Rendered(DisplayWeight(p.weight.value).0)
                        && r.value.weightUnit == DisplayWeight(p.weight.value).1
                        && r.value.manufactureDate == p.manufactureDate && r.value.expireDate == p.expireDate
  {
    if p.weight.None? || p.stock.None? then None
    else
      var (shown, unit) := DisplayWeight(p.weight.value);
      Some(FormData(p.name, p.sku, Rendered(p.price), Rendered(shown), Rendered(p.stock.value), unit,
                    p.manufactureDate, p.expireDate))
  }

  /** The body sent on submit: the form fields with the weight replaced by grams. */
  datatype ProductData = ProductData(name: string, sku: string, price: NumberText, weight: Number,
                                     stock: NumberText, weightUnit: Unit,
                                     manufactureDate: Option<int>, expireDate: Option<int>)

  function SubmitData(f: FormData): (d: ProductData)
    ensures d.weight == WeightInGrams(f)
    ensures d.name == f.name && d.sku == f.sku && d.price == f.price && d.stock == f.stock
    ensures d.weightUnit == f.weightUnit && d.manufactureDate == f.manufactureDate && d.expireDate == f.expireDate
  {
    ProductData(f.name, f.sku, f.price, WeightInGrams(f), f.stock, f.weightUnit, f.manufactureDate, f.expireDate)
  }

  datatype Request = Create(data: ProductData) | Update(id: Id, data: ProductData)

  /** With a route id the form updates that product; without one it creates a new one. */
  function Submit(f: FormData, id: Option<Id>): (r: Request)
    ensures r.Update? <==> id.Some?
    ensures r.Update? ==> r.id == id.value
    ensures r.data == SubmitData(f)
  {
    if id.Some? then Update(id.value, SubmitData(f)) else Create(SubmitData(f))
  }

  /** Showing a gram weight and converting the shown value back gives the same grams. */
  lemma DisplayRoundTrip(grams: real)
    ensures var (shown, unit) := DisplayWeight(grams);
      (if unit == Kg then shown * 1000.0 else shown) == grams
  {
  }

  /** Loading a product and submitting the form untouched sends its stored weight back. */
  lemma LoadSubmitRoundTrip(p: Product, id: Option<Id>)
    requires p.weight.Some? && p.stock.Some?
    ensures FromProduct(p).Some?
    ensures Submit(FromProduct(p).value, id).data.weight == Num(p.weight.value)
  {
    DisplayRoundTrip(p.weight.value);
  }
}
