/** The `Product` schema (server/models/Product.js) and its collection. */
module ProductModel {
  import opened Common

  datatype Product = Product(id: Id, name: string, sku: string, weight: Option<real>,
                             manufactureDate: Option<int>, expireDate: Option<int>,
                             stock: Option<real>, price: real, createdAt: int)

  /** A request body for a product; absent fields are `None`. */
  datatype ProductFields = ProductFields(name: Option<string>, sku: Option<string>, weight: Option<real>,
                                         manufactureDate: Option<int>, expireDate: Option<int>,
                                         stock: Option<real>, price: Option<real>)

  /** `{...body, sku}`: the generated SKU overrides any SKU in the body; the
      price must be present for the document to exist at all. */
  function NewProduct(body: ProductFields, sku: string, id: Id, now: int): Product
    requires body.price.Some?
  {
    Product(id, Get(body.name, ""), sku, body.weight, body.manufactureDate, body.expireDate,
            body.stock, body.price.value, now)
  }

  function PatchProduct(p: Product, body: ProductFields): (r: Product)
    ensures r.id == p.id && r.createdAt == p.createdAt
    ensures r.name == Get(body.name, p.name) && r.sku == Get(body.sku, p.sku)
    ensures r.price == Get(body.price, p.price)
    ensures body.weight.Some? ==> r.weight == body.weight
    ensures body.weight.None? ==> r.weight == p.weight
    ensures body.manufactureDate.Some? ==> r.manufactureDate == body.manufactureDate
    ensures body.manufactureDate.None? ==> r.manufactureDate == p.manufactureDate
    ensures body.expireDate.Some? ==> r.expireDate == body.expireDate
    ensures body.expireDate.None? ==> r.expireDate == p.expireDate
    ensures body.stock.Some? ==> r.stock == body.stock
    ensures body.stock.None? ==> r.stock == p.stock
  {
    p.(name := Get(body.name, p.name), sku := Get(body.sku, p.sku),
       weight := if body.weight.Some? then body.weight else p.weight,
       manufactureDate := if body.manufactureDate.Some? then body.manufactureDate else p.manufactureDate,
       expireDate := if body.expireDate.Some? then body.expireDate else p.expireDate,
       stock := if body.stock.Some? then body.stock else p.stock,
       price := Get(body.price, p.price))
  }

  function ProductIds(docs: seq<Product>): (r: seq<Id>)
    ensures |r| == |docs| && forall i :: 0 <= i < |docs| ==> r[i] == docs[i].id
  {
    seq(|docs|, i requires 0 <= i < |docs| => docs[i].id)
  }

  function Skus(docs: seq<Product>): (r: seq<string>)
    ensures |r| == |docs| && forall i :: 0 <= i < |docs| ==> r[i] == docs[i].sku
  {
    seq(|docs|, i requires 0 <= i < |docs| => docs[i].sku)
  }

  /** `Product.findOne({_id: id})`. */
  function FindProduct(docs: seq<Product>, id: Id): (r: Option<Product>)
    ensures r.Some? ==> r.value in docs && r.value.id == id
    ensures r.None? <==> id !in ProductIds(docs)
  {
    match IndexOf(ProductIds(docs), id)
    case None => None
    case Some(k) => Some(docs[k])
  }

  class ProductCollection {
    var docs: seq<Product>

    /** `_id` and `sku` are unique keys. */
    ghost predicate Valid()
      reads this
    {
      NoDuplicates(ProductIds(docs)) && NoDuplicates(Skus(docs))
    }

    constructor()
      ensures Valid() && docs == []
    {
      docs := [];
    }
  }
}
