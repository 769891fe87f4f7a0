// The product edit screen of the web client: it loads the first product of
// the by-id listing into the same form as the product form, and always
// submits an update of the product named by the route.

module ProductEdit {
  import opened Common
  import opened ProductModel
  import opened ProductForm
  import opened ProductController

  /**
   * The form after the by-id listing answered: its first product converted
   * for display; an empty list (or a product lacking weight or stock) throws
   * while reading it, which leaves the form unloaded.
   */
  function LoadFirst(products: seq<Product>): (r: Option<FormData>)
    ensures products == [] ==> r.None?
    ensures products != [] ==> r == FromProduct(products[0])
  {
    if products == [] then None else FromProduct(products[0])
  }

  /** Saving: always an update of the route's product, never a create. */
  function Save(f: FormData, id: Id): (r: Request)
    ensures r.Update? && r.id == id
    ensures r.data == SubmitData(f)
  {
    Update(id, SubmitData(f))
  }

  /**
   * Over the server's by-id listing: a stored id loads that stored product
   * into the form, and an unknown id leaves the form unloaded.
   */
  lemma {:induction false} EditLoadsStoredProduct(products: ProductCollection, id: Id)
    requires products.Valid() && IsObjectId(id)
    ensures var r := GetProductById(products, id);
      && r.Ok?
      && (id !in ProductIds(products.docs) ==> LoadFirst(r.body).None?)
      && (id in ProductIds(products.docs) ==>
            exists p :: p in products.docs && p.id == id && LoadFirst(r.body) == FromProduct(p))
  {
    var r := GetProductById(products, id);
    if id in ProductIds(products.docs) {
      var p := r.body[0];
      assert p in r.body;
      assert p in products.docs && p.id == id && LoadFirst(r.body) == FromProduct(p);
    }
  }

  /**
   * Loading the product the server's by-id listing returns and saving it
   * unchanged sends the stored gram weight back to that same product.
   */
  lemma {:induction false} LoadSaveRoundTrip(products: seq<Product>, id: Id)
    requires products != [] && products[0].weight.Some? && products[0].stock.Some?
    ensures LoadFirst(products).Some?
    ensures Save(LoadFirst(products).value, id).data.weight == Num(products[0].weight.value)
  {
    LoadSubmitRoundTrip(products[0], Some(id));
  }
}
