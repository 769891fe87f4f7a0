/** The product handlers (server/controllers/productController.js): the SKU
    generator and the product collection's handlers. Each handler's catch
    answers 400 with the error's message. */
module ProductController {
  import opened Common
  import opened ProductModel

  const SkuAlphabet: string := "ABCDEFGHIJKLMNOPQRSTUVWXYZ0123456789"
  const SkuPrefix: string := "SV"
  const ProductDeleted: string := "Product deleted successfully"

  /** A draw of `Math.random()` lies in [0, 1). */
  ghost predicate ValidDraws(draws: seq<real>)
  {
    |draws| == 4 && forall i :: 0 <= i < 4 ==> 0.0 <= draws[i] < 1.0
  }

  /** `Math.floor(r * characters.length)` for a draw `r`. */
  function DrawIndex(r: real): (k: nat)
    requires 0.0 <= r < 1.0
    ensures k < |SkuAlphabet|
  {
    (r * 36.0).Floor
  }

  /** The SKU the draws select: the prefix, then one alphabet character per draw. */
  ghost function DrawnSku(draws: seq<real>): string
    requires ValidDraws(draws)
  {
    SkuPrefix + seq(4, i requires 0 <= i < 4 => SkuAlphabet[DrawIndex(draws[i])])
  }

  /** `generateSKU`, given the four random draws it makes. */
  method GenerateSku(draws: seq<real>) returns (sku: string)
    requires ValidDraws(draws)
    ensures |sku| == 6 && sku[..2] == SkuPrefix
    ensures forall i :: 2 <= i < 6 ==> sku[i] in SkuAlphabet
    ensures forall i :: 0 <= i < 4 ==> sku[i + 2] == SkuAlphabet[DrawIndex(draws[i])]
    ensures sku == DrawnSku(draws)
  {
    sku := SkuPrefix;
    for i := 0 to 4
      invariant |sku| == 2 + i && sku[..2] == SkuPrefix
      invariant forall j :: 0 <= j < i ==> sku[j + 2] == SkuAlphabet[DrawIndex(draws[j])]
    {
      sku := sku + [SkuAlphabet[DrawIndex(draws[i])]];
    }
    forall i | 2 <= i < 6 ensures sku[i] in SkuAlphabet {
      assert sku[(i - 2) + 2] == SkuAlphabet[DrawIndex(draws[i - 2])];
    }
    assert sku == SkuPrefix + sku[2..];
  }

  /** A body the `Product` validators accept once the SKU is added. */
  predicate CreatableBody(body: ProductFields)
  {
    body.name.Some? && body.name.value != "" && body.price.Some?
  }

  /** `createProduct`: stores the body with the generated SKU, which replaces
      any SKU the body carries, and answers 201 with the new record. */
  method CreateProduct(products: ProductCollection, body: ProductFields, draws: seq<real>, newId: Id, now: int)
    returns (res: Response<Product>)
    requires products.Valid() && ValidDraws(draws)
    modifies products
    ensures products.Valid()
    ensures !CreatableBody(body) ==> res == Fail(400, ValidationMessage("Product"))
    ensures res.Ok? <==> CreatableBody(body) && newId !in ProductIds(old(products.docs)) &&
                         DrawnSku(draws) !in Skus(old(products.docs))
    ensures CreatableBody(body) && !res.Ok? ==> res == Fail(400, DuplicateKeyMessage)
    ensures res.Ok? ==>
      && res.status == 201 && res.body == NewProduct(body, DrawnSku(draws), newId, now)
      && |res.body.sku| == 6 && res.body.sku[..2] == SkuPrefix
      && (forall i :: 0 <= i < 4 ==> res.body.sku[i + 2] == SkuAlphabet[DrawIndex(draws[i])])
    ensures products.docs == if res.Ok? then old(products.docs) + [res.body] else old(products.docs)
  {
    var sku := GenerateSku(draws);
    if !CreatableBody(body) {
      return Fail(400, ValidationMessage("Product"));
    }
    var p := NewProduct(body, sku, newId, now);
    if newId in ProductIds(products.docs) || sku in Skus(products.docs) {
      return Fail(400, DuplicateKeyMessage);
    }
    assert ProductIds(products.docs + [p]) == ProductIds(products.docs) + [newId];
    assert Skus(products.docs + [p]) == Skus(products.docs) + [sku];
    NoDuplicatesAppend(ProductIds(products.docs), newId);
    NoDuplicatesAppend(Skus(products.docs), sku);
    products.docs := products.docs + [p];
    res := Ok(201, p);
  }

  /** `getProducts`: every stored product, in storage order. */
  function GetProducts(products: ProductCollection): (r: Response<seq<Product>>)
    reads products
    ensures r.Ok? && r.status == 200 && |r.body| == |products.docs|
    ensures forall i :: 0 <= i < |r.body| ==> r.body[i] == products.docs[i]
  {
    Ok(200, products.docs)
  }

  /** `getProductById`: `find({_id: id})` answers a list, never 404. */
  function GetProductById(products: ProductCollection, id: Id): (r: Response<seq<Product>>)
    requires products.Valid()
    reads products
    ensures !IsObjectId(id) ==> r == Fail(400, CastErrorMessage(id, "_id"))
    ensures IsObjectId(id) ==> r.Ok? && r.status == 200
    ensures r.Ok? ==> |r.body| <= 1 && (|r.body| == 1 <==> id in ProductIds(products.docs))
    ensures r.Ok? ==> forall p :: p in r.body ==> p in products.docs && p.id == id
  {
    if !IsObjectId(id) then Fail(400, CastErrorMessage(id, "_id"))
    else match FindProduct(products.docs, id)
      case None => Ok(200, [])
      case Some(p) => Ok(200, [p])
  }

  /** Does a product other than the one at `k` already hold `sku`? */
  predicate SkuHeldElsewhere(docs: seq<Product>, k: nat, sku: string)
  {
    exists j :: 0 <= j < |docs| && j != k && docs[j].sku == sku
  }

  /** `updateProduct`: the body's fields overwrite the stored ones and the
      updated record is returned; an unknown id answers `null`, not 404. A SKU
      already held by another product is refused by the unique index. */
  method UpdateProduct(products: ProductCollection, id: Id, body: ProductFields)
    returns (res: Response<Option<Product>>)
    requires products.Valid()
    modifies products
    ensures products.Valid()
    ensures !IsObjectId(id) ==> res == Fail(400, CastErrorMessage(id, "_id")) && products.docs == old(products.docs)
    ensures IsObjectId(id) && id !in ProductIds(old(products.docs)) ==>
      res == Ok(200, None) && products.docs == old(products.docs)
    ensures IsObjectId(id) && id in ProductIds(old(products.docs)) ==>
      exists k :: 0 <= k < |old(products.docs)| && old(products.docs)[k].id == id &&
        var p := PatchProduct(old(products.docs)[k], body);
        if SkuHeldElsewhere(old(products.docs), k, p.sku)
        then res == Fail(400, DuplicateKeyMessage) && products.docs == old(products.docs)
        else res == Ok(200, Some(p)) && products.docs == old(products.docs)[k := p]
  {
    if !IsObjectId(id) {
      return Fail(400, CastErrorMessage(id, "_id"));
    }
    var k := IndexOf(ProductIds(products.docs), id);
    if k.None? {
      return Ok(200, None);
    }
    var p := PatchProduct(products.docs[k.value], body);
    if exists j :: 0 <= j < |products.docs| && j != k.value && products.docs[j].sku == p.sku {
      return Fail(400, DuplicateKeyMessage);
    }
    ghost var before := products.docs;
    products.docs := products.docs[k.value := p];
    assert ProductIds(products.docs) == ProductIds(before);
    forall i, j | 0 <= i < j < |products.docs| ensures Skus(products.docs)[i] != Skus(products.docs)[j] {
      if i != k.value && j != k.value {
        assert Skus(before)[i] != Skus(before)[j];
      }
    }
    res := Ok(200, Some(p));
  }

  /** Removing the product at `k` drops exactly the products with its id, since ids are unique. */
  lemma RemovesOnlyThatId(before: seq<Product>, k: nat, id: Id)
    requires k < |before| && before[k].id == id && NoDuplicates(ProductIds(before))
    ensures forall x :: x in RemoveAt(before, k) <==> x in before && x.id != id
    ensures id !in ProductIds(RemoveAt(before, k))
  {
    var after := RemoveAt(before, k);
    forall j | 0 <= j < |after| ensures after[j].id != id {
      if j < k {
        assert ProductIds(before)[j] != ProductIds(before)[k];
      } else {
        assert ProductIds(before)[j + 1] != ProductIds(before)[k];
      }
    }
    forall x | x in before ensures x in after <==> x.id != id {
      var j :| 0 <= j < |before| && before[j] == x;
      if j < k {
        assert after[j] == x;
      } else if j > k {
        assert after[j - 1] == x;
      }
    }
  }

  /** `deleteProduct`: removes the product if present and reports success either way. */
  method DeleteProduct(products: ProductCollection, id: Id) returns (res: Response<string>)
    requires products.Valid()
    modifies products
    ensures products.Valid()
    ensures !IsObjectId(id) ==> res == Fail(400, CastErrorMessage(id, "_id")) && products.docs == old(products.docs)
    ensures IsObjectId(id) ==> res == Ok(200, ProductDeleted)
    ensures IsObjectId(id) ==> id !in ProductIds(products.docs)
    ensures forall p :: p in products.docs <==> p in old(products.docs) && (IsObjectId(id) ==> p.id != id)
    ensures IsObjectId(id) && id !in ProductIds(old(products.docs)) ==> products.docs == old(products.docs)
    ensures IsObjectId(id) && id in ProductIds(old(products.docs)) ==>
      products.docs == RemoveAt(old(products.docs), IndexOf(ProductIds(old(products.docs)), id).value)
  {
    if !IsObjectId(id) {
      return Fail(400, CastErrorMessage(id, "_id"));
    }
    var k := IndexOf(ProductIds(products.docs), id);
    if k.Some? {
      ghost var before := products.docs;
      assert ProductIds(RemoveAt(before, k.value)) == RemoveAt(ProductIds(before), k.value);
      assert Skus(RemoveAt(before, k.value)) == RemoveAt(Skus(before), k.value);
      NoDuplicatesRemoveAt(ProductIds(before), k.value);
      NoDuplicatesRemoveAt(Skus(before), k.value);
      products.docs := RemoveAt(products.docs, k.value);
      RemovesOnlyThatId(before, k.value, id);
    }
    res := Ok(200, ProductDeleted);
  }
}
