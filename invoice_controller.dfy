/** The invoice handlers (server/controllers/invoiceController.js): building
    and numbering a new invoice from the stored party and products, and the
    invoice collection's handlers. Each handler's catch answers 400 with the
    error's message. */
module InvoiceController {
  import opened Common
  import opened InvoiceModel
  import opened PartyModel
  import opened ProductModel

  const PartyNotFound: string := "Party not found"
  const InvoiceNotFound: string := "Invoice not found"
  const InvoiceDeleted: string := "Invoice deleted successfully"

  /** One requested line: the product and quantity, and an optional flat discount. */
  datatype ItemRequest = ItemRequest(productId: Id, quantity: real, discount: Option<real>)

  /** The body of `createInvoice`; `tax` and `discount` are the remaining
      invoice fields, stored as given. */
  datatype InvoiceRequest = InvoiceRequest(partyId: Id, paymentStatus: Option<string>, items: seq<ItemRequest>,
                                           tax: Option<real>, discount: Option<real>)

  // ---------------------------------------------------------------------
  // Numbering

  /** The number given to a new invoice when the store holds `count` invoices. */
  function InvoiceNumberFor(count: nat): string
  {
    "INV-" + PadStart(NatToString(count + 1), 5, '0')
  }

  /** An invoice number is "INV-" and at least five digits that read back as
      `count + 1`, and it ends with `count + 1` written out in full. */
  lemma InvoiceNumberForm(count: nat)
    ensures var r := InvoiceNumberFor(count);
      && |r| >= 9 && r[..4] == "INV-"
      && AllDigits(r[4..]) && DigitsValue(r[4..]) == count + 1
      && |NatToString(count + 1)| <= |r| - 4
      && r[|r| - |NatToString(count + 1)|..] == NatToString(count + 1)
  {
    var digits := NatToString(count + 1);
    NatToStringDigits(count + 1);
    var padded := PadStart(digits, 5, '0');
    var r := InvoiceNumberFor(count);
    assert r[4..] == padded;
    assert padded == Repeat('0', |padded| - |digits|) + digits;
    LeadingZerosValue(|padded| - |digits|, digits);
    assert r[|r| - |digits|..] == padded[|padded| - |digits|..];
  }

  /** Distinct counts give distinct numbers. */
  lemma InvoiceNumberInjective(a: nat, b: nat)
    requires a != b
    ensures InvoiceNumberFor(a) != InvoiceNumberFor(b)
  {
    InvoiceNumberForm(a);
    InvoiceNumberForm(b);
  }

  /** The first number handed out, and one past five digits, which is not cut short. */
  lemma InvoiceNumberExamples()
    ensures InvoiceNumberFor(0) == "INV-00001"
    ensures InvoiceNumberFor(123455) == "INV-123456"
  {
    assert NatToString(1) == "1";
    assert Repeat('0', 4) == "0000";
    SixDigits();
  }

  lemma SixDigits()
    ensures NatToString(123456) == "123456"
  {
    assert NatToString(12) == "12";
    assert NatToString(123) == "123";
    assert NatToString(1234) == "1234";
    assert NatToString(12345) == "12345";
  }

  // ---------------------------------------------------------------------
  // Pricing the requested lines

  /** `Product.findOne({_id: productId})` for one line, with the handler's answers. */
  function ItemLookup(products: seq<Product>, req: ItemRequest): Response<Product>
  {
    if !IsObjectId(req.productId) then Fail(400, CastErrorMessage(req.productId, "_id"))
    else match FindProduct(products, req.productId)
      case None => Fail(404, "Product not found: " + req.productId)
      case Some(p) => Ok(200, p)
  }

  /** The stored line for a product and a requested line. */
  function LineFor(p: Product, req: ItemRequest): Item
  {
    var discount := Get(req.discount, 0.0);
    Item(p.id, p.name, req.quantity, p.price, discount, req.quantity * p.price - discount)
  }

  function SumTotals(lines: seq<Item>): real
  {
    if lines == [] then 0.0 else SumTotals(lines[..|lines| - 1]) + lines[|lines| - 1].total
  }

  datatype Pricing = Priced(lines: seq<Item>, subtotal: real) | Stopped(status: nat, message: string)

  /** The loop over the requested lines, one line at a time: the first line
      whose product cannot be found stops it. */
  function PriceAll(products: seq<Product>, items: seq<ItemRequest>): Pricing
  {
    if items == [] then Priced([], 0.0)
    else match PriceAll(products, items[..|items| - 1])
      case Stopped(s, m) => Stopped(s, m)
      case Priced(lines, subtotal) =>
        match ItemLookup(products, items[|items| - 1])
        case Fail(s, m) => Stopped(s, m)
        case Ok(_, p) =>
          var line := LineFor(p, items[|items| - 1]);
          Priced(lines + [line], subtotal + line.total)
  }

  /** A stored line copies the product's id, name and price, keeps the
      requested quantity, takes the discount (0 when absent) as a flat amount
      and totals `quantity * price - discount`. */
  ghost predicate LineCopies(products: seq<Product>, req: ItemRequest, it: Item)
  {
    && ItemLookup(products, req).Ok?
    && var p := ItemLookup(products, req).body;
    && it.productId == p.id && it.name == p.name && it.price == p.price
    && it.quantity == req.quantity && it.discount == Get(req.discount, 0.0)
    && it.total == req.quantity * p.price - it.discount
  }

  /** When every product is found, there is one line per requested line, in
      order, and the subtotal is the sum of the line totals. */
  lemma {:induction false} PricedLines(products: seq<Product>, items: seq<ItemRequest>)
    requires PriceAll(products, items).Priced?
    ensures var r := PriceAll(products, items);
      && |r.lines| == |items| && r.subtotal == SumTotals(r.lines)
      && forall i :: 0 <= i < |items| ==> LineCopies(products, items[i], r.lines[i])
  {
    if items != [] {
      var n := |items| - 1;
      var init := items[..n];
      var prev := PriceAll(products, init);
      assert prev.Priced?;
      PricedLines(products, init);
      var found := ItemLookup(products, items[n]);
      assert found.Ok?;
      var line := LineFor(found.body, items[n]);
      var r := PriceAll(products, items);
      assert r == Priced(prev.lines + [line], prev.subtotal + line.total);
      assert r.lines[..n] == prev.lines && r.lines[n] == line;
      forall i | 0 <= i < |items| ensures LineCopies(products, items[i], r.lines[i]) {
        if i < n {
          CopiesTransfer(products, init[i], items[i], prev.lines[i], r.lines[i]);
        } else {
          LineForCopies(products, items[n]);
        }
      }
    }
  }

  lemma LineForCopies(products: seq<Product>, req: ItemRequest)
    requires ItemLookup(products, req).Ok?
    ensures LineCopies(products, req, LineFor(ItemLookup(products, req).body, req))
  {
  }

  lemma CopiesTransfer(products: seq<Product>, a: ItemRequest, b: ItemRequest, x: Item, y: Item)
    requires a == b && x == y && LineCopies(products, a, x)
    ensures LineCopies(products, b, y)
  {
  }

  /** `k` is the first requested line whose product cannot be found. */
  ghost predicate FirstFailure(products: seq<Product>, items: seq<ItemRequest>, k: int)
  {
    && 0 <= k < |items| && ItemLookup(products, items[k]).Fail?
    && forall j :: 0 <= j < k ==> ItemLookup(products, items[j]).Ok?
  }

  /** Pricing stops exactly when some product cannot be found, and then with
      the answer for the first such line. */
  lemma PricingStopsAtFirstFailure(products: seq<Product>, items: seq<ItemRequest>)
    ensures PriceAll(products, items).Stopped? <==>
            exists k :: 0 <= k < |items| && ItemLookup(products, items[k]).Fail?
    ensures forall k :: FirstFailure(products, items, k) ==>
            PriceAll(products, items) ==
            Stopped(ItemLookup(products, items[k]).status, ItemLookup(products, items[k]).message)
  {
    StoppedIffSomeFailure(products, items);
    forall k | FirstFailure(products, items, k)
      ensures PriceAll(products, items) ==
              Stopped(ItemLookup(products, items[k]).status, ItemLookup(products, items[k]).message)
    {
      StoppedAtFirstFailure(products, items, k);
    }
  }

  /** One step of the pricing loop, once the earlier lines have been priced or have failed. */
  lemma PriceStep(products: seq<Product>, items: seq<ItemRequest>)
    requires items != []
    ensures var init, last := items[..|items| - 1], items[|items| - 1];
      && (PriceAll(products, init).Stopped? ==> PriceAll(products, items) == PriceAll(products, init))
      && (PriceAll(products, init).Priced? && ItemLookup(products, last).Fail? ==>
            PriceAll(products, items) == Stopped(ItemLookup(products, last).status, ItemLookup(products, last).message))
      && (PriceAll(products, init).Priced? && ItemLookup(products, last).Ok? ==>
            var line := LineFor(ItemLookup(products, last).body, last);
            PriceAll(products, items) ==
              Priced(PriceAll(products, init).lines + [line], PriceAll(products, init).subtotal + line.total))
  {
  }

  lemma {:induction false} StoppedIffSomeFailure(products: seq<Product>, items: seq<ItemRequest>)
    ensures PriceAll(products, items).Stopped? <==>
            exists k :: 0 <= k < |items| && ItemLookup(products, items[k]).Fail?
  {
    if items != [] {
      var n := |items| - 1;
      var init := items[..n];
      StoppedIffSomeFailure(products, init);
      PriceStep(products, items);
      if PriceAll(products, init).Stopped? {
        var k :| 0 <= k < n && ItemLookup(products, init[k]).Fail?;
        assert items[k] == init[k];
      } else {
        forall k | 0 <= k < n ensures ItemLookup(products, items[k]).Ok? {
          assert items[k] == init[k];
        }
      }
    }
  }

  lemma {:induction false} StoppedAtFirstFailure(products: seq<Product>, items: seq<ItemRequest>, k: int)
    requires FirstFailure(products, items, k)
    ensures PriceAll(products, items) ==
            Stopped(ItemLookup(products, items[k]).status, ItemLookup(products, items[k]).message)
  {
    var n := |items| - 1;
    var init := items[..n];
    PriceStep(products, items);
    if k < n {
      assert forall j :: 0 <= j <= k ==> init[j] == items[j];
      assert FirstFailure(products, init, k);
      StoppedAtFirstFailure(products, init, k);
    } else {
      LastIsFirstFailure(products, items);
    }
  }

  lemma LastIsFirstFailure(products: seq<Product>, items: seq<ItemRequest>)
    requires FirstFailure(products, items, |items| - 1)
    ensures PriceAll(products, items[..|items| - 1]).Priced?
  {
    var init := items[..|items| - 1];
    StoppedIffSomeFailure(products, init);
    assert forall j :: 0 <= j < |init| ==> init[j] == items[j];
  }

  lemma {:induction false} StoppedPrefix(products: seq<Product>, items: seq<ItemRequest>, n: nat)
    requires n <= |items| && PriceAll(products, items[..n]).Stopped?
    ensures PriceAll(products, items) == PriceAll(products, items[..n])
  {
    if n < |items| {
      var init := items[..|items| - 1];
      assert init[..n] == items[..n];
      StoppedPrefix(products, init, n);
    } else {
      assert items[..n] == items;
    }
  }

  /** The handler's loop: looks each product up in turn, accumulating the
      subtotal and the stored lines, and stops at the first one not found. */
  method PriceItems(products: seq<Product>, items: seq<ItemRequest>) returns (r: Pricing)
    ensures r == PriceAll(products, items)
  {
    var subtotal := 0.0;
    var lines: seq<Item> := [];
    for i := 0 to |items|
      invariant PriceAll(products, items[..i]) == Priced(lines, subtotal)
    {
      assert items[..i + 1][..i] == items[..i];
      var found := ItemLookup(products, items[i]);
      if found.Fail? {
        StoppedPrefix(products, items, i + 1);
        return Stopped(found.status, found.message);
      }
      var line := LineFor(found.body, items[i]);
      subtotal := subtotal + line.total;
      lines := lines + [line];
    }
    assert items[..|items|] == items;
    r := Priced(lines, subtotal);
  }

  // ---------------------------------------------------------------------
  // Creating an invoice

  /** The invoice `createInvoice` saves: numbered after the `count` stored
      invoices, with the party's name and phone and the products' names and
      prices as they are at creation, `total = subtotal + tax`, tax and
      discount 0 and status "unpaid" when absent, and the creation time. */
  ghost predicate CreatedFrom(inv: Invoice, party: Party, products: seq<Product>, req: InvoiceRequest,
                              count: nat, id: Id, now: int)
  {
    && inv.id == id && inv.invoiceNumber == InvoiceNumberFor(count)
    && inv.partyId == req.partyId && inv.partyName == party.name && inv.partyPhone == party.phoneNumber
    && |inv.items| == |req.items|
    && (forall i :: 0 <= i < |req.items| ==> LineCopies(products, req.items[i], inv.items[i]))
    && inv.subtotal == SumTotals(inv.items)
    && inv.tax == Get(req.tax, 0.0) && inv.discount == Get(req.discount, 0.0)
    && inv.total == inv.subtotal + inv.tax
    && inv.paymentStatus == Get(req.paymentStatus, Unpaid) && inv.createdAt == now
  }

  /** What the schema's validators ask of such an invoice: the party's name
      and phone, every product's name, and a status from the enum. */
  ghost predicate Acceptable(party: Party, products: seq<Product>, req: InvoiceRequest)
  {
    && party.name != "" && party.phoneNumber != ""
    && IsPaymentStatus(Get(req.paymentStatus, Unpaid))
    && forall i :: 0 <= i < |req.items| ==>
         ItemLookup(products, req.items[i]).Ok? && ItemLookup(products, req.items[i]).body.name != ""
  }

  /** An invoice built from a request passes the schema's validators exactly
      when the request is acceptable. */
  lemma ValidIffAcceptable(inv: Invoice, party: Party, products: seq<Product>, req: InvoiceRequest,
                           count: nat, id: Id, now: int)
    requires CreatedFrom(inv, party, products, req, count, id, now)
    ensures ValidInvoice(inv) <==> Acceptable(party, products, req)
  {
    forall i | 0 <= i < |req.items|
      ensures ItemLookup(products, req.items[i]).Ok?
      ensures ValidItem(inv.items[i]) <==> ItemLookup(products, req.items[i]).body.name != ""
    {
      assert LineCopies(products, req.items[i], inv.items[i]);
    }
  }

  /** `createInvoice`. */
  method CreateInvoice(invoices: InvoiceCollection, parties: PartyCollection, products: ProductCollection,
                       req: InvoiceRequest, newId: Id, now: int)
    returns (res: Response<Invoice>)
    requires invoices.Valid()
    modifies invoices
    ensures invoices.Valid()
    ensures !IsObjectId(req.partyId) ==> res == Fail(400, CastErrorMessage(req.partyId, "_id"))
    ensures IsObjectId(req.partyId) && FindParty(parties.docs, req.partyId).None? ==>
      res == Fail(404, PartyNotFound)
    ensures IsObjectId(req.partyId) && FindParty(parties.docs, req.partyId).Some? ==>
      var pricing := PriceAll(products.docs, req.items);
      var party := FindParty(parties.docs, req.partyId).value;
      var count := |old(invoices.docs)|;
      && (pricing.Stopped? ==> res == Fail(pricing.status, pricing.message))
      && (pricing.Priced? && !Acceptable(party, products.docs, req) ==>
            res == Fail(400, ValidationMessage("Invoice")))
      && (pricing.Priced? && Acceptable(party, products.docs, req) ==>
            if newId in InvoiceIds(old(invoices.docs)) || InvoiceNumberFor(count) in InvoiceNumbers(old(invoices.docs))
            then res == Fail(400, DuplicateKeyMessage)
            else res.Ok? && res.status == 201 && CreatedFrom(res.body, party, products.docs, req, count, newId, now))
    ensures invoices.docs == if res.Ok? then old(invoices.docs) + [res.body] else old(invoices.docs)
  {
    if !IsObjectId(req.partyId) {
      return Fail(400, CastErrorMessage(req.partyId, "_id"));
    }
    var party := FindParty(parties.docs, req.partyId);
    if party.None? {
      return Fail(404, PartyNotFound);
    }
    var pricing := PriceItems(products.docs, req.items);
    if pricing.Stopped? {
      return Fail(pricing.status, pricing.message);
    }
    PricedLines(products.docs, req.items);
    var tax := Get(req.tax, 0.0);
    var total := pricing.subtotal + tax;
    var number := InvoiceNumberFor(|invoices.docs|);
    var inv := Invoice(newId, number, req.partyId, party.value.name, party.value.phoneNumber,
                       pricing.lines, pricing.subtotal, tax, Get(req.discount, 0.0), total,
                       Get(req.paymentStatus, Unpaid), now);
    assert CreatedFrom(inv, party.value, products.docs, req, |invoices.docs|, newId, now);
    ValidIffAcceptable(inv, party.value, products.docs, req, |invoices.docs|, newId, now);
    if !ValidInvoice(inv) {
      return Fail(400, ValidationMessage("Invoice"));
    }
    if newId in InvoiceIds(invoices.docs) || number in InvoiceNumbers(invoices.docs) {
      return Fail(400, DuplicateKeyMessage);
    }
    assert InvoiceIds(invoices.docs + [inv]) == InvoiceIds(invoices.docs) + [newId];
    assert InvoiceNumbers(invoices.docs + [inv]) == InvoiceNumbers(invoices.docs) + [number];
    NoDuplicatesAppend(InvoiceIds(invoices.docs), newId);
    NoDuplicatesAppend(InvoiceNumbers(invoices.docs), number);
    invoices.docs := invoices.docs + [inv];
    res := Ok(201, inv);
  }

  // ---------------------------------------------------------------------
  // Reading, updating and deleting invoices

  /** The party fields `populate` selects. */
  datatype PartyRef = PartyRef(id: Id, name: string, phoneNumber: string, place: string)

  /** An invoice as the list and get handlers answer it: `partyId` is
      populated with the stored party, or `null` once it has been deleted. */
  datatype InvoiceView = InvoiceView(invoice: Invoice, party: Option<PartyRef>)

  function PopulatedParty(parties: seq<Party>, id: Id): Option<PartyRef>
  {
    match FindParty(parties, id)
    case None => None
    case Some(p) => Some(PartyRef(p.id, p.name, p.phoneNumber, p.place))
  }

  function Populate(docs: seq<Invoice>, parties: seq<Party>): seq<InvoiceView>
  {
    seq(|docs|, i requires 0 <= i < |docs| => InvoiceView(docs[i], PopulatedParty(parties, docs[i].partyId)))
  }

  function InvoicesOf(views: seq<InvoiceView>): seq<Invoice>
  {
    seq(|views|, i requires 0 <= i < |views| => views[i].invoice)
  }

  function CreatedAtKey(inv: Invoice): real
  {
    inv.createdAt as real
  }

  /** `getInvoices`: every stored invoice, newest first, each with its party. */
  function GetInvoices(invoices: InvoiceCollection, parties: PartyCollection): (r: Response<seq<InvoiceView>>)
    reads invoices, parties
    ensures r.Ok? && r.status == 200
    ensures multiset(InvoicesOf(r.body)) == multiset(invoices.docs)
    ensures forall i, j :: 0 <= i < j < |r.body| ==> r.body[i].invoice.createdAt >= r.body[j].invoice.createdAt
    ensures forall i :: 0 <= i < |r.body| ==> r.body[i].party == PopulatedParty(parties.docs, r.body[i].invoice.partyId)
  {
    var sorted := SortBy(invoices.docs, CreatedAtKey, true);
    SortByCorrect(invoices.docs, CreatedAtKey, true);
    var views := Populate(sorted, parties.docs);
    assert InvoicesOf(views) == sorted;
    Ok(200, views)
  }

  /** `getInvoice`: the invoice with the id, with its party, or 404. */
  function GetInvoice(invoices: InvoiceCollection, parties: PartyCollection, id: Id): (r: Response<InvoiceView>)
    reads invoices, parties
    ensures !IsObjectId(id) ==> r == Fail(400, CastErrorMessage(id, "_id"))
    ensures IsObjectId(id) ==> (r.Fail? <==> id !in InvoiceIds(invoices.docs))
    ensures r.Fail? && IsObjectId(id) ==> r == Fail(404, InvoiceNotFound)
    ensures r.Ok? ==> && r.status == 200 && r.body.invoice in invoices.docs && r.body.invoice.id == id
                      && r.body.party == PopulatedParty(parties.docs, r.body.invoice.partyId)
  {
    if !IsObjectId(id) then Fail(400, CastErrorMessage(id, "_id"))
    else match FindInvoice(invoices.docs, id)
      case None => Fail(404, InvoiceNotFound)
      case Some(inv) => Ok(200, InvoiceView(inv, PopulatedParty(parties.docs, inv.partyId)))
  }

  /** `Invoice.find({partyId})`: the stored invoices naming the party, in storage order. */
  function ForParty(docs: seq<Invoice>, partyId: Id): (r: seq<Invoice>)
    ensures multiset(r) <= multiset(docs)
    ensures forall i :: 0 <= i < |r| ==> r[i].partyId == partyId
    ensures forall i :: 0 <= i < |docs| && docs[i].partyId == partyId ==> docs[i] in r
  {
    if docs == [] then []
    else
      assert docs == [docs[0]] + docs[1..];
      (if docs[0].partyId == partyId then [docs[0]] else []) + ForParty(docs[1..], partyId)
  }

  /** Sorting the party's invoices keeps exactly them. */
  lemma ByPartySorted(docs: seq<Invoice>, partyId: Id)
    ensures var sorted := SortBy(ForParty(docs, partyId), CreatedAtKey, true);
      && multiset(sorted) <= multiset(docs)
      && (forall i :: 0 <= i < |sorted| ==> sorted[i].partyId == partyId)
      && (forall i :: 0 <= i < |docs| && docs[i].partyId == partyId ==> docs[i] in sorted)
      && SortedBy(sorted, CreatedAtKey, true)
  {
    var matching := ForParty(docs, partyId);
    var sorted := SortBy(matching, CreatedAtKey, true);
    SortByCorrect(matching, CreatedAtKey, true);
    forall i | 0 <= i < |sorted| ensures sorted[i].partyId == partyId {
      assert sorted[i] in multiset(matching);
    }
    forall i | 0 <= i < |docs| && docs[i].partyId == partyId ensures docs[i] in sorted {
      assert docs[i] in multiset(matching);
    }
  }

  /** `getInvoicesByParty`: exactly the invoices naming the party, newest
      first; an unknown party gives an empty list. */
  function GetInvoicesByParty(invoices: InvoiceCollection, parties: PartyCollection, partyId: Id)
    : (r: Response<seq<InvoiceView>>)
    reads invoices, parties
    ensures !IsObjectId(partyId) ==> r == Fail(400, CastErrorMessage(partyId, "partyId"))
    ensures IsObjectId(partyId) ==> r.Ok? && r.status == 200
    ensures r.Ok? ==> multiset(InvoicesOf(r.body)) <= multiset(invoices.docs)
    ensures r.Ok? ==> forall i :: 0 <= i < |r.body| ==> r.body[i].invoice.partyId == partyId
    ensures r.Ok? ==> forall i :: 0 <= i < |invoices.docs| && invoices.docs[i].partyId == partyId ==>
                        invoices.docs[i] in InvoicesOf(r.body)
    ensures r.Ok? ==> forall i, j :: 0 <= i < j < |r.body| ==> r.body[i].invoice.createdAt >= r.body[j].invoice.createdAt
    ensures r.Ok? ==> forall i :: 0 <= i < |r.body| ==> r.body[i].party == PopulatedParty(parties.docs, partyId)
  {
    if !IsObjectId(partyId) then Fail(400, CastErrorMessage(partyId, "partyId"))
    else
      var sorted := SortBy(ForParty(invoices.docs, partyId), CreatedAtKey, true);
      ByPartySorted(invoices.docs, partyId);
      var views := Populate(sorted, parties.docs);
      assert InvoicesOf(views) == sorted;
      Ok(200, views)
  }

  /** `findOneAndUpdate({_id: id}, {paymentStatus})` on the stored list: the
      invoice with the id gets the new status and nothing else changes. */
  function WithPaymentStatus(docs: seq<Invoice>, id: Id, status: string): (r: seq<Invoice>)
    ensures |r| == |docs|
    ensures forall i :: 0 <= i < |docs| ==> r[i].(paymentStatus := docs[i].paymentStatus) == docs[i]
    ensures forall i :: 0 <= i < |docs| && docs[i].id == id ==> r[i].paymentStatus == status
    ensures forall i :: 0 <= i < |docs| && docs[i].id != id ==> r[i] == docs[i]
  {
    seq(|docs|, i requires 0 <= i < |docs| => if docs[i].id == id then docs[i].(paymentStatus := status) else docs[i])
  }

  /** Setting the same status twice leaves the store as setting it once. */
  lemma PaymentUpdateIdempotent(docs: seq<Invoice>, id: Id, status: string)
    ensures WithPaymentStatus(WithPaymentStatus(docs, id, status), id, status) == WithPaymentStatus(docs, id, status)
  {
  }

  /** A status update keeps the ids and the invoice numbers, so the keys stay unique. */
  lemma {:induction false} PaymentUpdateKeepsKeys(docs: seq<Invoice>, id: Id, status: string)
    ensures InvoiceIds(WithPaymentStatus(docs, id, status)) == InvoiceIds(docs)
    ensures InvoiceNumbers(WithPaymentStatus(docs, id, status)) == InvoiceNumbers(docs)
  {
    var r := WithPaymentStatus(docs, id, status);
    forall i | 0 <= i < |docs| ensures r[i].id == docs[i].id && r[i].invoiceNumber == docs[i].invoiceNumber {
      assert r[i].(paymentStatus := docs[i].paymentStatus) == docs[i];
    }
  }

  /** `updateInvoicePayment`: sets the status of the invoice with the id and
      answers the updated invoice, or 404. Update validators are off, so the
      status is stored even when it is outside the enum. */
  method UpdateInvoicePayment(invoices: InvoiceCollection, id: Id, status: string) returns (res: Response<Invoice>)
    requires invoices.Valid()
    modifies invoices
    ensures invoices.Valid()
    ensures !IsObjectId(id) ==> res == Fail(400, CastErrorMessage(id, "_id"))
    ensures IsObjectId(id) && id !in InvoiceIds(old(invoices.docs)) ==> res == Fail(404, InvoiceNotFound)
    ensures res.Fail? ==> invoices.docs == old(invoices.docs)
    ensures IsObjectId(id) && id in InvoiceIds(old(invoices.docs)) ==>
      && invoices.docs == WithPaymentStatus(old(invoices.docs), id, status)
      && res.Ok? && res.status == 200 && res.body in invoices.docs
      && res.body.id == id && res.body.paymentStatus == status
  {
    if !IsObjectId(id) {
      return Fail(400, CastErrorMessage(id, "_id"));
    }
    var k := IndexOf(InvoiceIds(invoices.docs), id);
    if k.None? {
      return Fail(404, InvoiceNotFound);
    }
    PaymentUpdateKeepsKeys(invoices.docs, id, status);
    invoices.docs := WithPaymentStatus(invoices.docs, id, status);
    res := Ok(200, invoices.docs[k.value]);
  }

  /** Removing the invoice at `k` drops exactly the invoices with its id, since ids are unique. */
  lemma RemovesOnlyThatId(before: seq<Invoice>, k: nat, id: Id)
    requires k < |before| && before[k].id == id && NoDuplicates(InvoiceIds(before))
    ensures forall inv :: inv in RemoveAt(before, k) <==> inv in before && inv.id != id
    ensures id !in InvoiceIds(RemoveAt(before, k))
  {
    var after := RemoveAt(before, k);
    forall j | 0 <= j < |after| ensures after[j].id != id {
      if j < k {
        assert InvoiceIds(before)[j] != InvoiceIds(before)[k];
      } else {
        assert InvoiceIds(before)[j + 1] != InvoiceIds(before)[k];
      }
    }
    forall inv | inv in before ensures inv in after <==> inv.id != id {
      var j :| 0 <= j < |before| && before[j] == inv;
      if j < k {
        assert after[j] == inv;
      } else if j > k {
        assert after[j - 1] == inv;
      }
    }
  }

  /** `deleteInvoice`: removes the invoice if present and reports success either way. */
  method DeleteInvoice(invoices: InvoiceCollection, id: Id) returns (res: Response<string>)
    requires invoices.Valid()
    modifies invoices
    ensures invoices.Valid()
    ensures !IsObjectId(id) ==> res == Fail(400, CastErrorMessage(id, "_id")) && invoices.docs == old(invoices.docs)
    ensures IsObjectId(id) ==> res == Ok(200, InvoiceDeleted)
    ensures IsObjectId(id) ==> id !in InvoiceIds(invoices.docs)
    ensures forall inv :: inv in invoices.docs <==> inv in old(invoices.docs) && (IsObjectId(id) ==> inv.id != id)
    ensures IsObjectId(id) && id in InvoiceIds(old(invoices.docs)) ==> |invoices.docs| == |old(invoices.docs)| - 1
    ensures IsObjectId(id) && id !in InvoiceIds(old(invoices.docs)) ==> invoices.docs == old(invoices.docs)
    ensures IsObjectId(id) && id in InvoiceIds(old(invoices.docs)) ==>
      invoices.docs == RemoveAt(old(invoices.docs), IndexOf(InvoiceIds(old(invoices.docs)), id).value)
  {
    if !IsObjectId(id) {
      return Fail(400, CastErrorMessage(id, "_id"));
    }
    var k := IndexOf(InvoiceIds(invoices.docs), id);
    if k.Some? {
      ghost var before := invoices.docs;
      assert InvoiceIds(RemoveAt(before, k.value)) == RemoveAt(InvoiceIds(before), k.value);
      assert InvoiceNumbers(RemoveAt(before, k.value)) == RemoveAt(InvoiceNumbers(before), k.value);
      NoDuplicatesRemoveAt(InvoiceIds(before), k.value);
      NoDuplicatesRemoveAt(InvoiceNumbers(before), k.value);
      invoices.docs := RemoveAt(invoices.docs, k.value);
      RemovesOnlyThatId(before, k.value, id);
    }
    res := Ok(200, InvoiceDeleted);
  }

  // ---------------------------------------------------------------------
  // A consequence of numbering by count

  const ScenarioParty := Party(Repeat('a', 24), "Sharma Stores", "9876543210", "Pune", 0)
  const ScenarioRequest := InvoiceRequest(Repeat('a', 24), None, [], None, None)

  /** A store holding the scenario's party and no products, with two invoices
      created one after the other. */
  method TwoInvoices() returns (invoices: InvoiceCollection, parties: PartyCollection, products: ProductCollection)
    ensures fresh(invoices) && invoices.Valid()
    ensures parties.docs == [ScenarioParty] && products.docs == []
    ensures |invoices.docs| == 2 && invoices.docs[0].id == Repeat('1', 24) && invoices.docs[0].invoiceNumber == InvoiceNumberFor(0)
    ensures invoices.docs[1].id == Repeat('2', 24) && invoices.docs[1].invoiceNumber == InvoiceNumberFor(1)
  {
    parties := new PartyCollection();
    products := new ProductCollection();
    invoices := new InvoiceCollection();
    parties.docs := [ScenarioParty];
    var id1, id2 := Repeat('1', 24), Repeat('2', 24);
    assert id1[0] != id2[0];
    assert IsObjectId(ScenarioRequest.partyId);
    assert FindParty(parties.docs, ScenarioRequest.partyId) == Some(ScenarioParty);
    assert PriceAll(products.docs, []) == Priced([], 0.0);
    assert Acceptable(ScenarioParty, products.docs, ScenarioRequest);
    var first := CreateInvoice(invoices, parties, products, ScenarioRequest, id1, 1);
    InvoiceNumberInjective(0, 1);
    var second := CreateInvoice(invoices, parties, products, ScenarioRequest, id2, 2);
  }

  /** Numbers are derived from how many invoices are stored, so once an
      invoice has been deleted the next number can be one still in use: two
      invoices are created, the first is deleted, and the third creation is
      refused by the unique index on `invoiceNumber`. */
  method NumberCollisionAfterDelete() returns (res: Response<Invoice>)
    ensures res == Fail(400, DuplicateKeyMessage)
  {
    var invoices, parties, products := TwoInvoices();
    var second := invoices.docs[1];
    var deleted := DeleteInvoice(invoices, Repeat('1', 24));
    assert Repeat('1', 24)[0] != Repeat('2', 24)[0];
    assert second in invoices.docs && |invoices.docs| == 1;
    assert InvoiceNumberFor(1) in InvoiceNumbers(invoices.docs);
    assert IsObjectId(ScenarioRequest.partyId);
    assert FindParty(parties.docs, ScenarioRequest.partyId) == Some(ScenarioParty);
    assert PriceAll(products.docs, []) == Priced([], 0.0);
    assert Acceptable(ScenarioParty, products.docs, ScenarioRequest);
    res := CreateInvoice(invoices, parties, products, ScenarioRequest, Repeat('3', 24), 3);
  }
}
