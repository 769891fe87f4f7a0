# Billing app: a Dafny model

This project models the core of a small billing system for one trading
company. The system has three parts:

- an Express/Mongoose server that keeps the company, its parties (customers),
  its products and its invoices;
- a web client (React Native for web);
- a mobile app (React Native).

The model covers the following:

- **Stored documents.** Each Mongoose schema is a record datatype with its
  save-time validation (`required`, `enum`, `unique`) as a predicate. Each
  collection is a class holding the stored documents as a sequence (`docs`).
- **Server controllers.** Parties, products, invoices, registration and login,
  and the company profile are modelled as methods that change the collections
  they write. Read-only handlers are functions over the collections. Every
  error answer is modelled too:
  - a malformed ObjectId gives the cast error (400);
  - a missing document gives 404;
  - a failed validator gives 400 with a message that opens with the
    validation text;
  - a duplicate unique key gives a message that opens with the duplicate-key
    text.

  Error messages are modelled by their opening words only (see "Left out").
- **Invoice creation.** Each line is priced from the stored product. Pricing
  stops at the first unknown product. The invoice number is `INV-` followed by
  the zero-padded count of stored invoices plus one. One scenario shows that
  this number can collide with an existing one after a delete, so a creation
  can be refused.
- **The two bill forms.** The web client and the mobile app each have one.
  Each is a class over the selected line entries. The model covers:
  - their add, change, remove and toggle handlers;
  - the running total each form shows;
  - the request it submits.

  Lemmas compare what each form shows with what the server then stores. The
  mobile form's subtotal agrees with the server's. The web form sends a
  percentage discount, and the server subtracts that number as a flat amount.
- **Client screens:**
  - the dashboard summary and its paid percentage;
  - the billing history: date range, search and status filters, sorting, and
    its summary;
  - the party invoice list;
  - the party edit form, with its validation and change tracking;
  - the company registration wizard;
  - the product form and product edit screens, with their gram and kilogram
    conversions;
  - the mobile app's weight formatter.

Money, quantities and weights are exact `real`s. JavaScript's `NaN` is the
`NaN` case of `Common.Number`, and `Math.round` is `Common.Round`
(half up). Request bodies are typed records with `Option` fields: `None`
stands for a field the client left out. Fresh `_id`s, the clock,
`Math.random` draws, bcrypt and JWT signing are all parameters of the
operations that use them.

## Model

| member | source | states |
|---|---|---|
| PartyModel.PatchParty | server/models/Party.js:5-8 | An update keeps id and createdAt and takes each given field, keeping the stored value for fields left out |
| PartyModel.FindParty | server/controllers/partyController.js:31 | The party looked up by id is a stored party with that id; there is none exactly when no stored party has the id |
| ProductModel.PatchProduct | server/models/Product.js:4-11 | An update keeps id and createdAt, replaces exactly the given fields and keeps the rest |
| ProductModel.FindProduct | server/controllers/invoiceController.js:18-21 | The product looked up by id is a stored product with that id; there is none exactly when the id is unknown |
| InvoiceModel.FindInvoice | server/controllers/invoiceController.js:78-85 | The invoice looked up by id is a stored invoice with that id; there is none exactly when the id is unknown |
| CompanyModel.NewCompany | server/controllers/authController.js:32-43 | A new company stores the hashed password, the fresh id and the creation time |
| CompanyModel.PatchCompany | server/controllers/companyController.js:27-31 | An update keeps id and createdAt, takes each field the body gives and keeps the stored value of each field it leaves out; an empty body changes nothing |
| PartyController.CreateParty | server/controllers/partyController.js:3-15 | A valid, fresh party is appended and returned with 201; a failed validator or a reused id gives 400 and leaves the store unchanged |
| PartyController.GetParties | server/controllers/partyController.js:17-24 | Answers 200 with every stored party, in stored order |
| PartyController.GetPartyById | server/controllers/partyController.js:27-39 | The id comes from the body. A missing id gives 404 "Party not found", a malformed id the cast error (400), and an unknown id 404; otherwise 200 with the stored party. server/routes/partyRoutes.js routes no request to this handler, so it is unreachable as deployed |
| PartyController.UpdateParty | server/controllers/partyController.js:42-53 | A malformed id gives 400; an unknown id answers 200 with `null` and changes nothing; a known id has that party replaced by its patch (update validators are off) and answers 200 with the updated party |
| PartyController.DeleteParty | server/controllers/partyController.js:55-62 | A malformed id gives 400 and changes nothing; otherwise no party with the id remains, all others stay in their stored order, and the answer is 200 whether or not one existed |
| ProductController.DrawIndex | server/controllers/productController.js:8-11 | `Math.floor(r * 36)` of a draw in [0, 1) is an index into the 36-character alphabet |
| ProductController.GenerateSku | server/controllers/productController.js:3-14 | The SKU is "SV" followed by four characters from the alphabet, one from each draw in order |
| ProductController.CreateProduct | server/controllers/productController.js:17-34 | A valid body with a fresh id and an unused SKU is stored and returned with 201; an invalid body gives the validation error, and a reused id or SKU gives the duplicate-key error, with the store unchanged |
| ProductController.GetProducts | server/controllers/productController.js:36-43 | Answers 200 with every stored product, in order |
| ProductController.GetProductById | server/controllers/productController.js:67-76 | A malformed id gives 400; otherwise 200 with a list that holds exactly the product with that id, or is empty |
| ProductController.UpdateProduct | server/controllers/productController.js:45-56 | A malformed id gives 400; an unknown id answers 200 with `null` and changes nothing; a known id has that product replaced by its patch, unless another product holds the new SKU (duplicate-key error, unchanged) |
| ProductController.DeleteProduct | server/controllers/productController.js:58-65 | A malformed id gives 400; otherwise the product is gone, the others stay in their stored order, and the answer is 200 |
| AuthController.CreateCompany | server/controllers/authController.js:5-58 | A second registration gives 400 "Only one company can be registered"; a missing password fails in the hash; otherwise a valid company is stored with the hashed password and returned with a token signed over its id |
| AuthController.FindByEmail | server/controllers/authController.js:64 | `findOne({email})`: a stored company with that email, or the first company when no email was sent; none exactly when no company matches |
| AuthController.Login | server/controllers/authController.js:60-85 | An unknown email gives 404; a session is issued exactly when the company exists and the password matches its hash; a wrong password gives 400 "Invalid credentials" |
| AuthController.CheckCompany | server/controllers/authController.js:87-95 | Answers 200 with whether any company is registered |
| CompanyController.GetCompany | server/controllers/companyController.js:3-11 | Answers 200 with the only company, or with nothing when none is registered |
| CompanyController.UpdateCompany | server/controllers/companyController.js:14-49 | Tried in order: an empty id gives 400, an empty body gives 400, and a malformed id gives 400 "Invalid company ID". Then an unknown id gives 404, and a known one is patched and returned. Every failure leaves the store unchanged |
| InvoiceController.InvoiceNumberForm | server/controllers/invoiceController.js:40-41 | The number is "INV-" and at least five digits whose value is the stored count plus one |
| InvoiceController.InvoiceNumberInjective | server/controllers/invoiceController.js:40-41 | Different counts give different invoice numbers |
| InvoiceController.InvoiceNumberExamples | server/controllers/invoiceController.js:40-41 | The first number is "INV-00001"; a count past five digits is not cut short |
| InvoiceController.PricedLines | server/controllers/invoiceController.js:17-35 | When every product is found, there is one line per requested item, in order: quantity, the stored price and name, the discount (default 0) and `quantity*price - discount`. The subtotal is the sum of the line totals |
| InvoiceController.PricingStopsAtFirstFailure | server/controllers/invoiceController.js:17-21 | Pricing fails exactly when some product cannot be found, and then with the 404 for the first such line |
| InvoiceController.StoppedPrefix | server/controllers/invoiceController.js:17-21 | Once a prefix of the items fails, the following items do not change the answer |
| InvoiceController.PriceItems | server/controllers/invoiceController.js:17-35 | The pricing loop computes the same lines and subtotal (or the same failure) as the recursive definition |
| InvoiceController.CreateInvoice | server/controllers/invoiceController.js:5-61 | Each outcome is specified: a malformed party id (400) and an unknown party (404); an unknown product (404); a failed validator (400); and a duplicate id or invoice number (400). Otherwise the stored invoice copies the party, the priced lines, the tax, and the status (default unpaid). Its total is subtotal plus tax, and it is appended |
| InvoiceController.GetInvoices | server/controllers/invoiceController.js:63-73 | Answers 200 with a permutation of the stored invoices, newest first, each populated with its party |
| InvoiceController.GetInvoice | server/controllers/invoiceController.js:75-92 | A malformed id gives 400, an unknown id 404 "Invoice not found", and a known id that invoice with its party |
| InvoiceController.ForParty | server/controllers/invoiceController.js:129-132 | The party's filter keeps exactly the invoices naming the party |
| InvoiceController.ByPartySorted | server/controllers/invoiceController.js:129-136 | The party's invoices sorted newest first are exactly its invoices, in descending creation order |
| InvoiceController.GetInvoicesByParty | server/controllers/invoiceController.js:125-140 | A malformed id gives 400. Otherwise it answers 200 with exactly the invoices naming the party, newest first, each populated with that party |
| InvoiceController.WithPaymentStatus | server/controllers/invoiceController.js:99-103 | The invoice with the id gets the new status; every other invoice and every other field is unchanged |
| InvoiceController.PaymentUpdateIdempotent | server/controllers/invoiceController.js:99-103 | Setting the same status twice is the same as setting it once |
| InvoiceController.PaymentUpdateKeepsKeys | server/controllers/invoiceController.js:99-103 | A status update keeps every id and invoice number, so the unique indexes still hold |
| InvoiceController.UpdateInvoicePayment | server/controllers/invoiceController.js:94-113 | A malformed id gives 400 and an unknown id 404, both unchanged. A known id has its status set and the updated invoice returned |
| InvoiceController.DeleteInvoice | server/controllers/invoiceController.js:115-122 | A malformed id gives 400; otherwise no invoice with the id remains, the others stay in their stored order, and the answer is 200 |
| InvoiceController.TwoInvoices | server/controllers/invoiceController.js:40-57 | Two creations in a row store INV-00001 then INV-00002 |
| InvoiceController.NumberCollisionAfterDelete | server/controllers/invoiceController.js:40-41 | After two creations and a delete of the first, the third creation reuses "INV-00002" and is refused by the unique index |
| BillEntries.FindInCatalog | client/src/screens/NewBillForm.jsx:59 | `products.find` by id: a catalog product with that id, or none exactly when no product has it |
| BillEntries.Toggled | client/src/screens/NewBillForm.jsx:131-139 | Toggling flips `useExistingProduct`, clears the new-product draft when switching to existing, and changes nothing else |
| BillEntries.SubmitError | client/src/screens/NewBillForm.jsx:174-179 | No error exactly when the party is chosen (or named with a phone) and there is at least one line; otherwise the first failing rule's message |
| ClientBillForm.ClampDiscount | client/src/screens/NewBillForm.jsx:115-118 | The discount typed is clamped to [0, 100]; NaN becomes 0, and values inside the range are kept |
| ClientBillForm.Applied | client/src/screens/NewBillForm.jsx:113-123 | A discount edit stores the clamped value; other edits store the value as given and leave the discount alone |
| ClientBillForm.BillForm.constructor | client/src/screens/NewBillForm.jsx:31-39 | The form starts with the default fields, an existing party and no lines |
| ClientBillForm.BillForm.CalculateTotal | client/src/screens/NewBillForm.jsx:58-76 | The loop sums each line's percentage-discounted total and adds the tax percentage |
| ClientBillForm.BillForm.Reset | client/src/screens/NewBillForm.jsx:79-94 | Reset restores the default fields and clears the lines |
| ClientBillForm.BillForm.AddProduct | client/src/screens/NewBillForm.jsx:96-111 | Appends one default line; nothing else changes |
| ClientBillForm.BillForm.ProductChange | client/src/screens/NewBillForm.jsx:113-123 | Only the edited line changes, by `Applied` |
| ClientBillForm.BillForm.RemoveProduct | client/src/screens/NewBillForm.jsx:125-129 | `splice(index, 1)`: the line at the index is removed, and an index past the end removes nothing |
| ClientBillForm.BillForm.ToggleProductType | client/src/screens/NewBillForm.jsx:131-139 | Only the toggled line changes, by `Toggled` |
| ClientBillForm.SubmittedItemTotal | client/src/screens/NewBillForm.jsx:212-235 | Each submitted line total is the total the form showed for it: `quantity*price - quantity*price*discount/100` |
| ClientBillForm.SubmitSendsDisplayedTotals | client/src/screens/NewBillForm.jsx:171-247 | A submission is rejected exactly on a validation error. Otherwise it creates a party exactly when none was chosen, sends one item per line, and its grand total equals `calculateTotal()` |
| ClientBillForm.ItemTotalWithinGross | client/src/screens/NewBillForm.jsx:58-65 | With a discount in [0, 100], a line total lies between 0 and quantity times price |
| ClientBillForm.SubtotalNonNegative | client/src/screens/NewBillForm.jsx:67-71 | With non-negative quantities and prices, the subtotal is non-negative |
| ClientBillForm.ServerLineTotalDiffers | server/controllers/invoiceController.js:23-25 | For the same line, the server's total and the web form's total differ by the percentage discount minus the flat discount |
| ClientBillForm.ServerLineTotalExample | client/src/screens/NewBillForm.jsx:228-231 | One line of 2 at 100 with a 10% discount shows 180 in the form, while the server stores 190 |
| AppBillForm.Applied | App/src/screens/NewBillForm.jsx:65-69 | An edit stores the value in exactly the named field |
| AppBillForm.SentItems | App/src/screens/NewBillForm.jsx:137-141 | One request item per line, in order, with the discount defaulting to 0 |
| AppBillForm.BillForm.constructor | App/src/screens/NewBillForm.jsx:12-20 | The form starts with the default fields, an existing party and no lines |
| AppBillForm.BillForm.CalculateTotal | App/src/screens/NewBillForm.jsx:39-49 | The loop sums `quantity*price - discount` over lines whose product is found with a price, then adds the tax as a flat amount |
| AppBillForm.BillForm.AddProduct | App/src/screens/NewBillForm.jsx:51-63 | Appends one default line; nothing else changes |
| AppBillForm.BillForm.ProductChange | App/src/screens/NewBillForm.jsx:65-69 | Only the edited line changes, by `Applied` |
| AppBillForm.BillForm.RemoveProduct | App/src/screens/NewBillForm.jsx:71-75 | The line at the index is removed, and an index past the end removes nothing |
| AppBillForm.BillForm.ToggleProductType | App/src/screens/NewBillForm.jsx:77-85 | Only the toggled line changes, by `Toggled` |
| AppBillForm.BillForm.Submit | App/src/screens/NewBillForm.jsx:117-149 | Rejected exactly on a validation error. Otherwise it creates a party from the typed name, phone and place exactly when none was chosen, and sends the form's tax and payment status, no invoice discount, and one item per line with its product, quantity and discount |
| AppBillForm.SentLineTotal | server/controllers/invoiceController.js:23-25 | For a line whose product the form and the server price alike, the server's line total equals the form's contribution |
| AppBillForm.ServerSubtotalAgrees | server/controllers/invoiceController.js:17-38 | When every line's product is stored with the price the form saw, the server prices every line and its subtotal is the form's subtotal |
| AppBillForm.ServerTotalAgrees | App/src/screens/NewBillForm.jsx:39-49 | Under the same conditions, the server's stored total equals the total the form showed |
| Dashboard.PaidPercentage | client/src/screens/Dashboard.jsx:31 | 0 when the total is not positive; otherwise `paid/total*100` rounded half up |
| Dashboard.Summarize | client/src/screens/Dashboard.jsx:25-31 | Count, total, and paid sum. Pending is the total minus the paid sum, and the percentage is `PaidPercentage`. The mobile dashboard (App/src/screens/Dashboard.jsx:27-33) computes the same summary |
| Dashboard.RemainingPercentage | client/src/screens/Dashboard.jsx:125 | The remaining percentage and the paid percentage add up to 100 |
| Dashboard.FilteredSumBounds | client/src/screens/Dashboard.jsx:27-29 | With non-negative totals, any filtered sum lies between 0 and the total |
| Dashboard.StatusSplit | client/src/screens/Dashboard.jsx:26-30 | For two disjoint status sets covering every invoice, the two filtered sums add up to the total |
| Dashboard.PercentageBounds | client/src/screens/Dashboard.jsx:31 | A paid sum between 0 and the total gives a percentage in [0, 100] |
| Dashboard.SummaryBounds | client/src/screens/Dashboard.jsx:25-31 | With non-negative totals, paid ≤ total, pending ≥ 0, and both percentages lie in [0, 100] |
| Dashboard.PendingIsUnpaidOrPartial | client/src/screens/Dashboard.jsx:30 | With statuses from the enum, pending is the sum over unpaid and partial invoices |
| Dashboard.AllPaidIsHundredPercent | client/src/screens/Dashboard.jsx:31 | All invoices paid with a positive total gives 100% paid and 0% remaining |
| BillingHistory.ByDateRange | client/src/screens/BillingHistoryScreen.jsx:36-45 | Keeps exactly the invoices created within the chosen number of days before now (all of them for "all") |
| BillingHistory.BySearch | client/src/screens/BillingHistoryScreen.jsx:59-65 | With a term, keeps exactly the invoices whose number or party name contains it ignoring case, or whose party phone contains it |
| BillingHistory.ByStatus | client/src/screens/BillingHistoryScreen.jsx:67-69 | Keeps exactly the invoices with the chosen status (all of them for "all") |
| BillingHistory.HistoryScreen.constructor | client/src/screens/BillingHistoryScreen.jsx:12-16 | The screen starts with no search, status "all", every date, and newest first |
| BillingHistory.HistoryScreen.FilterResults | client/src/screens/BillingHistoryScreen.jsx:33-72 | The results are drawn from the loaded invoices: exactly those passing the date, search and status filters, each as often as it was loaded. They are sorted by the chosen key in the chosen direction |
| BillingHistory.HistoryScreen.RequestSort | client/src/screens/BillingHistoryScreen.jsx:74-80 | Sorts by the key; the order becomes descending exactly when the same key was already ascending. Nothing on the screen calls `requestSort` (line 74 is its only occurrence), so as shipped the list always stays sorted by createdAt, newest first |
| BillingHistory.HistoryScreen.ResetFilters | client/src/screens/BillingHistoryScreen.jsx:82-87 | Clears the search, the status and the date range, and sorts newest first again |
| BillingHistory.HistoryScreen.ToggleInvoiceExpand | client/src/screens/BillingHistoryScreen.jsx:89-91 | Collapses the invoice if it was expanded; otherwise expands it |
| BillingHistory.ListSummary | client/src/screens/BillingHistoryScreen.jsx:115-123 | Count, total and paid sum of the shown invoices. Pending is the unpaid-or-partial sum, and the percentage is `PaidPercentage` |
| BillingHistory.ListSummaryBalanced | client/src/screens/BillingHistoryScreen.jsx:115-123 | With statuses from the enum, paid plus pending is the total and the summary equals the dashboard's. A zero total shows 0% |
| PartyInvoices.Screen | client/src/screens/Party/SinglePartyInvoice.jsx:92-102 | An empty list shows "No Invoices Found"; otherwise the header shows the first invoice's party, the count, and the summed total |
| PartyInvoices.BadgesMatchStore | client/src/screens/Party/SinglePartyInvoice.jsx:8-13 | Over the server's listing, each listed invoice is the stored invoice with its id, and its badge reads "Paid" exactly when that stored invoice has status paid; any other status, partial included, reads "Unpaid" |
| PartyInvoices.HeaderIsRequestedParty | client/src/screens/Party/SinglePartyInvoice.jsx:92-101 | Over the server's listing, the screen is empty exactly when no stored invoice names the party. Otherwise its header shows that party as populated from the store |
| PartyEdit.With | client/src/screens/Party/PartyEdit.jsx:69 | Editing a field sets that field and keeps the others |
| PartyEdit.FromParty | client/src/screens/Party/PartyEdit.jsx:51-60 | Loading copies the stored name, phone and place; address, email and GST become empty |
| PartyEdit.DotAfterCorrect | client/src/screens/Party/PartyEdit.jsx:101-103 | The scan after an `@` finds a dot exactly when the pattern's `\S+\.\S+` part can match there |
| PartyEdit.AtFromCorrect | client/src/screens/Party/PartyEdit.jsx:101-103 | The scan from a position succeeds exactly when some `@` from there on starts a match |
| PartyEdit.EmailMatchesCorrect | client/src/screens/Party/PartyEdit.jsx:101-103 | The email test accepts exactly the strings that contain a match of `\S+@\S+\.\S+` |
| PartyEdit.EmailExamples | client/src/screens/Party/PartyEdit.jsx:101-103 | "ravi@shop.in" is accepted and "ravi@shop." is not |
| PartyEdit.FormErrors | client/src/screens/Party/PartyEdit.jsx:84-107 | Each field has an error exactly when its rule fails, with the screen's message. Name and place must not be blank. The phone must not be blank and must be ten digits once spaces are removed. A non-empty email must match |
| PartyEdit.NoErrorsIffValid | client/src/screens/Party/PartyEdit.jsx:105-106 | The form validates exactly when every rule holds |
| PartyEdit.Changed | client/src/screens/Party/PartyEdit.jsx:69-76 | The form counts as changed exactly when nothing was loaded or some field differs from the loaded value |
| PartyEdit.EditScreen.constructor | client/src/screens/Party/PartyEdit.jsx:29-40 | The screen starts with an empty form, no loaded copy, no errors and no changes |
| PartyEdit.EditScreen.Load | client/src/screens/Party/PartyEdit.jsx:51-60 | Loading sets both the form and its original copy from the stored party |
| PartyEdit.EditScreen.InputChange | client/src/screens/Party/PartyEdit.jsx:68-82 | Only the edited field changes. The changed flag is recomputed against the original, and that field's error is blanked |
| PartyEdit.EditScreen.ValidateForm | client/src/screens/Party/PartyEdit.jsx:84-107 | Stores the form's errors and reports success exactly when there are none |
| PartyEdit.EditScreen.Save | client/src/screens/Party/PartyEdit.jsx:109-117 | An invalid form sends nothing, and neither does an unchanged one. Otherwise it sends an update of this party with the form. The Save button is disabled unless the form has changes (line 330), so the unchanged outcome is reached only through a direct call |
| CompanyWizard.With | App/src/screens/CompanyScreen.jsx:30-32 | Editing a field sets that field and keeps the others |
| CompanyWizard.EmailMatchesSound | App/src/screens/CompanyScreen.jsx:56-58 | Whatever the email test accepts has the shape `^[^\s@]+@[^\s@]+\.[^\s@]+$` |
| CompanyWizard.EmailMatchesComplete | App/src/screens/CompanyScreen.jsx:56-58 | Every string of that shape is accepted |
| CompanyWizard.EmailMatchesCorrect | App/src/screens/CompanyScreen.jsx:56-58 | The email test accepts exactly the strings of that shape |
| CompanyWizard.PasswordRequirements | App/src/screens/CompanyScreen.jsx:44-50 | The length flag holds exactly for 6 or more characters; the match flag exactly when confirm is non-empty and equal to the password |
| CompanyWizard.StepErrors | App/src/screens/CompanyScreen.jsx:52-77 | Step 1 requires the owner name, a phone and a well-formed email. Step 2 requires the FSSAI number. Step 3 requires a password of 6 or more characters and a matching confirmation. All come with the screen's messages, and any other step has no errors |
| CompanyWizard.Payload | App/src/screens/CompanyScreen.jsx:95-96 | The registration body carries every form field except the confirmation |
| CompanyWizard.ValidatedPayloadIsStorable | App/src/screens/CompanyScreen.jsx:89-106 | A form that passes all three steps yields a company the schema accepts, with a password of 6 or more characters that equals its confirmation |
| CompanyWizard.Wizard.constructor | App/src/screens/CompanyScreen.jsx:7-24 | The wizard starts at step 1 with an empty form, no errors, an empty banner and the loading flag down |
| CompanyWizard.Wizard.HandleChange | App/src/screens/CompanyScreen.jsx:30-42 | Only the edited field changes, and that field's error is cleared |
| CompanyWizard.Wizard.ValidateStep | App/src/screens/CompanyScreen.jsx:52-77 | Stores the step's errors and reports success exactly when there are none |
| CompanyWizard.Wizard.NextStep | App/src/screens/CompanyScreen.jsx:79-83 | Advances one step, but not past 3, exactly when the current step validates |
| CompanyWizard.Wizard.PrevStep | App/src/screens/CompanyScreen.jsx:85-87 | Goes back one step, but not below 1 |
| CompanyWizard.Wizard.Submit | App/src/screens/CompanyScreen.jsx:89-106 | Callable only while the button is enabled (not loading). Clears the banner, raises the loading flag and validates step 3 only; sends the payload exactly when it passes, and leaves the flag raised either way |
| CompanyWizard.Wizard.Settle | App/src/screens/CompanyScreen.jsx:97-105 | A truthy answer lowers the flag; a thrown error lowers it and shows the failure banner; a falsy answer leaves the flag raised |
| CompanyWizard.FailedSubmitLocksOut | App/src/screens/CompanyScreen.jsx:89-92 | A submit that fails validation sends nothing and leaves the loading flag raised, and later edits and step changes do not lower it, so the button stays disabled |
| ProductForm.RenderedNatAsTyped | client/src/screens/Product/ProductForm.jsx:38-40 | A whole number rendered with `toString()` parses the same as its typed digits |
| ProductForm.DisplayWeight | client/src/screens/Product/ProductForm.jsx:33-34 | From 1000 g up the weight is shown in kg, divided by 1000; below that it is shown in g as is |
| ProductForm.WeightInGrams | client/src/screens/Product/ProductForm.jsx:64-66 | The parsed weight is multiplied by 1000 for kg and kept for g; NaN stays NaN |
| ProductForm.FromProduct | client/src/screens/Product/ProductForm.jsx:33-44 | Loading fails exactly when the weight or the stock is missing. Otherwise the form carries the product's fields and the displayed weight and unit |
| ProductForm.SubmitData | client/src/screens/Product/ProductForm.jsx:67-70 | The body is the form with the weight replaced by grams |
| ProductForm.Submit | client/src/screens/Product/ProductForm.jsx:72-78 | Updates the product when there is a route id, and creates one when there is none |
| ProductForm.DisplayRoundTrip | client/src/screens/Product/ProductForm.jsx:33-34 | Over exact arithmetic, showing a gram weight and converting the shown value back gives the same grams |
| ProductForm.LoadSubmitRoundTrip | client/src/screens/Product/ProductForm.jsx:33-78 | Over exact arithmetic, loading a product and submitting the form untouched sends back its stored weight |
| ProductEdit.LoadFirst | client/src/screens/Product/ProductEdit.jsx:30-33 | The form is loaded from the first product of the listing; an empty listing leaves it unloaded |
| ProductEdit.Save | client/src/screens/Product/ProductEdit.jsx:65-80 | Always an update of the route's product, with the weight in grams |
| ProductEdit.EditLoadsStoredProduct | client/src/screens/Product/ProductEdit.jsx:26-49 | Over the server's by-id listing, a stored id loads that stored product and an unknown id leaves the form unloaded |
| ProductEdit.LoadSaveRoundTrip | client/src/screens/Product/ProductEdit.jsx:30-74 | Over exact arithmetic, loading and saving untouched sends the stored gram weight back to the same product |
| WeightFormat.FormatWeight | App/src/utils/weight.js:2-29 | Shows "-" exactly for a missing, empty or unparsable weight, and 100 exactly as 1 kg. Other values below 1000 are shown in g; from 1000 up the kg value times 1000 is the weight |
| WeightFormat.ZeroIsNotMissing | App/src/utils/weight.js:4-6 | Zero is shown as 0 g, while a missing value or the empty string is "-" |
| WeightFormat.HundredLooksLikeAThousand | App/src/utils/weight.js:17-24 | 100 g and 1000 g are both shown as 1 kg, while 999 g is shown in grams |
| WeightFormat.NumbersAlwaysHaveUnit | App/src/utils/weight.js:12-28 | A number is never shown as "-"; it is in grams exactly when below 1000 and not 100 |
| WeightFormat.DigitsLikeNumber | App/src/utils/weight.js:9 | A whole number typed as digits is shown the same as that number |
| WeightFormat.SameParseSameShown | App/src/utils/weight.js:4-14 | The result depends only on whether the input counts as absent and on what it parses to |

## Left out

- Network, storage and the clock are not modelled. Every handler runs against in-memory collections with fresh ids and the current time passed in. Concurrent requests are left out.
- The `companyId` filters on invoice queries are left out. The invoice schema has no such field; the filter matches stored invoices only through Mongoose's strict query casting.
- Mongoose casting of body values (strings to numbers or dates) and strict dropping of unknown fields are left out. Bodies are typed.
- Rendering is not modelled: the layout, `toFixed`, currency and date formatting, icons, navigation and alerts.
- Floating point is not modelled. Arithmetic is exact over the reals. `toString()` followed by `parseFloat` is taken to give the same number back (`ProductForm.NumberText.Rendered`).
- ProductForm.DisplayRoundTrip, ProductForm.LoadSubmitRoundTrip and ProductEdit.LoadSaveRoundTrip hold only over exact arithmetic. In IEEE binary64 the grams-to-kilograms-and-back conversion is not always the identity: 1001 g is shown as 1.001 kg and sent back as 1000.9999999999999 g.
- Error messages are modelled by their opening words only. Mongoose appends the model name to a cast error (` for model "Party"`), the failing paths and their messages to a validation error, and the collection, index and key to a duplicate-key error.
- The `partyId` of an invoice request and the `productId` of each item are always present in the model. With either one absent, the source's `findOne({_id: undefined})` would match any stored document. No client sends such a body.
- `Common.ParseFloat` reads leading spaces, an optional sign, digits and an optional fraction. Exponents and `Infinity` are not parsed.
- Case folding in the billing search is ASCII only, and sort ties are not ordered. The insertion sort that stands for `Array.prototype.sort` and Mongo's `sort` is proved sorted and a permutation, not stable.
- BillingHistory.HistoryScreen.FilterResults: only the createdAt and total sort keys are modelled. createdAt is compared as a number rather than as an ISO string, and a day is 86 400 000 ms (daylight-saving shifts are ignored).
- BillingHistory.HistoryScreen: fetching the invoices and the loading and error states are left out.
- PartyInvoices.HeaderIsRequestedParty: a party deleted after its invoices were created populates as null, and the header then throws. The model shows it as an absent party.
- UpdateInvoicePayment with no `paymentStatus` in the body is left out. The status is a required parameter.
- AuthController.CreateCompany and AuthController.Login: bcrypt and JWT are function parameters. The model keeps only their behaviour on missing arguments (the "Illegal arguments" errors).
- CompanyWizard.Wizard.Settle: navigating to the login screen on success is left out.
- CompanyController.UpdateCompany: the 500 branch catches errors other than a cast error. Once the id check is done, nothing reaches it, so it is not modelled.
- ProductController.GenerateSku takes its four random draws as a parameter.
- ProductForm: the screen's load calls `getProducts(id)`, which the screen does not import. The model covers only the conversion from a product to the form.
- ProductEdit: splitting ISO dates into `YYYY-MM-DD` for display is left out. Dates are kept as they were stored.
- The `handleChange` handlers of the product screens, the mobile bill form's `handleNewProductSubmit`, and each line's `productDiscount` are left out. That last field is never sent with the invoice.
- Bill form entries are values. The source mutates the line objects shared with the previous state array, which the model does not capture.
- The CompanyScreen `passwordRequirements` effect is taken to have run after every edit. The model derives the flags from the form as a function.
- Screens and routes not listed above are left out (login screen, party list, product list, invoice print, settings, drawer, upload routes). They only display data or pass it through.
