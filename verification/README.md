# Storefront core — a Dafny model

This project models the sequential logic inside a print-on-demand art
storefront: the shopping-cart store (line merging, removal, quantity
updates, totals, the device-local mirror, session start and checkout), the
fulfilment provider's variant table, retail prices and request bodies, the
creation of a product's default variants and the mapping of stored product
rows, the in-memory automation-workflow registry, and the add-to-cart option
mapping and quantity selector of the artwork detail page, and the cart
page's order summary and quantity buttons.

Prices are integer cents throughout. Every remote round trip (backend
mirror, fulfilment provider, product database) is an argument standing for
its outcome, and the calls the code would start are returned as data
(`Cart.RemoteCall`, `Products.StoreCall`), so "nothing was contacted" is a
statement about an empty sequence.

Modules: `Options` (optional values), `Printful` (src/utils/printful.ts),
`Cart` (src/hooks/useCart.tsx), `Products` (src/services/productService.ts),
`Automation` (src/utils/n8nAutomation.ts), `Storefront`
(src/pages/ArtworkDetail.tsx), `CartPage` (src/pages/Cart.tsx and
src/components/CartItem.tsx).

Points of the code's behaviour that the model keeps as they are:

- `updateQuantity` sets the quantity on every line with the product id, not
  only the first.
- At session start a signed-in user's remote cart order is adopted even
  when it has no lines; of the successful reads, only a missing order falls
  back to the local slot (a failed read falls back to it too).
  Every adoption replaces the cart and so runs the persistence effect.
- After the provider accepts an order, a failed lookup or update of the
  remote cart order is caught by checkout's error handler: checkout returns
  false and keeps the cart although the order was placed
  (`Cart.CheckoutFailureAfterSubmission`).
- `clearCart` for a signed-in user deletes the remote mirror twice: once
  directly and once from the persistence effect that the emptied cart
  triggers.
- The cart page forwards a line's quantity buttons with the product id in
  place of the quantity (see "## Findings").

## Model

| member | source | states |
|---|---|---|
| `Printful.GetVariantId` | src/utils/printful.ts:195-222 | the twelve table ids for the four product types and three sizes, and 1232 for any pair outside the table |
| `Printful.GetVariantIdDefaultSize` | src/utils/printful.ts:195 | omitting the size yields each type's medium id, and 1232 for an unknown type |
| `Printful.TableEntriesNonZero` | src/utils/printful.ts:198-221 | a table entry exists exactly for known type and size, every entry is non-zero, so the `||` fallback fires only on a missing entry |
| `Printful.VariantKeyRoundTrip` | src/utils/printful.ts:198-219 | the table is invertible: a known pair's id decodes to that pair and every decodable id is that pair's table value |
| `Printful.VariantIdsDistinct` | src/utils/printful.ts:198-219 | the twelve table ids are pairwise distinct |
| `Printful.UnknownPairAliasesMediumCanvas` | src/utils/printful.ts:221 | an unknown pair gets an id indistinguishable from medium canvas |
| `Printful.CalculatePrice` | src/utils/printful.ts:179-192 | canvas 89.99, framed print 99.99, poster 39.99, t-shirt 29.99, anything else 49.99 |
| `Printful.FallbackPriceIffUnknown` | src/utils/printful.ts:179-192 | the 49.99 fallback is charged exactly for types outside the table; no known type costs 49.99 |
| `Printful.BuildOrderBody` | src/utils/printful.ts:140-150 | the recipient takes address as address1, state as state_code, country as country_code, copies name, city and zip, and the items pass through unchanged |
| `Printful.RecipientRoundTrip` | src/utils/printful.ts:140-148 | the renaming loses nothing: the shipping info is recoverable from the recipient, so distinct shipping infos give distinct bodies |
| `Printful.BuildProductBody` | src/utils/printful.ts:83-99 | a catalogue product request carries one variant priced by product type whose only file is the artwork image |
| `Printful.ProductBodyNamesVariant` | src/utils/printful.ts:83-99 | a product body built from the table id of a known (type, size) names that pair's provider variant at that type's retail price |
| `Cart.MergeQuantity` | src/hooks/useCart.tsx:242-246 | every line with the added item's key gains its quantity with all other fields kept; other lines are untouched |
| `Cart.AddToCart` | src/hooks/useCart.tsx:233-251 | a matching key merges quantities without changing length; otherwise the item is appended after an unchanged prefix; either way the key is present afterwards |
| `Cart.AddMergesOneLine` | src/hooks/useCart.tsx:236-246 | with unique keys a merge changes exactly the one matching line |
| `Cart.AddPreservesUniqueKeys` | src/hooks/useCart.tsx:233-251 | if no two lines share a key before adding, none do after |
| `Cart.AddNewLineTotal` | src/hooks/useCart.tsx:247-250 | an append raises the total by the new line's price times quantity |
| `Cart.AddMergedLineTotal` | src/hooks/useCart.tsx:229-246 | with unique keys a merge raises the total by the existing line's price times the added quantity, whatever price the added item carries |
| `Cart.AddPreservesPositiveQuantities` | src/hooks/useCart.tsx:233-251 | adding a positive quantity keeps every line's quantity positive |
| `Cart.AddScenario` | src/hooks/useCart.tsx:233-251 | a medium canvas line of quantity 1 plus the same key with quantity 2 is one line of quantity 3 |
| `Cart.RemoveFromCart` | src/hooks/useCart.tsx:259-261 | exactly the lines with a different product id survive, whatever their type or size |
| `Cart.RemoveConcat` | src/hooks/useCart.tsx:259-261 | removal distributes over concatenation, so survivors keep their original order |
| `Cart.RemoveAbsent` | src/hooks/useCart.tsx:259-261 | removing a product that has no line leaves the cart unchanged |
| `Cart.RemovePreservesUniqueKeys` | src/hooks/useCart.tsx:259-261 | removal keeps keys unique |
| `Cart.UpdateQuantity` | src/hooks/useCart.tsx:263-269 | every line of the product gets exactly the given quantity, unclamped, with other fields kept; other lines are untouched |
| `Cart.UpdatePreservesInvariants` | src/hooks/useCart.tsx:263-269 | updating keeps keys unique, and updating to a quantity of at least 1 keeps every quantity positive |
| `Cart.Total` | src/hooks/useCart.tsx:229-231 | the empty cart totals 0 and a single line totals its price times quantity |
| `Cart.TotalNonNegative` | src/hooks/useCart.tsx:229-231 | a cart of non-negative prices and quantities never totals below 0 |
| `Cart.TotalConcat` | src/hooks/useCart.tsx:229-231 | the total of a concatenation is the sum of the totals |
| `Cart.TotalAppend` | src/hooks/useCart.tsx:229-231 | the empty cart totals 0 and appending a line adds its price times quantity |
| `Cart.MergeTotal` | src/hooks/useCart.tsx:229-246 | merging raises the total by the added quantity times the summed prices of the matching lines |
| `Cart.Commit` | src/hooks/useCart.tsx:104-118 | after a change the local slot holds the cart verbatim when non-empty and is removed when empty; a signed-in user's mirror is saved or deleted, a guest's is never contacted |
| `Cart.Clear` | src/hooks/useCart.tsx:271-278 | the cart is empty and the slot removed; a signed-in user's mirror is deleted (twice), a guest's is not contacted |
| `Cart.ApplyAllPreservesInvariants` | src/hooks/useCart.tsx:104-118 | after any run of add, remove, update and clear the slot mirrors the cart and keys stay unique |
| `Cart.GuestMakesNoRemoteCalls` | src/hooks/useCart.tsx:108-116 | a guest's mutations never start a remote call |
| `Cart.Load` | src/hooks/useCart.tsx:45-118 | a guest adopts the local slot without any remote read; a user reads the remote cart first, adopts its lines, falls back to the slot on a failed read, and with no remote cart adopts a stored slot, pushing it up twice when non-empty; every adoption leaves the slot mirroring the cart and ends with the effect's save or delete |
| `Cart.SlotRoundTrip` | src/hooks/useCart.tsx:94-112 | what a change leaves in the cart is exactly what a later guest session, or a user whose remote read fails, loads from the local slot |
| `Cart.OrderItems` | src/hooks/useCart.tsx:292-295 | the provider items are exactly (variantId, quantity) of each line, in cart order |
| `Cart.Checkout` | src/hooks/useCart.tsx:280-344 | no user fails with no call and no change; otherwise the order is submitted exactly once, first; a rejected order contacts nothing else; an accepted one is followed by the cart-order lookup, then the pending mark for a found order, then on success `clearCart`'s two deletes of the remote mirror, each branch's call list given exactly; success exactly when the provider accepted and the remote update did not fail; every failure leaves the cart and slot untouched; success empties both |
| `Cart.CheckoutFailureAfterSubmission` | src/hooks/useCart.tsx:298-343 | an accepted order followed by a failed remote update reports failure and keeps the cart, so a retry submits the same order again |
| `Products.DefaultVariants` | src/services/productService.ts:115-134 | three variants small, medium, large with the inserted id and the table's variant ids; medium at the base price, canvas 10 below and 20 above, others 5 below and 10 above; prices strictly increase |
| `Products.DefaultVariantIdsDecode` | src/services/productService.ts:115-134 | for a known type the three variant ids are distinct and decode back to (type, size) |
| `Products.UnknownTypeVariantsCollapse` | src/services/productService.ts:118-130 | for an unknown type every default variant gets the medium-canvas id |
| `Products.CreateProduct` | src/services/productService.ts:93-147 | the product is inserted first; the default variants are inserted only after a successful insert; the id is reported only when both inserts succeed |
| `Products.CreatedVariantsBelongToProduct` | src/services/productService.ts:110-147 | whenever an id is reported, the second write inserted three variant rows and each of them points at that id |
| `Products.ToProduct` | src/services/productService.ts:69-86 | a null description, year or variant list becomes empty; every other field is copied |
| `Products.RowMappingRoundTrip` | src/services/productService.ts:69-86 | reading back a stored product gives it unchanged; a row survives the round trip exactly when it has no nulls |
| `Products.FetchProducts` | src/services/productService.ts:26-57 | every row is mapped in order; a failed query gives the empty list |
| `Products.GetProductById` | src/services/productService.ts:59-91 | a product exactly when the query succeeded, mapped from the row with nulls made empty, and equal to the row when it has no nulls |
| `Automation.FindIndex` | src/utils/n8nAutomation.ts:315 | the first workflow with the id, or none exactly when no workflow has it |
| `Automation.ToggleStatus` | src/utils/n8nAutomation.ts:312-321 | the first match becomes active or inactive and is returned, nothing else changes, an unknown id changes nothing, toggling never yields error |
| `Automation.ToggleIdempotentAndReversible` | src/utils/n8nAutomation.ts:312-321 | toggling twice equals toggling once, and toggling back to a former non-error status restores the registry |
| `Automation.AddWorkflow` | src/utils/n8nAutomation.ts:337-347 | the workflow is appended after the unchanged registry and returned |
| `Automation.UpdateWebhook` | src/utils/n8nAutomation.ts:349-361 | a found workflow changes only its webhook; an unknown id is rejected with "Workflow not found" and the registry is unchanged |
| `Automation.UpdateSchedule` | src/utils/n8nAutomation.ts:363-381 | a found workflow changes only its schedule and next run; an unknown id is rejected and the registry is unchanged |
| `Automation.DeleteWorkflow` | src/utils/n8nAutomation.ts:384-396 | the first match is removed with the rest shifted in order and true reported; no match reports false with the registry unchanged |
| `Automation.AddThenDelete` | src/utils/n8nAutomation.ts:337-396 | adding a workflow with a fresh id and deleting it restores the registry |
| `Automation.UpdatesKeepLookups` | src/utils/n8nAutomation.ts:349-381 | webhook and schedule updates never move a workflow, so every later lookup is unaffected |
| `Automation.ToggleKeepsLookups` | src/utils/n8nAutomation.ts:312-321 | toggling never moves a workflow, so every later lookup is unaffected |
| `Storefront.MaterialType` | src/pages/ArtworkDetail.tsx:81-94 | archival paper is a poster, canvas a canvas, framed print a framed print, any other label a poster |
| `Storefront.SizeOf` | src/pages/ArtworkDetail.tsx:88-95 | 12×16" is small, 18×24" medium, 24×36" large, any other label medium |
| `Storefront.OfferedLabelsRoundTrip` | src/pages/ArtworkDetail.tsx:81-92 | on the three offered materials and sizes both mappings are invertible, so no two offered choices collapse |
| `Storefront.LineFor` | src/pages/ArtworkDetail.tsx:94-108 | the line carries the artwork's id, title, artist, image, price and the chosen quantity, and the table variant of the mapped type and size, never a fallback alias |
| `Storefront.OfferedChoicesDistinct` | src/pages/ArtworkDetail.tsx:81-96 | distinct offered material and size choices select distinct variants |
| `Storefront.AddFromPage` | src/pages/ArtworkDetail.tsx:79-109 | the chosen line's key is in the cart afterwards and the local slot mirrors it |
| `Storefront.Press` | src/pages/ArtworkDetail.tsx:206-225 | minus is max(1, q-1), plus is q+1, typed text keeps a positive number and otherwise gives 1 |
| `Storefront.QuantityStaysPositive` | src/pages/ArtworkDetail.tsx:206-225 | from a positive start no sequence of controls takes the quantity below 1 |
| `Storefront.PageAddKeepsQuantitiesPositive` | src/pages/ArtworkDetail.tsx:66 | any quantity the selector reaches from its initial 1 keeps the cart's quantities positive when added |
| `CartPage.SubtotalMatchesTotal` | src/pages/Cart.tsx:16 | the page's left-to-right subtotal equals the store's total |
| `CartPage.Summary` | src/pages/Cart.tsx:16-18 | the subtotal is the cart total and the total adds the flat 12.99 shipping |
| `CartPage.Requested` | src/components/CartItem.tsx:50-58 | minus asks for one less above 1 and exactly 1 otherwise, plus for one more |
| `CartPage.PressAsWritten` | src/pages/Cart.tsx:62 | an enabled button sets every line of the product to the product id, whatever button and quantity, with every other field and every other line kept; the disabled minus changes nothing |
| `CartPage.PressAsWrittenCounterexample` | src/pages/Cart.tsx:62 | minus on product 7 at quantity 3 gives 7 where 2 was asked for; on product 0 it leaves a zero quantity |
| `CartPage.Press` | src/components/CartItem.tsx:50-58 | with the requested quantity forwarded, every line of the product gets it with other fields kept, and other lines are untouched |
| `CartPage.PressKeepsInvariants` | src/components/CartItem.tsx:50-58 | the intended press keeps keys unique and quantities positive; minus takes exactly one copy off a line above 1, plus adds one |

## Left out

- Remote mirroring (`saveCartToDatabase`, `deleteCartFromDatabase`, the order lookup in `loadCart` and checkout's order update) is reduced to the calls started and an outcome argument; its internal round trips and swallowed errors are not modelled, because they never change local state.
- The JSON encoding of the local slot: the slot holds the lines themselves, so serialisation is taken to round-trip.
- The mapping of remote order-item rows to cart lines in `loadCart` (the `size || 'medium'` default, `parseFloat`): remote lines are given as cart lines.
- React effect scheduling: each state update, including each adoption at load, is one sequential step followed by the persistence effect; the effect's run on mount and on the user change itself, with the cart as it was before loading, is not modelled. In the real timing, for a user already signed in at mount the effect runs with the empty initial cart while the remote read is pending, removing the local slot and starting a remote delete; the `ReadFailed` and `NoRemoteCart` fallbacks of `Cart.Load` (and `Cart.SlotRoundTrip`) then find no slot and leave the cart empty, whereas the model reads the slot as the last change left it.
- Notifications, console logging, `setTimeout` delays and `Date` values; the next run time of a schedule update is an argument.
- Floating-point prices and `toFixed`; prices are integer cents, and `calculatePrice`'s decimal strings are their cent values.
- The HTTP requests, status checks and JSON parsing of the provider client, and `fetchPrintfulProducts`.
- Property names inherited from the JavaScript object prototype (such as `constructor`) as keys of the lookup tables: in `getVariantId`, and in the material and size maps of the artwork page (`productTypeMap[...] || 'poster'`, `sizeMap[...] || 'medium'`), where such a label would yield the inherited function rather than the fallback; `Storefront.MaterialType` and `Storefront.SizeOf` return the fallback. The page itself only offers its three material and three size labels.
- `updateProduct`, `deleteProduct` and `getProductsByType`: single database calls with no logic beyond the row mapping already modelled.
- `fetchArtSources`, `fetchAutomationWorkflows`, `triggerWorkflowRun`, the seed workflows and the sample workflow text: canned data with no decisions.
- Shared mutable aliasing of workflow records between the registry and its callers: the registry is a value.
- Parsing typed quantity text: `Press` receives the parsed number, or none when it does not parse.
- `Cart.RemoveFromCart`: its contract states membership and size; the preserved order is stated separately by `Cart.RemoveConcat`.

## Findings

| source | as written | input that shows it | evidently intended | confidence | as-written member | corrected member |
|---|---|---|---|---|---|---|
| src/pages/Cart.tsx:62 | the handler `(quantity) => updateQuantity(item.id, quantity)` takes one parameter, but the line component calls it as `(id, newQuantity)` (src/components/CartItem.tsx:50, 58), so the product id becomes the quantity | a line of product 7 with quantity 3, minus pressed: the quantity becomes 7, not 2; product 0 gets quantity 0 | forward the second argument: `(id, quantity) => updateQuantity(id, quantity)` | not executed | `CartPage.PressAsWritten`, `CartPage.PressAsWrittenCounterexample` | `CartPage.Press`, `CartPage.PressKeepsInvariants` |
