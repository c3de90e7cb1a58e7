# Middleware chains of the suppliers and products controllers

This project models the request pipeline of a small Express API for suppliers
and products. Each route is an ordered array of middleware stages. A stage
continues (`next()`), aborts with an error (`next({status, message})`), or
writes the response. The model covers:

- the allow-list validator for supplier payloads;
- the two existence resolvers (`supplierExists`, `productExists`), which write
  the found record into `res.locals`;
- the terminal handlers: create, update and delete for suppliers; read, list
  and the three aggregate listings for products;
- the router's left-to-right walk over a route's stages.

Modules:

- `Json` holds JavaScript values. An object is the sequence of its own
  (key, value) pairs in enumeration order, so `Object.keys` order is kept.
  It also defines property access (`Lookup`), property definition in an
  object literal (`Put`) and `Array.prototype.join`.
- `Express` holds the request (route id and `req.body.data`), the error
  values, and the `Outcome` a stage returns: `Continue`, `Fail`,
  `Responded`, or `Rejected` for an async failure that nobody catches.
  It also holds the mutable response object `Res` and
  `Boundary` (`asyncErrorBoundary`), which turns a rejection into `Fail`.
- `Suppliers` and `Products` model the controllers. A service is a class
  with fixed answers (`api`) and a log of the calls made into it. The store
  is a `map` from route id to record, a read may fail, and the other
  replies are left open.
  - Each stage that changes state is a method that modifies `res` and the service.
  - Each such method is proved equal to a pure `…Effect` function.
  - The effect functions' contracts state what the stage promises.
- `Pipeline` enumerates the stages and gives the Express router's walk as
  a pure function `Execute`. `Run` is a loop over the stages, proved equal
  to `Execute`. Lemmas state what each exported route does as a whole.

External collaborators become parameters:

- The persistence services become `SuppliersApi` and `ProductsApi`.
- The `hasProperties` check becomes the function `RequiredCheck`.

Which stages are wrapped:

- The products `list` (src/products/products.controller.js:72) and
  `productExists` (:73) are async stages exported without
  `asyncErrorBoundary`. The categories `list` is wrapped
  (src/categories/categories.controller.js:21).
- So in the model, a failed products read or list stays `Rejected`: it is
  never passed to the error channel. The aggregate routes and every async
  supplier stage are wrapped, so their failures become `Fail`.

## Model

| member | source | states |
|---|---|---|
| `Suppliers.Payload` | src/suppliers/suppliers.controller.js:20 | a missing `data` reads as the empty object `{}`; a present `data` is taken exactly as sent |
| `Json.Keys` | src/suppliers/suppliers.controller.js:22 | `Object.keys`: one key per property, position for position, in enumeration order |
| `Json.Lookup` | src/suppliers/suppliers.controller.js:102 | property access: a key the object does not have reads as `undefined` |
| `Json.LookupPresent` | src/suppliers/suppliers.controller.js:102 | in an object with distinct keys, reading a key gives the value stored under it |
| `Json.Join` | src/suppliers/suppliers.controller.js:29 | `Array.prototype.join`: no parts give `""`, one part gives that part unchanged |
| `Json.JoinSnoc` | src/suppliers/suppliers.controller.js:29 | appending a part to a non-empty join puts the separator `", "` between it and what came before |
| `Json.JoinEnds` | src/suppliers/suppliers.controller.js:29 | a non-empty join starts with its first part and ends with its last part |
| `Suppliers.InvalidFields` | src/suppliers/suppliers.controller.js:22-24 | the rejected keys are exactly the payload keys not in the allow-list, and they appear in payload key order (a subsequence of the keys) |
| `Suppliers.HasOnlyValidProperties` | src/suppliers/suppliers.controller.js:19-33 | continues iff every key of `data` is allowed (a missing `data` counts as `{}` and passes); otherwise fails with 400 and `"Invalid field(s): "` followed by the rejected keys joined by `", "`; it only ever continues or fails, so it calls `next` exactly once |
| `Suppliers.InvalidFieldsMessage` | src/suppliers/suppliers.controller.js:26-30 | a payload with one allowed and two unknown keys fails with exactly `"Invalid field(s): colour, size"` |
| `Suppliers.HasRequiredProperties` | src/suppliers/suppliers.controller.js:36 | the abstract `hasProperties` check on `supplier_name` and `supplier_email`: it continues iff the check passes, and otherwise forwards the check's own error |
| `Suppliers.SuppliersService.Read` | src/suppliers/suppliers.controller.js:57 | one read is logged, and it answers with the stored record for the id, absence, or the read's failure |
| `Suppliers.SuppliersService.Create` | src/suppliers/suppliers.controller.js:80 | one create is logged with the payload as given, and it answers with the service's reply |
| `Suppliers.SuppliersService.Update` | src/suppliers/suppliers.controller.js:104 | one update is logged with the merged record, and it answers with the service's reply |
| `Suppliers.SuppliersService.Delete` | src/suppliers/suppliers.controller.js:121 | one delete is logged with the supplier id, and it answers with the service's reply |
| `Suppliers.ExistsEffect` | src/suppliers/suppliers.controller.js:56-66 | exactly one read by the route id; on a hit it continues with `locals.supplier` set to the stored record; on a miss it fails with 404 `"Supplier cannot be found"` and `res` is unchanged; a failed read rejects and `res` is unchanged |
| `Suppliers.SupplierExists` | src/suppliers/suppliers.controller.js:56-66 | its outcome, the new `res` and the service log are those of `ExistsEffect` |
| `Suppliers.CreateEffect` | src/suppliers/suppliers.controller.js:79-82 | the payload reaches the service unchanged; a resolved create answers 201 with `{data: created}`; a failed create rejects and `res` is unchanged |
| `Suppliers.Create` | src/suppliers/suppliers.controller.js:79-82 | its outcome, the new `res` and the service log are those of `CreateEffect` |
| `Suppliers.UpdatedSupplier` | src/suppliers/suppliers.controller.js:100-103 | the merged record's `supplier_id` is the resolved supplier's, whatever the payload says; every other key keeps its payload value; the key order is the payload's, with `supplier_id` added last when it was absent; distinct keys stay distinct |
| `Suppliers.AllowedPayloadGainsId` | src/suppliers/suppliers.controller.js:6-17 | `supplier_id` is not an allowed field, so a payload that passes the allow-list has no `supplier_id` and the merge appends the stored one as its last key |
| `Suppliers.UpdatedSupplierKeepsStoredId` | src/suppliers/suppliers.controller.js:100-103 | for the handler on its own (on the route the allow-list rejects such a payload first), a payload `{supplier_name: "B", supplier_id: 999}` merged with a stored supplier 7 gives `{supplier_name: "B", supplier_id: 7}` |
| `Suppliers.UpdateEffect` | src/suppliers/suppliers.controller.js:99-106 | the service receives the merged record; a resolved update answers `{data: updated}` with the current status; without a resolved supplier the stage throws before any service call |
| `Suppliers.Update` | src/suppliers/suppliers.controller.js:99-106 | its outcome, the new `res` and the service log are those of `UpdateEffect` |
| `Suppliers.DestroyEffect` | src/suppliers/suppliers.controller.js:119-123 | deletes by the resolved supplier's `supplier_id`; once the delete resolves it answers 204 with no body, whatever it resolved with |
| `Suppliers.Destroy` | src/suppliers/suppliers.controller.js:119-123 | its outcome, the new `res` and the service log are those of `DestroyEffect` |
| `Products.ProductsService.Read` | src/products/products.controller.js:24 | one read is logged, and it answers with the stored record for the id, absence, or the read's failure |
| `Products.ProductsService.Ask` | src/products/products.controller.js:46-69 | one query is logged, and it answers with that query's reply |
| `Products.ExistsEffect` | src/products/products.controller.js:23-33 | exactly one read by the route id; on a hit it continues with `locals.product` set to the stored record; on a miss it fails with 404 `"Product cannot be found"` and `res` is unchanged; a failed read rejects |
| `Products.ProductExists` | src/products/products.controller.js:23-33 | its outcome, the new `res` and the service log are those of `ExistsEffect` |
| `Products.ResolvedProduct` | src/products/products.controller.js:52 | `res.locals.product` when a product was resolved, and `undefined` otherwise |
| `Products.ReadEffect` | src/products/products.controller.js:51-54 | always responds with `{data: locals.product}` (an undefined `data` when nothing was resolved) and makes no service call |
| `Products.Read` | src/products/products.controller.js:51-54 | takes no service; its outcome and the new `res` are those of `ReadEffect` |
| `Products.ListingEffect` | src/products/products.controller.js:46-69 | one query; its result is answered wrapped under the single key `data`; a failed query rejects and `res` is unchanged |
| `Products.RespondWith` | src/products/products.controller.js:57-69 | awaits one query and answers as `ListingEffect` says |
| `Products.List` | src/products/products.controller.js:46-49 | `ListingEffect` for the full product list |
| `Products.ListOutOfStockCount` | src/products/products.controller.js:57-59 | `ListingEffect` for the out-of-stock count |
| `Products.ListPriceSummary` | src/products/products.controller.js:62-64 | `ListingEffect` for the price summary |
| `Products.ListTotalWeightByProduct` | src/products/products.controller.js:67-69 | `ListingEffect` for the total weight by product |
| `Express.Boundary` | src/suppliers/suppliers.controller.js:125-138 | a wrapped stage never leaves a rejection unforwarded: the rejection becomes `Fail` with the same error, and every other outcome is kept |
| `Express.Res.Status` | src/suppliers/suppliers.controller.js:81 | sets only the status code |
| `Express.DataBody` | src/products/products.controller.js:53 | the `{ data }` body: an object whose single key is `data`, holding the value given |
| `Express.Res.Json` | src/products/products.controller.js:53 | sends the body with the current status; nothing else changes |
| `Express.Res.SendStatus` | src/suppliers/suppliers.controller.js:122 | sets the status and sends no body |
| `Json.Put` | src/suppliers/suppliers.controller.js:100-103 | object-literal property definition: the key takes the new value; every other key keeps its value; an existing key keeps its place and a new one goes last |
| `Json.PutKeepsKeysDistinct` | src/suppliers/suppliers.controller.js:100-103 | defining a property never duplicates a key |
| `Pipeline.Perform` | src/suppliers/suppliers.controller.js:126-139 | one middleware function: service logs only grow; the two validators change nothing; the synchronous stages never reject; each resolver adds no `locals` key other than its own |
| `Pipeline.Step` | src/suppliers/suppliers.controller.js:130-138 | a stage wrapped in `asyncErrorBoundary`, or a synchronous one, never ends `Rejected`; the boundary leaves the function's effect on `res` and the services unchanged |
| `Pipeline.Execute` | src/suppliers/suppliers.controller.js:126-139 | the router's walk: service logs only grow, and a chain whose stages are all wrapped or synchronous never ends in an unforwarded rejection |
| `Pipeline.Run` | src/suppliers/suppliers.controller.js:126-139 | the loop over a route's stages leaves `res`, the service logs and the outcome exactly as `Execute` gives them |
| `Pipeline.ExecuteAppend` | src/products/products.controller.js:71-77 | running a chain is running its prefix and then, only if the prefix continued, its suffix; so no stage after the first non-`Continue` outcome runs |
| `Pipeline.FinishedIffResponded` | src/suppliers/suppliers.controller.js:126-139 | for a request not yet answered, a chain sends a response iff its outcome is `Responded`; guards and failures never write one |
| `Pipeline.SuppliersCreateRoute` | src/suppliers/suppliers.controller.js:127-131 | the service's create runs iff both validators continue, with the payload as given; the first failing validator's error is the outcome and nothing changes; a resolved create answers 201 with `{data: created}`; a failed create becomes `Fail` |
| `Pipeline.SuppliersUpdateRoute` | src/suppliers/suppliers.controller.js:132-137 | the existence check runs first: a missing id fails with 404 whatever the body holds; for a known id `locals.supplier` is the stored record; the validators then run in order; once both continue, the payload has no `supplier_id`, so the merge is the payload's keys with the stored `supplier_id` appended last; a resolved update answers `{data}` |
| `Pipeline.UpdateAfterExists` | src/suppliers/suppliers.controller.js:134-136 | once the supplier is resolved, the first failing validator's error is the outcome and nothing changes; otherwise one update with the merged record (the payload's keys plus `supplier_id` last) is logged, and a resolved update answers `{data}` with the current status |
| `Pipeline.UpdateChecksExistenceBeforeFields` | src/suppliers/suppliers.controller.js:132-137 | an unknown id yields the 404 even when the body has fields that are not allowed |
| `Pipeline.SuppliersDeleteRoute` | src/suppliers/suppliers.controller.js:138 | a missing id fails with 404 and nothing is deleted; otherwise it deletes by the stored record's `supplier_id` and answers 204 with no body, whatever the delete resolved with |
| `Pipeline.ProductsReadRoute` | src/products/products.controller.js:73 | exactly one product read. On a hit, `locals.product` is the stored record, and the response's `data` is that same record. On a miss it fails with 404 `"Product cannot be found"` and does not respond. A failed read stays rejected |
| `Pipeline.ProductsListing` | src/products/products.controller.js:72-76 | each listing route is a single stage, and it is wrapped in `asyncErrorBoundary` exactly for the three aggregate routes |
| `Pipeline.ProductsListingRoute` | src/products/products.controller.js:72-76 | each listing route runs its one query and answers `{data: result}`; only the three wrapped aggregate routes forward a failed query as `Fail` |

## Left out

- `hasProperties` (src/errors/hasProperties) is not part of this model. Its rules and messages are the abstract `RequiredCheck`.
- `asyncErrorBoundary` (src/errors/asyncErrorBoundary) is not part of this model beyond its wrap sites. An error is forwarded as it is, and any default status or message it adds is not modelled.
- The persistence services and their SQL, including the out-of-stock, price and weight aggregates: their replies are left open. The store does not change within a request, which makes at most one write.
- `Json.Value`: numbers are unbounded integers, so JavaScript doubles (`3.5`, `NaN`) cannot be written; the core only passes values through, so no stage depends on it.
- A `data` value that is not an object (`null`, a string, an array): the request carries an object or no `data` at all.
- The ordering `Object.keys` gives integer-like keys: the payload sequence is taken to be in enumeration order already.
- Express itself:
  - routing, and the route parameters guaranteed by the route paths;
  - the error-rendering middleware, and the 404 for a chain that continues past its last stage;
  - what a client sees when a rejection is never forwarded;
  - the error raised when a response is sent twice.
- JSON serialisation (an `undefined` value is dropped from the body) and the status text `sendStatus` writes for a 204.
- Asynchronous scheduling and the interleaving of requests: each request is modelled as one sequential run.
- The categories controller: a one-line wrapper over its service's list.
- The commented-out promise-chaining variants of the stages: they are dead code.
