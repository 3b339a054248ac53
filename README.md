# Product catalog controller: listing cache and write handlers

This project models the product controller of a small e-commerce catalog
backend (`controllers/productController.js`). The controller answers five
requests against a MongoDB product collection, of which this model covers
add, update, list and remove.
In front of the listing it keeps a single-slot, process-wide cache. The slot
(`cachedProducts`) holds the last listing, `lastFetchTime` records when it was
fetched, and a listing is served from the slot while that snapshot is present
and younger than 60 000 ms. Every write handler clears the slot once its store
call has returned.

The model has five modules:

- `Wrappers` (wrappers.dfy): `Option`, and `Outcome` for a collaborator call
  that may throw.
- `Products` (products.dfy): the loosely typed request-body value
  (`FormValue`: missing, `null`, a boolean or text, with JavaScript
  truthiness), the product record, and the pure normalisation rules shared by
  add and update. These are the `bestseller` flag test, `x || ""` and
  `x ? JSON.parse(x) : []`. It also holds the record the add handler builds
  and the record the update handler's assignments produce.
- `ListingCache` (listing_cache.dfy): the two cache variables as a value with
  the hit test, refill and clear transitions. `Replay` runs a trace of
  listings and completed writes against them and counts store queries, which
  states the lifetime and query-count properties.
- `CatalogStore` (catalog_store.dfy): the store the handlers call. It is a
  class holding the collection as a map from id to record, the id allocator
  behind `new productModel(...)`, and a ghost counter of listing queries. Its
  methods are `findById`, `save`, `findByIdAndDelete` and the newest-first
  listing query `find({}).sort({ date: -1 }).limit(n)`. `ProductDocument` is a
  loaded document whose fields the update handler assigns in place.
- `ProductController` (product_controller.dfy): the `Controller` class. Its
  fields are the two cache variables and its methods are the four handlers.
  `UploadAll` models the `Promise.all` over the per-file media-host uploads.

External effects are parameters:

- the current time `now`;
- the media host, a function from a file path to a secure URL or a
  rejection;
- `JSON.parse`, a function from a body value to a list of labels or a
  throw;
- one flag per store call saying whether that call throws.

The controller's object invariant (`Controller.Valid`) states the cache's
central promise: a present snapshot is always a valid newest-first listing of
at most 30 records taken from the store as it is now. This holds because
every handler either leaves the store unchanged or clears the slot.

The model follows the code:

- Invalidation happens only after the store call returned normally. A
  failed upload, parse or save leaves the slot untouched.
- `removeProduct` answers "Server error" when the delete call throws. It does
  not always succeed.
- The creation timestamp is the field `date`.
- `Number(price)` does not reject unparsable prices; the model takes the
  price as an integer (see below).

## Model

| member | source | states |
|---|---|---|
| Products.IsTrueFlagIsStrict | controllers/productController.js:60 | `bestseller` is set exactly by the text "true" or the boolean true: other text such as "True" or "1", false, null and a missing value all leave it false, and a set flag implies the value was truthy |
| Products.TruthyTextIsNotTrueFlag | controllers/productController.js:117 | the strict equality differs from truthiness: every non-empty text other than "true" ("false", "True", "1", ...) is truthy yet leaves the flag unset |
| Products.OrEmpty | controllers/productController.js:54-57 | `x \|\| ""` never yields a missing or null value: a truthy input is kept, a falsy one becomes the empty text |
| Products.OrEmptyKeepsText | controllers/productController.js:115-116 | any text, the empty text included, passes through unchanged; applying the default twice changes nothing; the result is text or the boolean true |
| Products.ListOrEmpty | controllers/productController.js:61-63 | a falsy list field yields `[]` without parsing; a truthy one yields exactly the parser's answer, a throw included |
| Products.FalsyListIsEmpty | controllers/productController.js:118-120 | a falsy list field (missing, null or the empty text) is never handed to `JSON.parse`: any two parsers give the same result for it |
| Products.Normalize | controllers/productController.js:52-63 | the field set succeeds iff all three list fields parse; name, description, price and the categories are copied; `productCode` and `moq` are defined and defaulted to ""; `bestseller` follows the strict test; each list field is the parser's answer when truthy and `[]` otherwise |
| Products.NewProductRoundTrip | controllers/productController.js:52-66 | a created record reads back as exactly the normalised fields, with the uploaded URLs as images, the creation time as `date` and the allocated id |
| Products.UpdatedFrame | controllers/productController.js:110-135 | the update overwrites the whole field set, never changes the id or `date`, and replaces the images exactly when a non-empty upload list arrived |
| Products.SameNormalisation | controllers/productController.js:115-120 | add and update normalise a form identically: the records they write agree on every field of the set |
| ListingCache.ClearedForcesMiss | controllers/productController.js:140 | clearing drops the snapshot, keeps `lastFetchTime`, is idempotent, and makes the next listing a miss at any time |
| ListingCache.TtlBoundary | controllers/productController.js:161 | a snapshot fetched at t is served at t + 59 999 and not at t + 60 000 (strict `<`); an empty snapshot is still a hit |
| ListingCache.ReplayAnswersEveryListing | controllers/productController.js:156-179 | over any trace every listing gets exactly one answer and there are never more store queries than listings |
| ListingCache.WindowServesSnapshot | controllers/productController.js:160-163 | listings less than 60 000 ms after the fetch, with no write between, all return the cached snapshot, issue no query and leave slot and timestamp unchanged |
| ListingCache.OneQueryPerWindow | controllers/productController.js:161-174 | a listing that misses at t, followed only by listings less than 60 000 ms later, costs exactly one query; every answer is that fetched listing and the slot holds it stamped t |
| ListingCache.TwoListingsOneQuery | controllers/productController.js:9-11 | from the initial state, two listings less than 60 000 ms apart issue one query in total and return the same listing |
| ListingCache.ExpiredSnapshotIsRefetched | controllers/productController.js:165-174 | a listing 60 000 ms or more after the fetch issues one query, returns the store's current listing and stores it stamped with the new time |
| ListingCache.WriteForcesFreshListing | controllers/productController.js:186-189 | after a completed write the next listing, whenever it comes, issues one query and returns the listing of the store after that write |
| CatalogStore.Store.FindRecent | controllers/productController.js:165-169 | the listing query counts one query; unless it throws it returns min(30, size) distinct stored records, newest first, with no unlisted record newer than a listed one |
| CatalogStore.Store.FindById | controllers/productController.js:105 | a lookup throws, finds nothing exactly when no record has the id, or yields a fresh document holding that record |
| CatalogStore.Store.Save | controllers/productController.js:137 | a save that does not throw writes the document's record under its id and changes nothing else; one that throws changes nothing |
| CatalogStore.Store.DeleteById | controllers/productController.js:186 | a delete that does not throw removes the id if present and is no error otherwise; one that throws changes nothing |
| CatalogStore.Store.Allocate | controllers/productController.js:68 | a new document receives an id no stored record has |
| CatalogStore.ProductDocument.AssignFields | controllers/productController.js:110-120 | the in-place assignments leave the document holding exactly the given field set, with its images and `date` untouched |
| ProductController.UploadAll | controllers/productController.js:42-50 | the uploads succeed iff every file's upload succeeds; the URLs then come one per file in file order |
| ProductController.Controller.constructor | controllers/productController.js:9-10 | the process starts with no snapshot and `lastFetchTime` zero |
| ProductController.Controller.ListProducts | controllers/productController.js:156-179 | a hit returns the snapshot with no query and no state change; a miss issues one query and, unless it throws, stores the answer stamped `now` and returns it; a thrown query answers "Server error" and keeps the cache; any listing returned is a valid newest-first top-30 of the current store |
| ProductController.Controller.AddProduct | controllers/productController.js:16-83 | no images answers "Please upload at least one product image." with store and cache untouched; a failed upload, parse or save answers "Server error" with store and cache untouched; otherwise exactly one new record (normalised fields, uploaded URLs, `date` = now, fresh id) is added and the slot is cleared with its timestamp kept |
| ProductController.Controller.UpdateProduct | controllers/productController.js:88-151 | a throwing lookup answers "Server error" and an unknown id answers "Product not found", both with store and cache untouched; a failed parse, upload or save answers "Server error" with store and cache untouched; otherwise only that record changes, to the updated record, and the slot is cleared |
| ProductController.Controller.RemoveProduct | controllers/productController.js:184-196 | unless the delete throws the id is gone (present or not), the slot is cleared and the answer is "Product Removed"; a throw answers "Server error" with store and cache untouched |

## Left out

- `singleProduct` (controllers/productController.js:201-209) is not modelled. It is a plain lookup with no logic of its own.
- The media-host upload, the temporary-file cleanup with `fs.unlink` and its swallowed errors are external I/O. The host is a function from a file path to a URL or a rejection. Files already uploaded when a later step fails are not tracked.
- `Number(price)` and its NaN results are floating-point parsing. The price arrives as an integer.
- `JSON.parse` is a parameter returning a list of labels or a throw. A parse that yields a non-list value is not distinguished.
- Request-body values other than missing, `null`, booleans and text are not modelled. This covers numbers, arrays and objects from a JSON body.
- Mongoose internals are not modelled: schema casting, required-field validation, the `lean()` plain objects and the query planner. A save that validation would reject is covered by the save-failure flag.
- models/productModel.js declares `code` while the controller writes `productCode`. The model keeps the controller's field name and does not model what the schema does with it.
- Ids are natural numbers from a store-side counter, not MongoDB ObjectIds. The allocator stands for ObjectId uniqueness. A malformed id that makes `findById` throw is covered by the lookup-failure flag.
- `CatalogStore.Store.FindRecent` is a selection over the map. It specifies the query's answer, not MongoDB's tie order: records with equal `date` may be listed in any order.
- Clock reads (`Date.now()`) are the `now` parameter; the model assumes nothing about the clock's monotonicity.
- HTTP status codes (500 versus 200), `console.error` logging and the Express response plumbing are not modelled beyond the success flag and message.
- Concurrent requests racing on the shared slot are not modelled; requests are sequential. Other processes writing to the same collection would also break the coherence invariant and are not modelled.
- `ProductController.Controller.UpdateProduct`: the assignments at lines 110-117 come before the list parses at lines 118-120. When a parse throws, the half-assigned document is discarded and never saved, so the model normalises the whole form before assigning any field.
- server.js (routing, middleware) and config/mongodb.js (connection bootstrapping) are not part of this model.
