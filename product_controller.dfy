/**
 * The product controller (controllers/productController.js): the listing
 * cache held in two process-wide variables, and the add, update, list and
 * remove handlers that read and clear it around their store calls.
 */
module ProductController {
  import opened Wrappers
  import opened Products
  import opened ListingCache
  import opened CatalogStore

  /** Most records a listing returns. */
  const ListLimit: nat := 30

  /** The messages the handlers answer with. */
  datatype Message = NoImage | ProductAdded | ProductNotFound | ProductUpdated | ProductRemoved | ServerError {
    /** The exact text sent to the client. */
    function Text(): string {
      match this
      case NoImage => "Please upload at least one product image."
      case ProductAdded => "Product Added Successfully"
      case ProductNotFound => "Product not found"
      case ProductUpdated => "Product Updated Successfully"
      case ProductRemoved => "Product Removed"
      case ServerError => "Server error"
    }
  }

  /** The JSON body a handler answers with. */
  datatype Reply =
    | Listing(products: seq<Product>)                 // { success: true, products }
    | Done(message: Message, product: Option<Product>) // { success: true, message[, product] }
    | Failed(message: Message)                        // { success: false, message }

  /** The media host: the secure URL of an uploaded file, or None when the upload is rejected. */
  type MediaHost = string -> Option<string>

  /**
   * `Promise.all` over one upload per file: the URLs in file order when every
   * upload succeeds, None as soon as one of them is rejected.
   */
  function UploadAll(paths: seq<string>, host: MediaHost): (r: Option<seq<string>>)
    ensures r.Some? <==> forall i :: 0 <= i < |paths| ==> host(paths[i]).Some?
    ensures r.Some? ==> |r.value| == |paths|
    ensures r.Some? ==> forall i :: 0 <= i < |paths| ==> r.value[i] == host(paths[i]).value
  {
    if paths == [] then Some([])
    else
      match (host(paths[0]), UploadAll(paths[1..], host))
      case (Some(url), Some(urls)) => Some([url] + urls)
      case _ => None
  }

  class Controller {
    /** The snapshot slot (`cachedProducts`); None is `null`. */
    var cachedProducts: Option<seq<Product>>
    /** When the snapshot was fetched (`lastFetchTime`), in milliseconds. */
    var lastFetchTime: int
    /** The product collection. */
    const db: Store

    /**
     * The store is consistent, and a present snapshot is always a valid
     * newest-first listing of the records as they are now: every write that
     * changes the store also clears the slot.
     */
    ghost predicate Valid()
      reads this, db
    {
      db.Valid() && (cachedProducts.Some? ==> IsRecentListing(db.records, ListLimit, cachedProducts.value))
    }

    /** The cache variables as a value. */
    function Cache(): CacheState
      reads this
    {
      CacheState(cachedProducts, lastFetchTime)
    }

    constructor (db: Store)
      requires db.Valid()
      ensures Valid() && this.db == db && Cache() == Initial
    {
      this.db := db;
      cachedProducts := None;
      lastFetchTime := 0;
    }

    /**
     * `listProducts`: a hit answers from the slot without touching the store;
     * a miss runs one listing query and, unless it throws, stores its answer
     * with the current time.
     */
    method ListProducts(now: int, queryFails: bool) returns (r: Reply)
      requires Valid()
      modifies this, db`queries
      ensures Valid()
      ensures db.records == old(db.records)
      ensures Hit(old(Cache()), now) ==>
        r == Listing(old(cachedProducts).value) && Cache() == old(Cache()) && db.queries == old(db.queries)
      ensures !Hit(old(Cache()), now) ==> db.queries == old(db.queries) + 1
      ensures !Hit(old(Cache()), now) && queryFails ==>
        r == Failed(ServerError) && Cache() == old(Cache())
      ensures !Hit(old(Cache()), now) && !queryFails ==>
        r.Listing? && Cache() == Refilled(now, r.products)
      ensures r.Listing? ==> IsRecentListing(db.records, ListLimit, r.products)
    {
      if cachedProducts.Some? && now - lastFetchTime < CacheDuration {
        return Listing(cachedProducts.value);
      }
      var products := db.FindRecent(ListLimit, queryFails);
      if products.None? {
        return Failed(ServerError);
      }
      cachedProducts := Some(products.value);
      lastFetchTime := now;
      r := Listing(products.value);
    }

    /**
     * `addProduct`: refuses a form without images; otherwise uploads them,
     * normalises the form, saves a new record stamped with `now`, and clears
     * the slot only once the save went through.
     */
    method AddProduct(form: ProductForm, images: seq<string>, now: int, host: MediaHost, parse: JsonParser, saveFails: bool)
      returns (r: Reply)
      requires Valid()
      modifies this, db`records, db`nextId
      ensures Valid()
      ensures images == [] ==>
        r == Failed(NoImage) && db.records == old(db.records) && Cache() == old(Cache())
      ensures images != [] && (UploadAll(images, host).None? || Normalize(form, parse).None? || saveFails) ==>
        r == Failed(ServerError) && db.records == old(db.records) && Cache() == old(Cache())
      ensures images != [] && UploadAll(images, host).Some? && Normalize(form, parse).Some? && !saveFails ==>
        var p := NewProduct(Normalize(form, parse).value, UploadAll(images, host).value, now, old(db.nextId));
        && p.id !in old(db.records)
        && db.records == old(db.records)[p.id := p]
        && Cache() == Cleared(old(Cache()))
        && r == Done(ProductAdded, Some(p))
    {
      if |images| == 0 {
        return Failed(NoImage);
      }
      var imageUrls := UploadAll(images, host);
      if imageUrls.None? {
        return Failed(ServerError);
      }
      var fields := Normalize(form, parse);
      if fields.None? {
        return Failed(ServerError);
      }
      var id := db.Allocate();
      var product := new ProductDocument(NewProduct(fields.value, imageUrls.value, now, id));
      var saved := db.Save(product, saveFails);
      if !saved {
        return Failed(ServerError);
      }
      cachedProducts := None;
      r := Done(ProductAdded, Some(product.Value()));
    }

    /**
     * `updateProduct`: loads the record, overwrites its field set in place,
     * replaces its images only when new files arrive, saves it, and clears the
     * slot only once the save went through.
     */
    method UpdateProduct(id: Id, form: ProductForm, images: seq<string>, host: MediaHost, parse: JsonParser, findFails: bool, saveFails: bool)
      returns (r: Reply)
      requires Valid()
      modifies this, db`records
      ensures Valid()
      ensures findFails ==>
        r == Failed(ServerError) && db.records == old(db.records) && Cache() == old(Cache())
      ensures !findFails && id !in old(db.records) ==>
        r == Failed(ProductNotFound) && db.records == old(db.records) && Cache() == old(Cache())
      ensures !findFails && id in old(db.records) && (Normalize(form, parse).None? || UploadAll(images, host).None? || saveFails) ==>
        r == Failed(ServerError) && db.records == old(db.records) && Cache() == old(Cache())
      ensures !findFails && id in old(db.records) && Normalize(form, parse).Some? && UploadAll(images, host).Some? && !saveFails ==>
        var p := Updated(old(db.records)[id], Normalize(form, parse).value, UploadAll(images, host).value);
        && db.records == old(db.records)[id := p]
        && Cache() == Cleared(old(Cache()))
        && r == Done(ProductUpdated, Some(p))
    {
      var found := db.FindById(id, findFails);
      if found.Threw? {
        return Failed(ServerError);
      }
      if found.value.None? {
        return Failed(ProductNotFound);
      }
      var product := found.value.value;
      ghost var before := product.Value();
      var fields := Normalize(form, parse);
      if fields.None? {
        return Failed(ServerError);
      }
      product.AssignFields(fields.value);
      if |images| > 0 {
        var imageUrls := UploadAll(images, host);
        if imageUrls.None? {
          return Failed(ServerError);
        }
        product.image := imageUrls.value;
      }
      assert fields.Some? && UploadAll(images, host).Some?;
      assert product.Value() == Updated(before, fields.value, UploadAll(images, host).value);
      var saved := db.Save(product, saveFails);
      if !saved {
        return Failed(ServerError);
      }
      cachedProducts := None;
      r := Done(ProductUpdated, Some(product.Value()));
    }

    /**
     * `removeProduct`: deletes the record if there is one and clears the slot
     * once the delete call returned, whether or not a record matched.
     */
    method RemoveProduct(id: Id, deleteFails: bool) returns (r: Reply)
      requires Valid()
      modifies this, db`records
      ensures Valid()
      ensures deleteFails ==>
        r == Failed(ServerError) && db.records == old(db.records) && Cache() == old(Cache())
      ensures !deleteFails ==>
        db.records == old(db.records) - {id} && Cache() == Cleared(old(Cache())) && r == Done(ProductRemoved, None)
    {
      var deleted := db.DeleteById(id, deleteFails);
      if !deleted {
        return Failed(ServerError);
      }
      cachedProducts := None;
      r := Done(ProductRemoved, None);
    }
  }
}
