/**
 * The document store the controller talks to, reduced to what the handlers
 * use: a map from id to record, the id allocator behind `new productModel`,
 * and the newest-first listing query `find({}).sort({ date: -1 }).limit(n)`.
 * Every call takes a flag that decides whether it throws.
 */
module CatalogStore {
  import opened Wrappers
  import opened Products

  /** Ordered by creation date, newest first. */
  ghost predicate NewestFirst(ps: seq<Product>) {
    forall i, j :: 0 <= i < j < |ps| ==> ps[j].date <= ps[i].date
  }

  /** Some listed record has this id. */
  ghost predicate Listed(ps: seq<Product>, id: Id) {
    exists i :: 0 <= i < |ps| && ps[i].id == id
  }

  /**
   * `ps` is an answer of the newest-first query limited to `limit` items:
   * as many records as the limit allows, drawn from the store without
   * repetition, newest first, and no record left out is newer than one listed.
   */
  ghost predicate IsRecentListing(records: map<Id, Product>, limit: nat, ps: seq<Product>) {
    && |ps| == (if limit < |records| then limit else |records|)
    && NewestFirst(ps)
    && (forall i :: 0 <= i < |ps| ==> ps[i].id in records && records[ps[i].id] == ps[i])
    && (forall i, j :: 0 <= i < j < |ps| ==> ps[i].id != ps[j].id)
    && (forall id, i :: id in records && !Listed(ps, id) && 0 <= i < |ps| ==> records[id].date <= ps[i].date)
  }

  /** A non-empty set of stored ids holds one whose record is at least as new as every other's. */
  lemma {:induction false} NewestExists(records: map<Id, Product>, ids: set<Id>)
    requires ids != {} && ids <= records.Keys
    ensures exists m :: m in ids && forall j :: j in ids ==> records[j].date <= records[m].date
    decreases ids
  {
    var x :| x in ids;
    if ids != {x} {
      NewestExists(records, ids - {x});
      var m :| m in ids - {x} && forall j :: j in ids - {x} ==> records[j].date <= records[m].date;
      if records[x].date <= records[m].date {
        assert forall j :: j in ids ==> records[j].date <= records[m].date;
      } else {
        assert forall j :: j in ids ==> records[j].date <= records[x].date;
      }
    }
  }

  /**
   * Selection so far over records filed under their own ids: `ps` lists records newest first without repetition,
   * `rest` holds exactly the ids not yet listed, and none of them is newer
   * than a listed record.
   */
  ghost predicate Selecting(records: map<Id, Product>, ps: seq<Product>, rest: set<Id>) {
    && (forall k :: k in records ==> records[k].id == k)
    && rest <= records.Keys
    && NewestFirst(ps)
    && (forall i :: 0 <= i < |ps| ==> ps[i].id in records && records[ps[i].id] == ps[i] && ps[i].id !in rest)
    && (forall i, j :: 0 <= i < j < |ps| ==> ps[i].id != ps[j].id)
    && (forall id :: id in records && !Listed(ps, id) ==> id in rest)
    && (forall id, i :: id in rest && 0 <= i < |ps| ==> records[id].date <= ps[i].date)
  }

  /** Moving the newest remaining record to the end of the listing keeps the selection invariant. */
  lemma SelectNewest(records: map<Id, Product>, ps: seq<Product>, rest: set<Id>, id: Id)
    requires Selecting(records, ps, rest)
    requires id in rest && forall j :: j in rest ==> records[j].date <= records[id].date
    ensures Selecting(records, ps + [records[id]], rest - {id})
  {
    var ps' := ps + [records[id]];
    forall k | Listed(ps, k) ensures Listed(ps', k) {
      var i :| 0 <= i < |ps| && ps[i].id == k;
      assert ps'[i].id == k;
    }
    assert Listed(ps', id) by {
      assert ps'[|ps|].id == id;
    }
  }

  /** A selection that reached the limit or ran out of records is an answer of the limited query. */
  lemma SelectionComplete(records: map<Id, Product>, limit: nat, ps: seq<Product>, rest: set<Id>)
    requires Selecting(records, ps, rest)
    requires |ps| + |rest| == |records| && |ps| <= limit
    requires |ps| == limit || rest == {}
    ensures IsRecentListing(records, limit, ps)
  {
  }

  /** A loaded document: its fields are assigned in place before it is saved. */
  class ProductDocument {
    const id: Id
    var name: FormValue
    var productCode: FormValue
    var description: FormValue
    var price: int
    var moq: FormValue
    var category: FormValue
    var subCategory: FormValue
    var bestseller: bool
    var sizes: seq<string>
    var colors: seq<string>
    var fabric: seq<string>
    var image: seq<string>
    var date: int

    /** The record the document currently holds. */
    function Value(): Product
      reads this
    {
      Product(id, name, productCode, description, price, moq, category, subCategory,
              bestseller, sizes, colors, fabric, image, date)
    }

    constructor (p: Product)
      ensures Value() == p
    {
      id := p.id;
      name := p.name;
      productCode := p.productCode;
      description := p.description;
      price := p.price;
      moq := p.moq;
      category := p.category;
      subCategory := p.subCategory;
      bestseller := p.bestseller;
      sizes := p.sizes;
      colors := p.colors;
      fabric := p.fabric;
      image := p.image;
      date := p.date;
    }

    /** Overwrites the normalised field set in place; id, images and creation date stay. */
    method AssignFields(f: Fields)
      modifies this
      ensures FieldsOf(Value()) == f
      ensures image == old(image) && date == old(date)
    {
      name := f.name;
      description := f.description;
      price := f.price;
      category := f.category;
      subCategory := f.subCategory;
      productCode := f.productCode;
      moq := f.moq;
      bestseller := f.bestseller;
      sizes := f.sizes;
      colors := f.colors;
      fabric := f.fabric;
    }
  }

  class Store {
    /** The product collection, keyed by id. */
    var records: map<Id, Product>
    /** The next identifier to hand out; every stored id is below it. */
    var nextId: Id
    /** Number of listing queries issued so far. */
    ghost var queries: nat

    ghost predicate Valid()
      reads this
    {
      forall k :: k in records ==> records[k].id == k && k < nextId
    }

    constructor ()
      ensures Valid() && records == map[] && queries == 0
    {
      records := map[];
      nextId := 0;
      queries := 0;
    }

    /** A fresh identifier, as the document constructor assigns one. */
    method Allocate() returns (id: Id)
      requires Valid()
      modifies this`nextId
      ensures Valid()
      ensures id == old(nextId) && id !in records && nextId == id + 1
    {
      id := nextId;
      nextId := nextId + 1;
    }

    /** The newest-first listing query limited to `limit` records, or None when it throws. */
    method FindRecent(limit: nat, fails: bool) returns (r: Option<seq<Product>>)
      requires Valid()
      modifies this`queries
      ensures queries == old(queries) + 1
      ensures r.Some? <==> !fails
      ensures r.Some? ==> IsRecentListing(records, limit, r.value)
    {
      queries := queries + 1;
      if fails {
        return None;
      }
      var ps: seq<Product> := [];
      var rest := records.Keys;
      assert |records.Keys| == |records|;
      while |ps| < limit && rest != {}
        invariant queries == old(queries) + 1
        invariant Selecting(records, ps, rest)
        invariant |ps| + |rest| == |records|
        invariant |ps| <= limit
        decreases rest
      {
        NewestExists(records, rest);
        var id :| id in rest && forall j :: j in rest ==> records[j].date <= records[id].date;
        SelectNewest(records, ps, rest, id);
        ps := ps + [records[id]];
        rest := rest - {id};
      }
      SelectionComplete(records, limit, ps, rest);
      r := Some(ps);
    }

    /** `findById`: a freshly loaded document, None when no record has the id, Threw when the call throws. */
    method FindById(id: Id, fails: bool) returns (r: Outcome<Option<ProductDocument>>)
      ensures fails ==> r == Threw
      ensures !fails ==> r.Returned? && (r.value.Some? <==> id in records)
      ensures r.Returned? && r.value.Some? ==> fresh(r.value.value) && r.value.value.Value() == records[id]
    {
      if fails {
        return Threw;
      }
      if id in records {
        var doc := new ProductDocument(records[id]);
        r := Returned(Some(doc));
      } else {
        r := Returned(None);
      }
    }

    /** `save`: writes the document's record under its id (insert or overwrite) unless the call throws. */
    method Save(doc: ProductDocument, fails: bool) returns (ok: bool)
      requires Valid() && doc.id < nextId
      modifies this`records
      ensures Valid()
      ensures ok == !fails
      ensures ok ==> records == old(records)[doc.id := doc.Value()]
      ensures !ok ==> records == old(records)
    {
      ok := !fails;
      if ok {
        records := records[doc.id := doc.Value()];
      }
    }

    /** `findByIdAndDelete`: removes the record if there is one; a missing id is no error. */
    method DeleteById(id: Id, fails: bool) returns (ok: bool)
      requires Valid()
      modifies this`records
      ensures Valid()
      ensures ok == !fails
      ensures ok ==> records == old(records) - {id}
      ensures !ok ==> records == old(records)
    {
      ok := !fails;
      if ok {
        records := records - {id};
      }
    }
  }
}
