/**
 * Product records and the normalisation that the add and update handlers
 * apply to a submitted product form (controllers/productController.js).
 */
module Products {
  import opened Wrappers

  /** Identifier the store gives a record when it is created. */
  type Id = nat

  /**
   * A loosely typed request-body value. Multipart fields arrive as text or
   * are missing; a JSON body may also carry booleans or null.
   */
  datatype FormValue = Undefined | Null | Bool(b: bool) | Text(s: string)

  /** JavaScript truthiness of a body value. */
  predicate Truthy(v: FormValue) {
    match v
    case Undefined => false
    case Null => false
    case Bool(b) => b
    case Text(s) => s != ""
  }

  /** A body value that is not missing. */
  predicate Defined(v: FormValue) {
    !v.Undefined? && !v.Null?
  }

  /** `JSON.parse` of a list-valued field: the parsed labels, or None when it throws. */
  type JsonParser = FormValue -> Option<seq<string>>

  /** The fields of a submitted product form (the request body minus `id`). */
  datatype ProductForm = ProductForm(
    name: FormValue,
    description: FormValue,
    price: int,
    category: FormValue,
    subCategory: FormValue,
    sizes: FormValue,
    bestseller: FormValue,
    productCode: FormValue,
    colors: FormValue,
    fabric: FormValue,
    moq: FormValue)

  /** The normalised field set that both add and update write. */
  datatype Fields = Fields(
    name: FormValue,
    description: FormValue,
    price: int,
    category: FormValue,
    subCategory: FormValue,
    productCode: FormValue,
    moq: FormValue,
    bestseller: bool,
    sizes: seq<string>,
    colors: seq<string>,
    fabric: seq<string>)

  /** A stored product record, with the fields the controller writes. */
  datatype Product = Product(
    id: Id,
    name: FormValue,
    productCode: FormValue,
    description: FormValue,
    price: int,
    moq: FormValue,
    category: FormValue,
    subCategory: FormValue,
    bestseller: bool,
    sizes: seq<string>,
    colors: seq<string>,
    fabric: seq<string>,
    image: seq<string>,
    date: int)

  /** `bestseller === "true" || bestseller === true` */
  predicate IsTrueFlag(v: FormValue) {
    v == Text("true") || v == Bool(true)
  }

  /** The flag is strict: only the exact text "true" or the boolean true set it. */
  lemma IsTrueFlagIsStrict(v: FormValue)
    ensures IsTrueFlag(v) ==> Truthy(v)
    ensures v.Text? ==> (IsTrueFlag(v) <==> v.s == "true")
    ensures v.Bool? ==> (IsTrueFlag(v) <==> v.b)
    ensures !Defined(v) ==> !IsTrueFlag(v)
  {
  }

  /** Every non-empty text other than "true" is truthy yet leaves the flag unset ("false", "True", "1", ...). */
  lemma TruthyTextIsNotTrueFlag(v: FormValue)
    ensures v.Text? && v.s != "" && v.s != "true" ==> Truthy(v) && !IsTrueFlag(v)
  {
  }

  /** `x || ""` */
  function OrEmpty(v: FormValue): (r: FormValue)
    ensures Defined(r)
    ensures Truthy(v) ==> r == v
    ensures !Truthy(v) ==> r == Text("")
  {
    if Truthy(v) then v else Text("")
  }

  /** Text passes through `x || ""` unchanged, the empty text included; a second pass changes nothing. */
  lemma OrEmptyKeepsText(v: FormValue)
    ensures v.Text? ==> OrEmpty(v) == v
    ensures OrEmpty(OrEmpty(v)) == OrEmpty(v)
    ensures OrEmpty(v).Text? || OrEmpty(v) == Bool(true)
  {
  }

  /** `x ? JSON.parse(x) : []`: None when the parse throws. */
  function ListOrEmpty(v: FormValue, parse: JsonParser): (r: Option<seq<string>>)
    ensures !Truthy(v) ==> r == Some([])
    ensures Truthy(v) ==> r == parse(v)
  {
    if Truthy(v) then parse(v) else Some([])
  }

  /**
   * A falsy value, the empty text among them, is never handed to the parser:
   * any two parsers give the same result for it.
   */
  lemma FalsyListIsEmpty(v: FormValue, p1: JsonParser, p2: JsonParser)
    requires !Truthy(v)
    ensures ListOrEmpty(v, p1) == ListOrEmpty(v, p2)
    ensures v.Text? ==> v.s == ""
  {
  }

  /**
   * The normalisation shared by add and update: None when one of the three
   * list fields fails to parse, otherwise the field set both handlers write.
   */
  function Normalize(form: ProductForm, parse: JsonParser): (r: Option<Fields>)
    ensures r.Some? <==>
      ListOrEmpty(form.sizes, parse).Some? && ListOrEmpty(form.colors, parse).Some? && ListOrEmpty(form.fabric, parse).Some?
    ensures r.Some? ==>
      && r.value.name == form.name && r.value.description == form.description
      && r.value.price == form.price
      && r.value.category == form.category && r.value.subCategory == form.subCategory
      && Defined(r.value.productCode) && Defined(r.value.moq)
      && (Truthy(form.productCode) ==> r.value.productCode == form.productCode)
      && (!Truthy(form.productCode) ==> r.value.productCode == Text(""))
      && (Truthy(form.moq) ==> r.value.moq == form.moq)
      && (!Truthy(form.moq) ==> r.value.moq == Text(""))
      && (r.value.bestseller <==> form.bestseller == Text("true") || form.bestseller == Bool(true))
      && r.value.sizes == ListOrEmpty(form.sizes, parse).value
      && r.value.colors == ListOrEmpty(form.colors, parse).value
      && r.value.fabric == ListOrEmpty(form.fabric, parse).value
  {
    var sizes := ListOrEmpty(form.sizes, parse);
    var colors := ListOrEmpty(form.colors, parse);
    var fabric := ListOrEmpty(form.fabric, parse);
    if sizes.None? || colors.None? || fabric.None? then None
    else
      Some(Fields(
        form.name, form.description, form.price, form.category, form.subCategory,
        OrEmpty(form.productCode), OrEmpty(form.moq), IsTrueFlag(form.bestseller),
        sizes.value, colors.value, fabric.value))
  }

  /** The normalised fields a record carries. */
  function FieldsOf(p: Product): Fields {
    Fields(p.name, p.description, p.price, p.category, p.subCategory,
           p.productCode, p.moq, p.bestseller, p.sizes, p.colors, p.fabric)
  }

  /** The record `addProduct` builds: the fields, the uploaded image URLs and the creation time. */
  function NewProduct(f: Fields, image: seq<string>, date: int, id: Id): Product {
    Product(id, f.name, f.productCode, f.description, f.price, f.moq, f.category,
            f.subCategory, f.bestseller, f.sizes, f.colors, f.fabric, image, date)
  }

  /**
   * The record after `updateProduct`'s assignments: every field of the set is
   * overwritten, the images only when at least one new upload arrived.
   */
  function Updated(p: Product, f: Fields, uploaded: seq<string>): Product {
    p.(name := f.name, description := f.description, price := f.price,
       category := f.category, subCategory := f.subCategory,
       productCode := f.productCode, moq := f.moq, bestseller := f.bestseller,
       sizes := f.sizes, colors := f.colors, fabric := f.fabric,
       image := if |uploaded| > 0 then uploaded else p.image)
  }

  /** A created record reads back as exactly the submitted fields, images and creation time. */
  lemma NewProductRoundTrip(f: Fields, image: seq<string>, date: int, id: Id)
    ensures FieldsOf(NewProduct(f, image, date, id)) == f
    ensures NewProduct(f, image, date, id).id == id
    ensures NewProduct(f, image, date, id).image == image
    ensures NewProduct(f, image, date, id).date == date
  {
  }

  /**
   * Update frame: the field set is replaced, the id and the creation date never
   * change, the images change exactly when a non-empty upload list is given.
   */
  lemma UpdatedFrame(p: Product, f: Fields, uploaded: seq<string>)
    ensures FieldsOf(Updated(p, f, uploaded)) == f
    ensures Updated(p, f, uploaded).id == p.id
    ensures Updated(p, f, uploaded).date == p.date
    ensures uploaded == [] ==> Updated(p, f, uploaded).image == p.image
    ensures uploaded != [] ==> Updated(p, f, uploaded).image == uploaded
  {
  }

  /** Add and update normalise a form identically: the records they write agree on every field of the set. */
  lemma SameNormalisation(form: ProductForm, parse: JsonParser, p: Product, image: seq<string>, uploaded: seq<string>, date: int, id: Id)
    requires Normalize(form, parse).Some?
    ensures FieldsOf(NewProduct(Normalize(form, parse).value, image, date, id))
         == FieldsOf(Updated(p, Normalize(form, parse).value, uploaded))
  {
    NewProductRoundTrip(Normalize(form, parse).value, image, date, id);
    UpdatedFrame(p, Normalize(form, parse).value, uploaded);
  }
}
