/** `GET /api/products?barcode=…` (src/app/api/products/route.ts): an exact
    barcode match against the constant catalog, with the HTTP outcomes as a
    datatype. */
module ProductLookup {
  import opened Optional
  import opened Catalog

  /** 400 "Barcode is required", 404 "Product not found", or 200 with the product. */
  datatype LookupResult = MissingBarcode | NotFound | Found(product: Product)

  function StatusCode(r: LookupResult): (code: int)
    ensures code == 400 <==> r.MissingBarcode?
    ensures code == 404 <==> r.NotFound?
    ensures code == 200 <==> r.Found?
  {
    match r
    case MissingBarcode => 400
    case NotFound => 404
    case Found(_) => 200
  }

  /** `Array.prototype.find` on barcodes: the first product, in list order,
      whose barcode equals `barcode`. */
  function FindByBarcode(products: seq<Product>, barcode: string): (r: Option<Product>)
    ensures r.None? <==> forall i :: 0 <= i < |products| ==> products[i].barcode != barcode
    ensures r.Some? ==>
              r.value.barcode == barcode &&
              exists k :: 0 <= k < |products| && products[k] == r.value &&
                forall j :: 0 <= j < k ==> products[j].barcode != barcode
  {
    if products == [] then None
    else if products[0].barcode == barcode then Some(products[0])
    else
      var r := FindByBarcode(products[1..], barcode);
      if r.Some? then
        var k :| 0 <= k < |products| - 1 && products[1..][k] == r.value &&
                 forall j :: 0 <= j < k ==> products[1..][j].barcode != barcode;
        assert products[k + 1] == r.value;
        r
      else
        r
  }

  /** The route: `barcode` is the query parameter, None when it is absent.
      An absent or empty parameter is rejected before the catalog is read. */
  function Get(barcode: Option<string>): (r: LookupResult)
    ensures r.MissingBarcode? <==> barcode.None? || barcode.value == ""
    ensures r.NotFound? <==>
              barcode.Some? && barcode.value != "" &&
              forall i :: 0 <= i < |InitialProducts| ==> InitialProducts[i].barcode != barcode.value
    ensures r.Found? ==> barcode.Some? && r.product.barcode == barcode.value && r.product in InitialProducts
  {
    if barcode.None? || barcode.value == "" then MissingBarcode
    else
      match FindByBarcode(InitialProducts, barcode.value)
      case None => NotFound
      case Some(p) => Found(p)
  }

  /** Every catalog product is found by its own barcode, and the product
      found is that one: barcodes are distinct, so the first match is the
      only one. */
  lemma {:induction false} LookupFindsEachProduct(k: int)
    requires 0 <= k < |InitialProducts|
    ensures Get(Some(InitialProducts[k].barcode)) == Found(InitialProducts[k])
  {
    CatalogWellFormed();
    var b := InitialProducts[k].barcode;
    var r := Get(Some(b));
    assert b != "";
    assert r.Found?;
    var i :| 0 <= i < |InitialProducts| && InitialProducts[i] == r.product &&
             forall j :: 0 <= j < i ==> InitialProducts[j].barcode != b;
    assert i == k;
  }

  /** A found product is the unique catalog entry carrying the query barcode. */
  lemma FoundIsUnique(barcode: string, p: Product)
    requires Get(Some(barcode)) == Found(p)
    ensures forall q :: q in InitialProducts && q.barcode == barcode ==> q == p
  {
    CatalogWellFormed();
  }
}
