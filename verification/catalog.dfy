/** The product catalog of src/lib/mockData.ts: the `Product` record and
    the constant `initialProducts` list. */
module Catalog {
  import Store

  /** A catalog entry; the image URL is not modelled. */
  datatype Product = Product(id: string, barcode: string, name: string, price: int, weight: int, stock: int)

  /** `initialProducts`, in source order. */
  const InitialProducts: seq<Product> := [
    Product("1", "8901234567890", "Classic Milk Chocolate", 45, 100, 50),
    Product("2", "8901234567891", "Organic Green Tea", 250, 250, 30),
    Product("3", "8901234567892", "Whole Wheat Bread", 40, 400, 20),
    Product("4", "8901234567893", "Fresh Apple (1kg)", 180, 1000, 100)
  ]

  /** The fields of a catalog product that a cart line stores; catalog ids
      are strings. */
  function AsItem(p: Product): (r: Store.Item)
    ensures r.id == Store.Str(p.id)
    ensures r.name == p.name && r.price == p.price && r.weight == p.weight
  {
    Store.Item(Store.Str(p.id), p.name, p.price, p.weight)
  }

  ghost predicate DistinctIds(products: seq<Product>) {
    forall i, j :: 0 <= i < j < |products| ==> products[i].id != products[j].id
  }

  ghost predicate DistinctBarcodes(products: seq<Product>) {
    forall i, j :: 0 <= i < j < |products| ==> products[i].barcode != products[j].barcode
  }

  ghost predicate PositiveFields(products: seq<Product>) {
    forall i :: 0 <= i < |products| ==>
      products[i].price > 0 && products[i].weight > 0 && products[i].stock > 0
  }

  /** The catalog's ids and barcodes are pairwise distinct, and every product
      has a positive price, weight in grams and stock. */
  lemma CatalogWellFormed()
    ensures DistinctIds(InitialProducts)
    ensures DistinctBarcodes(InitialProducts)
    ensures PositiveFields(InitialProducts)
  {
  }

  /** Distinct ids carry over to the items the cart stores. */
  lemma AsItemKeepsIdsApart(p: Product, q: Product)
    requires p.id != q.id
    ensures AsItem(p).id != AsItem(q).id
  {
  }

  /** Two chocolates and one green tea from the catalog, added through the
      store, cost 340 and weigh 450 grams. */
  lemma ChocolatesAndTeaTotals()
    ensures var chocolate := AsItem(InitialProducts[0]);
            var tea := AsItem(InitialProducts[1]);
            var cart := Store.AddToCart(Store.AddToCart(Store.AddToCart(Store.EmptyCart, chocolate), chocolate), tea);
            cart == [Store.CartLine(chocolate, 2), Store.CartLine(tea, 1)] &&
            Store.TotalPrice(cart) == 340 && Store.TotalWeight(cart) == 450
  {
    var chocolate := AsItem(InitialProducts[0]);
    var tea := AsItem(InitialProducts[1]);
    Store.AddTwiceThenOther(chocolate, tea, Store.Price);
    Store.AddTwiceThenOther(chocolate, tea, Store.Weight);
  }
}
