/** The product catalog as the cart, order and search handlers read it. The
    catalog is owned elsewhere; the handlers receive it as a value, a sequence
    of product documents in the collection's natural order. */
module Catalog {
  import opened Common

  type ProductId = string

  /** A product document (models/product.js), with the price in whole
      cents. */
  datatype Product = Product(id: ProductId, name: string, description: string, price: int, stock: int)

  /** `Product.find({ name })[0]` and `Product.findOne({ name })`: the first
      product of that name. */
  function FindByName(catalog: seq<Product>, name: string): (r: Option<Product>)
    ensures r.Some? ==> r.value in catalog && r.value.name == name
    ensures r.None? <==> forall p :: p in catalog ==> p.name != name
  {
    match FirstIndex(catalog, (p: Product) => p.name == name)
    case Some(k) => Some(catalog[k])
    case None => None
  }

  /** `Product.findById(id)`: the product with that id. */
  function FindById(catalog: seq<Product>, id: ProductId): (r: Option<Product>)
    ensures r.Some? ==> r.value in catalog && r.value.id == id
    ensures r.None? <==> forall p :: p in catalog ==> p.id != id
  {
    match FirstIndex(catalog, (p: Product) => p.id == id)
    case Some(k) => Some(catalog[k])
    case None => None
  }

  /** The current catalog price of the product a line item names; a name no
      product carries is priced 0. */
  function PriceOf(catalog: seq<Product>, name: string): int
  {
    match FindByName(catalog, name)
    case Some(p) => p.price
    case None => 0
  }

  /** Each name belongs to at most one product. */
  ghost predicate UniqueNames(catalog: seq<Product>)
  {
    forall i, j :: 0 <= i < j < |catalog| ==> catalog[i].name != catalog[j].name
  }

  /** Each id belongs to at most one product. */
  ghost predicate UniqueIds(catalog: seq<Product>)
  {
    forall i, j :: 0 <= i < j < |catalog| ==> catalog[i].id != catalog[j].id
  }

  /** When names are unique, the product a name lookup finds is the only one
      of that name, so its price is the price of every item of that name. */
  lemma NameLookupFindsEachProduct(catalog: seq<Product>, p: Product)
    requires UniqueNames(catalog)
    requires p in catalog
    ensures FindByName(catalog, p.name) == Some(p)
    ensures PriceOf(catalog, p.name) == p.price
  {
    var k :| 0 <= k < |catalog| && catalog[k] == p;
    var r := FindByName(catalog, p.name);
    assert r.Some?;
    var j :| 0 <= j < |catalog| && catalog[j] == r.value;
    if j < k {
      assert catalog[j].name != catalog[k].name;
    } else if k < j {
      assert catalog[k].name != catalog[j].name;
    }
  }

  /** When ids are unique, looking a product up by its own id finds it. */
  lemma IdLookupFindsEachProduct(catalog: seq<Product>, p: Product)
    requires UniqueIds(catalog)
    requires p in catalog
    ensures FindById(catalog, p.id) == Some(p)
  {
    var k :| 0 <= k < |catalog| && catalog[k] == p;
    var r := FindById(catalog, p.id);
    assert r.Some?;
    var j :| 0 <= j < |catalog| && catalog[j] == r.value;
    if j < k {
      assert catalog[j].id != catalog[k].id;
    } else if k < j {
      assert catalog[k].id != catalog[j].id;
    }
  }
}
