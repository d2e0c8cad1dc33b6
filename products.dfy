/** The product catalogue of assets/js/products.js: a bundled list of eight
    ice creams, replaced by the fetched list when that is usable, and a lookup
    by id. */
module Products {
  import opened Wrappers
  import opened Seqs
  import opened Fetch

  datatype Product = Product(id: string, price: real, category: string, stock: int, calories: int)

  /** The list the module starts with. */
  const Bundled: seq<Product> := [
    Product("ic-001", 45.0, "Classic", 150, 180),
    Product("ic-002", 55.0, "Chocolate", 120, 220),
    Product("ic-003", 50.0, "Fruity", 100, 160),
    Product("ic-004", 60.0, "Special", 80, 200),
    Product("ic-005", 65.0, "Special", 90, 240),
    Product("ic-006", 55.0, "Sorbet", 70, 120),
    Product("ic-007", 48.0, "Yogurt", 85, 140),
    Product("ic-008", 58.0, "Asian", 75, 170)
  ]

  predicate HasId(id: string, p: Product) {
    p.id == id
  }

  /** `getProduct`: the first product with that id, or null. */
  function GetProduct(products: seq<Product>, id: string): (r: Option<Product>)
    ensures r.Some? ==> r.value.id == id && r.value in products
    ensures r.None? <==> forall i :: 0 <= i < |products| ==> products[i].id != id
    ensures r.Some? ==> exists i :: 0 <= i < |products| && products[i] == r.value
                          && forall j :: 0 <= j < i ==> products[j].id != id
  {
    Find(p => HasId(id, p), products)
  }

  /** The body replaces the catalogue only when the response is OK and is an array. */
  function Loaded(current: seq<Product>, response: Fetched<Product>): (r: seq<Product>)
    ensures Delivered(response) ==> r == response.body.items
    ensures !Delivered(response) ==> r == current
  {
    match response
    case Response(true, JsonArray(items)) => items
    case _ => current
  }

  /** The module-level `PRODUCTS` array. */
  class Catalog {
    var products: seq<Product>

    constructor ()
      ensures products == Bundled
    {
      products := Bundled;
    }

    function Get(id: string): (r: Option<Product>)
      reads this
      ensures r == GetProduct(products, id)
    {
      GetProduct(products, id)
    }

    /** `loadIceCreamProducts` once its `fetch` has settled. */
    method Load(response: Fetched<Product>)
      modifies this
      ensures products == Loaded(old(products), response)
    {
      match response {
        case Response(ok, body) =>
          if ok && body.JsonArray? {
            products := body.items;
          }
        case NetworkError =>
      }
    }
  }

  predicate UniqueIds(products: seq<Product>) {
    forall i, j :: 0 <= i < j < |products| ==> products[i].id != products[j].id
  }

  /** When ids are unique, looking up a listed product's id finds that product. */
  lemma LookupFindsListed(products: seq<Product>, i: nat)
    requires UniqueIds(products) && i < |products|
    ensures GetProduct(products, products[i].id) == Some(products[i])
  {
    var r := GetProduct(products, products[i].id);
    var k :| 0 <= k < |products| && products[k] == r.value
      && forall j :: 0 <= j < k ==> products[j].id != products[i].id;
    assert !(k < i) && !(i < k);
  }

  /** The bundled list holds eight products with distinct ids. */
  lemma BundledIsUnique()
    ensures |Bundled| == 8 && UniqueIds(Bundled)
  {
  }
}
