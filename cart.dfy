/** The cart store of assets/js/cart.js: a list of `{productId, qty}` rows that
    every call reads, changes and writes back. The stored record is the field
    `items` of one Cart object. */
module CartStore {
  import opened Wrappers
  import opened Seqs
  import JsNumber

  datatype Item = Item(productId: string, qty: int)

  /** No two rows share a product id. */
  predicate UniqueIds(items: seq<Item>) {
    forall i, j :: 0 <= i < j < |items| ==> items[i].productId != items[j].productId
  }

  function IsProduct(productId: string): Item -> bool {
    (it: Item) => it.productId == productId
  }

  function OtherProduct(productId: string): Item -> bool {
    (it: Item) => it.productId != productId
  }

  /** The row `find` picks for a product: the first with that id. */
  function IndexOf(items: seq<Item>, productId: string): (r: Option<nat>)
    ensures r.Some? ==> r.value < |items| && items[r.value].productId == productId
    ensures r.Some? ==> forall j :: 0 <= j < r.value ==> items[j].productId != productId
    ensures r.None? <==> forall j :: 0 <= j < |items| ==> items[j].productId != productId
  {
    FindIndex(IsProduct(productId), items)
  }

  /** The rows `remove` keeps: every row with another id, in order. */
  function Without(items: seq<Item>, productId: string): (r: seq<Item>)
    ensures forall i :: 0 <= i < |r| ==> r[i].productId != productId && r[i] in items
    ensures forall i :: 0 <= i < |items| && items[i].productId != productId ==> items[i] in r
    ensures SelectedAt(r, items, Positions(OtherProduct(productId), items))
  {
    FilterAtPositions(OtherProduct(productId), items);
    Filter(OtherProduct(productId), items)
  }

  /** The sum of the quantities, folded from the left as `reduce` does. */
  function TotalQty(items: seq<Item>): int {
    if items == [] then 0 else TotalQty(items[..|items| - 1]) + items[|items| - 1].qty
  }

  /** The sum of price times quantity over the rows. */
  function TotalPrice(items: seq<Item>, price: string -> real): real {
    if items == [] then 0.0
    else TotalPrice(items[..|items| - 1], price) + price(items[|items| - 1].productId) * items[|items| - 1].qty as real
  }

  /** `Math.max(1, qty|0)`: never below one; inside the 32-bit range it is
      the truncated request, raised to one. */
  function ClampQty(qty: real): (r: int)
    ensures r >= 1
    ensures -JsNumber.TwoTo31 as real < qty < JsNumber.TwoTo31 as real ==>
      r == if JsNumber.Trunc(qty) >= 1 then JsNumber.Trunc(qty) else 1
  {
    var n := JsNumber.BitOrZero(qty);
    if n > 1 then n else 1
  }

  /** Changing one row's quantity changes the total by the difference. */
  lemma {:induction false} TotalQtyUpdate(items: seq<Item>, i: nat, x: Item)
    requires i < |items|
    ensures TotalQty(items[i := x]) == TotalQty(items) - items[i].qty + x.qty
  {
    var n := |items|;
    if i < n - 1 {
      assert items[i := x][..n - 1] == items[..n - 1][i := x];
      TotalQtyUpdate(items[..n - 1], i, x);
    } else {
      assert items[i := x][..n - 1] == items[..n - 1];
    }
  }

  lemma TotalQtyAppend(items: seq<Item>, x: Item)
    ensures TotalQty(items + [x]) == TotalQty(items) + x.qty
  {
    assert (items + [x])[..|items|] == items;
  }

  /** Keeping the rows of other products keeps ids unique. */
  lemma {:induction false} WithoutKeepsUnique(items: seq<Item>, productId: string)
    requires UniqueIds(items)
    ensures UniqueIds(Without(items, productId))
  {
    if items != [] {
      var rest := items[1..];
      assert UniqueIds(rest);
      WithoutKeepsUnique(rest, productId);
      var t := Without(rest, productId);
      assert Without(items, productId) == (if items[0].productId != productId then [items[0]] else []) + t;
      forall k | 0 <= k < |t| ensures t[k].productId != items[0].productId {
        var m :| 0 <= m < |rest| && rest[m] == t[k];
        assert items[m + 1] == t[k];
      }
    }
  }

  class Cart {
    var items: seq<Item>

    /** One row per product. `add` never appends a second row for a product it
        already holds, so every mutator keeps this; it is the invariant callers
        of the cart may rely on. */
    ghost predicate Valid()
      reads this
    {
      UniqueIds(items)
    }

    /** The record `read()` falls back to: `{items: []}`. */
    constructor ()
      ensures items == [] && Valid()
    {
      items := [];
    }

    /** `Cart.count`: the badge number, the sum of the quantities. */
    method Count() returns (n: int)
      ensures n == TotalQty(items)
    {
      n := 0;
      var i := 0;
      while i < |items|
        invariant 0 <= i <= |items|
        invariant n == TotalQty(items[..i])
      {
        assert items[..i + 1][..i] == items[..i];
        n := n + items[i].qty;
        i := i + 1;
      }
      assert items[..|items|] == items;
    }

    /** `Cart.subtotal(priceMap)`. */
    method Subtotal(price: string -> real) returns (total: real)
      ensures total == TotalPrice(items, price)
    {
      total := 0.0;
      var i := 0;
      while i < |items|
        invariant 0 <= i <= |items|
        invariant total == TotalPrice(items[..i], price)
      {
        assert items[..i + 1][..i] == items[..i];
        total := total + price(items[i].productId) * items[i].qty as real;
        i := i + 1;
      }
      assert items[..|items|] == items;
    }

    /** `Cart.add`: grow the row for the product by `qty` (no clamp), or append
        a new row at the end. */
    method Add(productId: string, qty: int)
      modifies this
      ensures match IndexOf(old(items), productId)
        case Some(i) =>
          |items| == |old(items)| && items[i] == Item(productId, old(items)[i].qty + qty)
          && forall j :: 0 <= j < |items| && j != i ==> items[j] == old(items)[j]
        case None => items == old(items) + [Item(productId, qty)]
      ensures TotalQty(items) == old(TotalQty(items)) + qty
      ensures old(Valid()) ==> Valid()
    {
      match IndexOf(items, productId) {
        case Some(i) =>
          TotalQtyUpdate(items, i, Item(productId, items[i].qty + qty));
          items := items[i := Item(productId, items[i].qty + qty)];
        case None =>
          TotalQtyAppend(items, Item(productId, qty));
          items := items + [Item(productId, qty)];
      }
    }

    /** `Cart.setQty`: nothing happens for an absent product; otherwise the
        row's quantity becomes `Math.max(1, qty|0)`. */
    method SetQty(productId: string, qty: real)
      modifies this
      ensures IndexOf(old(items), productId).None? ==> items == old(items)
      ensures match IndexOf(old(items), productId)
        case Some(i) => items == old(items)[i := Item(productId, ClampQty(qty))]
        case None => true
      ensures forall j :: 0 <= j < |items| ==> items[j].qty >= 1 || items[j] == old(items)[j]
      ensures old(Valid()) ==> Valid()
    {
      match IndexOf(items, productId) {
        case Some(i) =>
          items := items[i := Item(productId, ClampQty(qty))];
        case None =>
      }
    }

    /** `Cart.remove`: keep the rows of every other product, in order. */
    method Remove(productId: string)
      modifies this
      ensures items == Without(old(items), productId)
      ensures forall j :: 0 <= j < |items| ==> items[j].productId != productId
      ensures IndexOf(old(items), productId).None? ==> items == old(items)
      ensures old(Valid()) ==> Valid()
    {
      if IndexOf(items, productId).None? {
        FilterKeepsAll(OtherProduct(productId), items);
      }
      if Valid() {
        WithoutKeepsUnique(items, productId);
      }
      items := Without(items, productId);
    }

    /** `Cart.clear`: write `{items: []}`. */
    method Clear()
      modifies this
      ensures items == [] && Valid()
      ensures TotalQty(items) == 0
    {
      items := [];
    }
  }
}
