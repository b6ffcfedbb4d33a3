/**
 * The store catalog as the support screen sees it: which products it asks
 * for, and how the products that come back are split into the supporter
 * subscription and the price-ordered list of tips.
 */
module Catalog {
  import opened Wrappers
  import opened TipJar

  /** A store product: its identifier and its price in minor currency units. */
  datatype Product = Product(id: string, price: int)

  /** The identifier of the recurring supporter subscription. */
  function SupporterId(): (id: string)
    ensures CanDecode(id) && Decode(id) == Supporter
  {
    DecodeProductId(Supporter);
    ProductId(Supporter)
  }

  /** `Tip.allCases.map { $0.productId }`: the identifiers asked of the store. */
  function RequestedIds(): (ids: seq<string>)
    ensures |ids| == |AllCases()|
  {
    seq(|AllCases()|, i requires 0 <= i < |AllCases()| => ProductId(AllCases()[i]))
  }

  /** The request names every tier once, and nothing else. */
  lemma RequestedIdsAreTheTiers()
    ensures forall t: Tip :: ProductId(t) in RequestedIds()
    ensures forall id :: id in RequestedIds() ==> exists t: Tip :: ProductId(t) == id
    ensures forall i, j :: 0 <= i < j < |RequestedIds()| ==> RequestedIds()[i] != RequestedIds()[j]
  {
    var ids := RequestedIds();
    forall t: Tip
      ensures ProductId(t) in ids
    {
      AllCasesComplete(t);
      var i :| 0 <= i < |AllCases()| && AllCases()[i] == t;
      assert ids[i] == ProductId(t);
    }
    forall i, j | 0 <= i < j < |ids|
      ensures ids[i] != ids[j]
    {
      ProductIdInjective(AllCases()[i], AllCases()[j]);
    }
  }

  /** `first(where:)` on the identifier: the earliest product carrying `id`, if any. */
  function FirstWithId(ps: seq<Product>, id: string): (r: Option<Product>)
    ensures r.None? <==> forall i :: 0 <= i < |ps| ==> ps[i].id != id
    ensures r.Some? ==> r.value.id == id
    ensures r.Some? ==> exists k :: 0 <= k < |ps| && ps[k] == r.value && forall j :: 0 <= j < k ==> ps[j].id != id
  {
    if ps == [] then None
    else if ps[0].id == id then Some(ps[0])
    else
      var r := FirstWithId(ps[1..], id);
      assert forall i :: 1 <= i < |ps| ==> ps[i] == ps[1..][i - 1];
      assert r.Some? ==> exists k :: 1 <= k < |ps| && ps[k] == r.value && forall j :: 0 <= j < k ==> ps[j].id != id;
      r
  }

  /** `filter { $0.productIdentifier != id }`: the products not carrying `id`. */
  function WithoutId(ps: seq<Product>, id: string): (r: seq<Product>)
    ensures forall i :: 0 <= i < |r| ==> r[i].id != id
  {
    if ps == [] then []
    else if ps[0].id == id then WithoutId(ps[1..], id)
    else [ps[0]] + WithoutId(ps[1..], id)
  }

  /** The filter keeps every product not carrying `id` as often as it occurs, and nothing else. */
  lemma {:induction false} WithoutIdCounts(ps: seq<Product>, id: string)
    ensures forall p :: multiset(WithoutId(ps, id))[p] == if p.id == id then 0 else multiset(ps)[p]
  {
    if ps != [] {
      WithoutIdCounts(ps[1..], id);
      assert ps == [ps[0]] + ps[1..];
    }
  }

  /** Prices never decrease along the sequence. */
  predicate SortedByPrice(ps: seq<Product>)
  {
    forall i, j :: 0 <= i < j < |ps| ==> ps[i].price <= ps[j].price
  }

  /** Every product of a rearrangement of `ps` and `p` costs at least `floor` when they all do. */
  lemma PriceFloor(rs: seq<Product>, ps: seq<Product>, p: Product, floor: int)
    requires multiset(rs) == multiset(ps) + multiset{p}
    requires p.price >= floor
    requires forall i :: 0 <= i < |ps| ==> ps[i].price >= floor
    ensures forall k :: 0 <= k < |rs| ==> rs[k].price >= floor
  {
    forall k | 0 <= k < |rs|
      ensures rs[k].price >= floor
    {
      assert rs[k] in multiset(rs);
      assert rs[k] == p || rs[k] in multiset(ps);
    }
  }

  /** Puts `p` in front of the first product that is not cheaper than it. */
  function InsertByPrice(p: Product, ps: seq<Product>): (r: seq<Product>)
    ensures multiset(r) == multiset(ps) + multiset{p}
  {
    if ps == [] || p.price <= ps[0].price then [p] + ps
    else
      assert ps == [ps[0]] + ps[1..];
      [ps[0]] + InsertByPrice(p, ps[1..])
  }

  /** Inserting into a price-ordered sequence keeps it ordered. */
  lemma {:induction false} InsertByPriceSorted(p: Product, ps: seq<Product>)
    requires SortedByPrice(ps)
    ensures SortedByPrice(InsertByPrice(p, ps))
  {
    if ps == [] || p.price <= ps[0].price {
      assert forall j :: 0 <= j < |ps| ==> ps[0].price <= ps[j].price;
    } else {
      var rest := InsertByPrice(p, ps[1..]);
      InsertByPriceSorted(p, ps[1..]);
      PriceFloor(rest, ps[1..], p, ps[0].price);
      assert InsertByPrice(p, ps) == [ps[0]] + rest;
    }
  }

  /** `sorted(by: { $0.price < $1.price })`, written as an insertion sort. */
  function SortByPrice(ps: seq<Product>): (r: seq<Product>)
    ensures SortedByPrice(r)
    ensures multiset(r) == multiset(ps)
  {
    if ps == [] then []
    else
      assert ps == [ps[0]] + ps[1..];
      InsertByPriceSorted(ps[0], SortByPrice(ps[1..]));
      InsertByPrice(ps[0], SortByPrice(ps[1..]))
  }

  /** The products of `ps` that cost exactly `price`, in their order in `ps`. */
  function AtPrice(ps: seq<Product>, price: int): (r: seq<Product>)
    ensures forall i :: 0 <= i < |r| ==> r[i].price == price
  {
    if ps == [] then []
    else if ps[0].price == price then [ps[0]] + AtPrice(ps[1..], price)
    else AtPrice(ps[1..], price)
  }

  /** `AtPrice` keeps every product of that price as often as it occurs, and nothing else. */
  lemma {:induction false} AtPriceCounts(ps: seq<Product>, price: int)
    ensures forall p :: multiset(AtPrice(ps, price))[p] == if p.price == price then multiset(ps)[p] else 0
  {
    if ps != [] {
      AtPriceCounts(ps[1..], price);
      assert ps == [ps[0]] + ps[1..];
    }
  }

  lemma AtPriceCons(p: Product, ps: seq<Product>, price: int)
    ensures AtPrice([p] + ps, price) == if p.price == price then [p] + AtPrice(ps, price) else AtPrice(ps, price)
  {
    assert ([p] + ps)[1..] == ps;
  }

  /**
   * Inserting passes over cheaper products only, so among the products of
   * any one price the inserted one comes first.
   */
  lemma {:induction false} InsertByPriceTies(p: Product, ps: seq<Product>, price: int)
    ensures AtPrice(InsertByPrice(p, ps), price) ==
      if p.price == price then [p] + AtPrice(ps, price) else AtPrice(ps, price)
  {
    if ps == [] || p.price <= ps[0].price {
      AtPriceCons(p, ps, price);
    } else {
      var rest := InsertByPrice(p, ps[1..]);
      InsertByPriceTies(p, ps[1..], price);
      AtPriceCons(ps[0], rest, price);
      AtPriceCons(ps[0], ps[1..], price);
      assert [ps[0]] + ps[1..] == ps;
    }
  }

  /** The sort is stable: products of equal price keep their relative order. */
  lemma {:induction false} SortByPriceStable(ps: seq<Product>, price: int)
    ensures AtPrice(SortByPrice(ps), price) == AtPrice(ps, price)
  {
    if ps != [] {
      SortByPriceStable(ps[1..], price);
      InsertByPriceTies(ps[0], SortByPrice(ps[1..]), price);
      AtPriceCons(ps[0], ps[1..], price);
      assert [ps[0]] + ps[1..] == ps;
    }
  }

  /** The tips list the catalog callback stores: no supporter, cheapest first. */
  function Tips(returned: seq<Product>): (tips: seq<Product>)
    ensures SortedByPrice(tips)
    ensures forall i :: 0 <= i < |tips| ==> tips[i].id != SupporterId()
    ensures forall p :: multiset(tips)[p] == if p.id == SupporterId() then 0 else multiset(returned)[p]
    ensures forall price :: AtPrice(tips, price) == WithoutId(AtPrice(returned, price), SupporterId())
  {
    WithoutIdCounts(returned, SupporterId());
    forall price
      ensures AtPrice(SortByPrice(WithoutId(returned, SupporterId())), price) ==
              WithoutId(AtPrice(returned, price), SupporterId())
    {
      FilterSortTieOrder(returned, SupporterId(), price);
    }
    SortByPrice(WithoutId(returned, SupporterId()))
  }

  /** Filtering and then sorting leaves each price's products in input order, minus those carrying `id`. */
  lemma FilterSortTieOrder(ps: seq<Product>, id: string, price: int)
    ensures AtPrice(SortByPrice(WithoutId(ps, id)), price) == WithoutId(AtPrice(ps, price), id)
  {
    SortByPriceStable(WithoutId(ps, id), price);
    AtPriceWithoutId(ps, id, price);
  }

  /**
   * When the store answers only with identifiers that were asked for, every
   * tip decodes to a tier without trapping, and never to the supporter tier.
   */
  lemma TipsDecode(returned: seq<Product>)
    requires forall i :: 0 <= i < |returned| ==> returned[i].id in RequestedIds()
    ensures forall i :: 0 <= i < |Tips(returned)| ==>
      CanDecode(Tips(returned)[i].id) && Decode(Tips(returned)[i].id) != Supporter
  {
    var tips := Tips(returned);
    RequestedIdsAreTheTiers();
    forall i | 0 <= i < |tips|
      ensures CanDecode(tips[i].id) && Decode(tips[i].id) != Supporter
    {
      assert multiset(tips)[tips[i]] > 0;
      assert tips[i] in returned;
      var t :| ProductId(t) == tips[i].id;
      DecodeProductId(t);
    }
  }

  lemma WithoutIdCons(p: Product, rest: seq<Product>, id: string)
    ensures WithoutId([p] + rest, id) == if p.id == id then WithoutId(rest, id) else [p] + WithoutId(rest, id)
  {
    assert ([p] + rest)[1..] == rest;
  }

  /** Taking one price and dropping one id commute, so the filter keeps the order within each price. */
  lemma {:induction false} AtPriceWithoutId(ps: seq<Product>, id: string, price: int)
    ensures AtPrice(WithoutId(ps, id), price) == WithoutId(AtPrice(ps, price), id)
  {
    if ps != [] {
      AtPriceWithoutId(ps[1..], id, price);
      assert ps == [ps[0]] + ps[1..];
      AtPriceCons(ps[0], ps[1..], price);
      WithoutIdCons(ps[0], ps[1..], id);
      AtPriceCons(ps[0], WithoutId(ps[1..], id), price);
      WithoutIdCons(ps[0], AtPrice(ps[1..], price), id);
    }
  }

  /** Sorting a sequence that is already price-ordered leaves it as it is. */
  lemma {:induction false} SortByPriceOfSorted(ps: seq<Product>)
    requires SortedByPrice(ps)
    ensures SortByPrice(ps) == ps
  {
    if ps != [] {
      SortByPriceOfSorted(ps[1..]);
      assert ps == [ps[0]] + ps[1..];
    }
  }

  /** Filtering one, two, s, three, four on the id of s alone. */
  lemma {:induction false} FilterFullCatalog(one: Product, two: Product, s: Product, three: Product, four: Product, id: string)
    requires s.id == id
    requires one.id != id && two.id != id && three.id != id && four.id != id
    ensures WithoutId([one, two, s, three, four], id) == [one, two, three, four]
  {
    WithoutIdCons(four, [], id);
    WithoutIdCons(three, [four], id);
    WithoutIdCons(s, [three, four], id);
    WithoutIdCons(two, [s, three, four], id);
    WithoutIdCons(one, [two, s, three, four], id);
    assert [one] + [two, s, three, four] == [one, two, s, three, four];
  }

  /**
   * A full catalog answered in the order one, two, supporter, three, four,
   * with the tips' prices already ascending (as 0.99, 2.99, 4.99, 9.99): the
   * four tips come out in that order ...
   */
  lemma FullCatalogTips(one: Product, two: Product, supporter: Product, three: Product, four: Product)
    requires supporter.id == SupporterId()
    requires one.id != SupporterId() && two.id != SupporterId()
    requires three.id != SupporterId() && four.id != SupporterId()
    requires one.price <= two.price <= three.price <= four.price
    ensures Tips([one, two, supporter, three, four]) == [one, two, three, four]
  {
    FilterFullCatalog(one, two, supporter, three, four, SupporterId());
    SortByPriceOfSorted([one, two, three, four]);
  }

  /** ... and the supporter product becomes the subscription. */
  lemma FullCatalogSubscription(one: Product, two: Product, supporter: Product, three: Product, four: Product)
    requires supporter.id == SupporterId()
    requires one.id != SupporterId() && two.id != SupporterId()
    ensures FirstWithId([one, two, supporter, three, four], SupporterId()) == Some(supporter)
  {
    var returned := [one, two, supporter, three, four];
    assert FirstWithId(returned[2..], SupporterId()) == Some(supporter);
    assert FirstWithId(returned[1..], SupporterId()) == Some(supporter);
  }
}
