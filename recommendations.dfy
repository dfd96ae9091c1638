/**
 * Product recommendations: the first three catalog products, and the
 * add-to-cart button that looks a product up by id before dispatching it.
 */
module Recommendations {
  import opened Wrappers
  import opened Catalog
  import opened BookingContext

  /** `find`: the first product with that id, if any. */
  function FindById(catalog: seq<Product>, id: string): (r: Option<Product>)
    ensures r.None? <==> forall p :: p in catalog ==> p.id != id
    ensures r.Some? ==> r.value.id == id
    ensures r.Some? ==>
      exists i :: 0 <= i < |catalog| && catalog[i] == r.value && forall j :: 0 <= j < i ==> catalog[j].id != id
  {
    if catalog == [] then None
    else if catalog[0].id == id then Some(catalog[0])
    else
      var r := FindById(catalog[1..], id);
      if r.Some? then
        ghost var i :| 0 <= i < |catalog[1..]| && catalog[1..][i] == r.value && forall j :: 0 <= j < i ==> catalog[1..][j].id != id;
        assert catalog[i + 1] == r.value && forall j :: 0 <= j < i + 1 ==> catalog[j].id != id;
        r
      else r
  }

  /** The action the button dispatches for an id, if any. */
  function AddToCartAction(id: string): (r: Option<Action>)
    ensures r.None? <==> forall p :: p in Products ==> p.id != id
    ensures r.Some? ==> r.value.AddProduct? && r.value.product in Products && r.value.product.id == id
  {
    match FindById(Products, id)
    case None => None
    case Some(p) => Some(AddProduct(p))
  }

  /** In the fixture each id names exactly one product, so the lookup returns that one. */
  lemma AddToCartFindsCatalogRecord(i: nat)
    requires i < |Products|
    ensures AddToCartAction(Products[i].id) == Some(AddProduct(Products[i]))
  {
    IdsDistinct();
  }

  /** The first at most three catalog products, in catalog order. */
  function Recommended(catalog: seq<Product>): (r: seq<Product>)
    ensures |r| == if |catalog| < 3 then |catalog| else 3
    ensures forall i :: 0 <= i < |r| ==> r[i] == catalog[i]
  {
    if |catalog| <= 3 then catalog else catalog[..3]
  }

  /** The fixture has exactly three products, so all of them are recommended. */
  lemma AllFixtureProductsRecommended()
    ensures Recommended(Products) == Products
  {
  }

  /** Pressing the button twice for one id gives two identical cart lines. */
  lemma AddSameIdTwice(s: State, i: nat)
    requires i < |Products|
    ensures var p := Products[i];
      Step(Step(s, AddProduct(p)), AddProduct(p)).selectedProducts == s.selectedProducts + [p, p]
  {
  }

  class RecommendationsView {
    const store: Store

    constructor (store: Store)
      ensures this.store == store
    {
      this.store := store;
    }

    /** `handleAddToCart`: an unknown id dispatches nothing; a known one adds its catalog record. */
    method AddToCart(id: string) returns (added: bool)
      modifies store
      ensures added <==> exists p :: p in Products && p.id == id
      ensures !added ==> unchanged(store)
      ensures added ==> store.state == Step(old(store.state), AddToCartAction(id).value)
    {
      var product := FindById(Products, id);
      if product.Some? {
        store.Dispatch(AddProduct(product.value));
        added := true;
      } else {
        added := false;
      }
    }
  }
}
