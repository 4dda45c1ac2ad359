/**
 * The app's catalogue of subscription products
 * (StripeSupabasePayment/Models/SubscriptionProduct.swift): each product is
 * identified by its Stripe price id, and a price id read back from the
 * entitlement row is mapped to its product by a search of the catalogue.
 */
module SubscriptionCatalog {
  import opened Wrappers

  datatype SubscriptionProduct = SubscriptionProduct(priceId: string, productName: string)
  {
    /** The `Identifiable` id: the price id itself. */
    function Id(): (id: string)
      ensures id == priceId
    {
      priceId
    }
  }

  /** The catalogue, in the order the app lists it. */
  const AllProducts: seq<SubscriptionProduct> := [
    SubscriptionProduct("price_xxx", "Free"),
    SubscriptionProduct("price_yyy", "Premium")
  ]

  /**
   * `first(where: { $0.priceId == priceId })`: None exactly when no product
   * has the price id, and otherwise the product at the first index that has it.
   */
  function FirstWithPrice(products: seq<SubscriptionProduct>, priceId: string): (r: Option<SubscriptionProduct>)
    ensures r.None? <==> forall i :: 0 <= i < |products| ==> products[i].priceId != priceId
    ensures r.Some? ==> exists i :: 0 <= i < |products| && products[i] == r.value
                                    && (forall j :: 0 <= j < i ==> products[j].priceId != priceId)
    ensures r.Some? ==> r.value.priceId == priceId
  {
    if products == [] then None
    else if products[0].priceId == priceId then Some(products[0])
    else
      var rest := FirstWithPrice(products[1..], priceId);
      assert forall i :: 1 <= i < |products| ==> products[i] == products[1..][i - 1];
      if rest.Some? then
        var k :| 0 <= k < |products[1..]| && products[1..][k] == rest.value
                 && (forall j :: 0 <= j < k ==> products[1..][j].priceId != priceId);
        assert products[k + 1] == rest.value;
        rest
      else rest
  }

  /** The failable initialiser `init?(priceId:)`. */
  function FromPriceId(priceId: string): (r: Option<SubscriptionProduct>)
    ensures r.None? <==> forall i :: 0 <= i < |AllProducts| ==> AllProducts[i].priceId != priceId
    ensures r.Some? ==> r.value in AllProducts && r.value.priceId == priceId
  {
    FirstWithPrice(AllProducts, priceId)
  }

  /** No two products of a list share a price id. */
  predicate DistinctPrices(products: seq<SubscriptionProduct>)
  {
    forall i, j :: 0 <= i < j < |products| ==> products[i].priceId != products[j].priceId
  }

  /** In a list without repeated price ids, searching for a product's price id finds that product. */
  lemma {:induction false} FindsEveryProduct(products: seq<SubscriptionProduct>, i: int)
    requires DistinctPrices(products) && 0 <= i < |products|
    ensures FirstWithPrice(products, products[i].priceId) == Some(products[i])
  {
    if i > 0 {
      assert products[1..][i - 1] == products[i];
      assert DistinctPrices(products[1..]) by {
        forall a, b | 0 <= a < b < |products[1..]|
          ensures products[1..][a].priceId != products[1..][b].priceId
        {
          assert products[1..][a] == products[a + 1] && products[1..][b] == products[b + 1];
        }
      }
      FindsEveryProduct(products[1..], i - 1);
      assert products[0].priceId != products[i].priceId;
    }
  }

  lemma CatalogueHasDistinctPrices()
    ensures DistinctPrices(AllProducts)
  {
  }

  /** Every product of the catalogue is found again from its price id. */
  lemma FromPriceIdRoundTrip(p: SubscriptionProduct)
    requires p in AllProducts
    ensures FromPriceId(p.priceId) == Some(p)
    ensures FromPriceId(p.Id()) == Some(p)
  {
    CatalogueHasDistinctPrices();
    var i :| 0 <= i < |AllProducts| && AllProducts[i] == p;
    FindsEveryProduct(AllProducts, i);
  }

  /** A price id outside the catalogue, such as one Stripe knows but the app does not, maps to no product. */
  lemma UnknownPriceHasNoProduct(priceId: string)
    requires priceId != "price_xxx" && priceId != "price_yyy"
    ensures FromPriceId(priceId).None?
  {
  }
}
