/**
 * The home page's product showcase: the favourites set, the price
 * formatter, and the per-card price and cart-button display rules.
 */
module Showcase {
  import opened Optional
  import opened Text
  import opened Catalog
  import Favorites

  /**
   * `formatPrice`: `price.replace("$", "")`, which with a string pattern
   * removes only the first "$".
   */
  function FormatPrice(price: string): (r: string)
    ensures '$' !in price ==> r == price
    ensures '$' in price ==> |r| == |price| - 1 && multiset(r) + multiset{'$'} == multiset(price)
    ensures '$' in price ==>
      exists k | 0 <= k < |price| :: price[k] == '$' && '$' !in price[..k] && r == price[..k] + price[k + 1..]
  {
    if '$' in price then
      var k := FirstIndex(price, '$');
      assert price == price[..k] + [price[k]] + price[k + 1..];
      RemoveFirst(price, '$')
    else price
  }

  /** Writing a "$" in front of any text and formatting gives the text back. */
  lemma FormatPriceUndoesDollar(s: string)
    ensures FormatPrice("$" + s) == s
  {
    var t := "$" + s;
    assert t[0] == '$' && t[..0] == [];
    assert FirstIndex(t, '$') == 0;
    assert t[1..] == s;
  }

  /** Only the first "$" goes: any later one is kept. */
  lemma FormatPriceKeepsLaterDollars(a: string, b: string)
    requires '$' !in a
    ensures FormatPrice(a + "$" + b) == a + b
  {
    var t := a + "$" + b;
    assert t[|a|] == '$' && t[..|a|] == a;
    assert FirstIndex(t, '$') == |a|;
    assert t[|a| + 1..] == b;
  }

  /** `formatPrice` turns the first card's "$24.99" into "24.99". */
  lemma FormatFirstPrice()
    ensures FormatPrice(TranquilEveningBlend.price) == "24.99"
  {
    FormatPriceUndoesDollar("24.99");
    assert TranquilEveningBlend.price == "$" + "24.99";
  }

  /** The original price is struck through next to the price exactly when the two differ. */
  predicate ShowsOriginalPrice(p: Product)
  {
    p.originalPrice != p.price
  }

  /** The cart button is disabled for a product out of stock. */
  predicate AddToCartDisabled(p: Product)
  {
    !p.inStock
  }

  /** The cart button's caption. */
  function CartCaption(p: Product): (r: string)
    ensures r == "Out of Stock" <==> AddToCartDisabled(p)
    ensures !AddToCartDisabled(p) ==> r == "Add to Cart"
  {
    if p.inStock then "Add to Cart" else "Out of Stock"
  }

  /** Every catalog card strikes through an original price. */
  lemma {:induction false} EveryCardShowsOriginalPrice(i: nat)
    requires i < |AllProducts|
    ensures ShowsOriginalPrice(AllProducts[i])
  {
    var p := AllProducts[i];
    assert p.price[1] != p.originalPrice[1] || p.price[2] != p.originalPrice[2];
  }

  /** Of the catalog, only the Stress Relief Blend (id 3) has its cart button disabled. */
  lemma {:induction false} OnlyStressReliefDisabled(i: nat)
    requires i < |AllProducts|
    ensures AddToCartDisabled(AllProducts[i]) <==> AllProducts[i].id == 3
  {
    CatalogIds();
  }

  /** The showcase's state. The grid/list view mode is not modelled. */
  class ProductShowcase {
    var selectedProduct: Option<int>
    var favorites: set<int>
    var hoveredProduct: Option<int>

    constructor()
      ensures selectedProduct == None && favorites == {} && hoveredProduct == None
    {
      selectedProduct := None;
      favorites := {};
      hoveredProduct := None;
    }

    /** `toggleFavorite`: a copy of the set with the id added or deleted replaces it. */
    method ToggleFavorite(productId: int)
      modifies this
      ensures favorites == Favorites.Toggle(old(favorites), productId)
      ensures selectedProduct == old(selectedProduct) && hoveredProduct == old(hoveredProduct)
    {
      var newFavorites := favorites;
      if productId in newFavorites {
        newFavorites := newFavorites - {productId};
      } else {
        newFavorites := newFavorites + {productId};
      }
      favorites := newFavorites;
    }

    /** The eye button of a card opens its details. */
    method ViewDetails(productId: int)
      modifies this
      ensures selectedProduct == Some(productId)
      ensures favorites == old(favorites) && hoveredProduct == old(hoveredProduct)
    {
      selectedProduct := Some(productId);
    }

    /** The pointer enters (`Some`) or leaves (`None`) a card. */
    method Hover(productId: Option<int>)
      modifies this
      ensures hoveredProduct == productId
      ensures favorites == old(favorites) && selectedProduct == old(selectedProduct)
    {
      hoveredProduct := productId;
    }
  }
}
