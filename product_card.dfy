/** The add-to-cart button of a product card
    (frontend/src/components/Products/ProductCard.tsx:12-30): one cart line
    built from the product with the first variant's color and size and a
    single unit. The handler itself does not look at `inStock`; only the
    button's disabled state does. */
module ProductCard {
  import opened Common
  import opened Products
  import opened CartStore

  /** The line the card adds for `p`. */
  function DefaultCartItem(p: Product): (item: CartItem)
    ensures item.quantity == 1
    ensures item.productId == p.id && item.productName == p.name
    ensures item.price == p.price && item.slug == p.slug
    ensures |p.variants| > 0 ==> item.color == p.variants[0].color && item.size == p.variants[0].size
    ensures |p.variants| == 0 ==> item.color == "" && item.size == ""
    ensures p.featuredImage.Some? && p.featuredImage.value.image != "" ==>
              item.productImage == Some(p.featuredImage.value.image)
    ensures (p.featuredImage.None? || p.featuredImage.value.image == "") ==> item.productImage == p.image
  {
    var color := if |p.variants| > 0 then p.variants[0].color else "";
    var size := if |p.variants| > 0 then p.variants[0].size else "";
    var featured := if p.featuredImage.Some? then p.featuredImage.value.image else "";
    CartItem(p.id, p.name, OrElse(featured, p.image), p.price, 1, color, size, p.slug)
  }

  /** `handleAddToCart`: exactly one `addToCart` of the default line, with
      no stock check. */
  method HandleAddToCart(cart: Cart, p: Product)
    modifies cart
    ensures cart.items == Added(old(cart.items), DefaultCartItem(p))
    ensures cart.persisted == cart.items
  {
    var color := if |p.variants| > 0 then p.variants[0].color else "";
    var size := if |p.variants| > 0 then p.variants[0].size else "";
    var featured := if p.featuredImage.Some? then p.featuredImage.value.image else "";
    cart.AddToCart(CartItem(p.id, p.name, OrElse(featured, p.image), p.price, 1, color, size, p.slug));
  }

  /** Clicking a card's button twice on a product not yet in a
      well-formed cart yields one new line holding two units, whether the
      product is in stock or not. */
  lemma CardClickedTwice(items: seq<CartItem>, p: Product)
    requires UniqueKeys(items)
    requires forall j :: 0 <= j < |items| ==> items[j].Key() != DefaultCartItem(p).Key()
    ensures var r := Added(Added(items, DefaultCartItem(p)), DefaultCartItem(p));
      && |r| == |items| + 1
      && r[|items|] == DefaultCartItem(p).(quantity := 2)
      && CountKey(r, DefaultCartItem(p).Key()) == 1
  {
    AddTwice(items, DefaultCartItem(p), DefaultCartItem(p));
  }
}
