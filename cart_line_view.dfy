/** The handlers of one rendered cart line
    (frontend/src/components/Cart/CartItem.tsx). The line's quantity buttons
    ask the store for quantity - 1 and quantity + 1, and the handler passes a
    request on only when it is at least 1. */
module CartLineView {
  import opened CartStore

  /** The cart after `handleQuantityChange(n)` on the line `item`. */
  function AfterQuantityChange(items: seq<CartItem>, item: CartItem, n: int): seq<CartItem>
  {
    if n >= 1 then WithQuantity(items, item.Key(), n) else items
  }

  /** Every line holds at least one unit. */
  ghost predicate AllPositive(items: seq<CartItem>)
  {
    forall i :: 0 <= i < |items| ==> items[i].quantity >= 1
  }

  /** Whatever quantity is requested, the guard never drives a line below 1. */
  lemma GuardKeepsQuantitiesPositive(items: seq<CartItem>, item: CartItem, n: int)
    requires AllPositive(items)
    ensures AllPositive(AfterQuantityChange(items, item, n))
  {
  }

  /** The minus button on a line holding one unit changes nothing. */
  lemma MinusAtOneIsNoOp(items: seq<CartItem>, item: CartItem)
    requires item.quantity == 1
    ensures AfterQuantityChange(items, item, item.quantity - 1) == items
  {
  }

  /** The plus button raises the lines with this key by one, as displayed,
      and touches no other line. */
  lemma PlusRaisesByOne(items: seq<CartItem>, item: CartItem)
    requires item.quantity >= 0
    ensures var r := AfterQuantityChange(items, item, item.quantity + 1);
      && |r| == |items|
      && forall i :: 0 <= i < |items| ==>
           if items[i].Key() == item.Key() then r[i] == items[i].(quantity := item.quantity + 1)
           else r[i] == items[i]
  {
    var r := AfterQuantityChange(items, item, item.quantity + 1);
    forall i | 0 <= i < |items| && items[i].Key() == item.Key()
      ensures r[i] == items[i].(quantity := item.quantity + 1)
    {
      assert r[i].(quantity := items[i].quantity) == items[i];
    }
  }

  /** `handleQuantityChange`. */
  method HandleQuantityChange(cart: Cart, item: CartItem, newQuantity: int)
    modifies cart
    ensures cart.items == AfterQuantityChange(old(cart.items), item, newQuantity)
    ensures newQuantity < 1 ==> unchanged(cart)
    ensures newQuantity >= 1 ==> cart.persisted == cart.items
  {
    if newQuantity >= 1 {
      cart.UpdateCartItemQuantity(item.productId, item.color, item.size, newQuantity);
    }
  }

  /** The minus button. */
  method HandleMinus(cart: Cart, item: CartItem)
    modifies cart
    ensures cart.items == AfterQuantityChange(old(cart.items), item, item.quantity - 1)
    ensures item.quantity <= 1 ==> unchanged(cart)
    ensures item.quantity > 1 ==> cart.persisted == cart.items
  {
    HandleQuantityChange(cart, item, item.quantity - 1);
  }

  /** The plus button. */
  method HandlePlus(cart: Cart, item: CartItem)
    modifies cart
    ensures cart.items == AfterQuantityChange(old(cart.items), item, item.quantity + 1)
    ensures item.quantity >= 0 ==> cart.persisted == cart.items
    ensures item.quantity < 0 ==> unchanged(cart)
  {
    HandleQuantityChange(cart, item, item.quantity + 1);
  }

  /** `handleRemove`: removes by the line's own key. */
  method HandleRemove(cart: Cart, item: CartItem)
    modifies cart
    ensures cart.items == Removed(old(cart.items), item.Key())
    ensures cart.persisted == cart.items
  {
    cart.RemoveCartItem(item.productId, item.color, item.size);
  }
}
