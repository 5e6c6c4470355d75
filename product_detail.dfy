/** The product page's selection state and its handlers
    (frontend/src/components/Products/ProductDetail.tsx:15-94, 232, 241):
    the chosen color, size and quantity, the main image and the alert, and
    the cart it adds to. The loaded product is an input (None while it is
    not loaded). */
module ProductDetail {
  import opened Common
  import opened Products
  import opened ProductSerializers
  import opened CartStore
  import ProductCard

  datatype AlertType = Success | Error

  /** Where the `handleAddToCart` checks stop. */
  datatype Verdict = NoProduct | OutOfStock | MissingSelection | VariantUnavailable | Accepted

  /** `variants.find(v => v.color === color && v.size === size)`. */
  function FindVariant(variants: seq<ProductVariant>, color: string, size: string): (r: Option<nat>)
    ensures r.Some? ==> r.value < |variants| && variants[r.value].color == color && variants[r.value].size == size
    ensures r.Some? ==> forall j :: 0 <= j < r.value ==> !(variants[j].color == color && variants[j].size == size)
    ensures r.None? ==> forall j :: 0 <= j < |variants| ==> !(variants[j].color == color && variants[j].size == size)
  {
    if variants == [] then None
    else if variants[0].color == color && variants[0].size == size then Some(0)
    else match FindVariant(variants[1..], color, size)
      case None => None
      case Some(i) => Some(i + 1)
  }

  /** The validation chain of `handleAddToCart`, in its order. */
  function Validate(product: Option<Product>, color: string, size: string, quantity: int): (v: Verdict)
    ensures v == NoProduct <==> product.None?
    ensures v == OutOfStock <==> product.Some? && !product.value.inStock
    ensures v == MissingSelection <==>
              product.Some? && product.value.inStock && |product.value.variants| > 0 && (color == "" || size == "")
    ensures v == Accepted <==>
              && product.Some? && product.value.inStock
              && (|product.value.variants| > 0 ==>
                    && color != "" && size != ""
                    && FindVariant(product.value.variants, color, size).Some?
                    && product.value.variants[FindVariant(product.value.variants, color, size).value].stock >= quantity)
  {
    if product.None? then NoProduct
    else
      var p := product.value;
      if !p.inStock then OutOfStock
      else if |p.variants| > 0 && (color == "" || size == "") then MissingSelection
      else if |p.variants| > 0 &&
              (var found := FindVariant(p.variants, color, size);
               found.None? || p.variants[found.value].stock < quantity)
      then VariantUnavailable
      else Accepted
  }

  /** A product without variants passes on its stock flag alone, whatever
      color and size are selected. */
  lemma NoVariantsSkipsVariantChecks(p: Product, color: string, size: string, quantity: int)
    requires p.variants == []
    ensures Validate(Some(p), color, size, quantity) == (if p.inStock then Accepted else OutOfStock)
  {
  }

  /** Only the first variant with the chosen color and size is consulted:
      a later duplicate with enough stock does not rescue a short first one. */
  lemma FirstMatchingVariantDecides(p: Product, color: string, size: string, quantity: int, i: nat)
    requires p.inStock && color != "" && size != ""
    requires i < |p.variants| && p.variants[i].color == color && p.variants[i].size == size
    requires p.variants[i].stock < quantity
    requires forall j :: 0 <= j < i ==> !(p.variants[j].color == color && p.variants[j].size == size)
    ensures Validate(Some(p), color, size, quantity) == VariantUnavailable
  {
    assert FindVariant(p.variants, color, size) == Some(i);
  }

  function ErrorMessage(v: Verdict): (r: string)
    ensures r != ""
  {
    match v
    case OutOfStock => "Sorry, this product is out of stock"
    case MissingSelection => "Please select color and size"
    case _ => "Selected variant is out of stock or has insufficient quantity"
  }

  /** The three rejections the page reports are told apart by their
      messages. */
  lemma RejectionMessagesDistinct()
    ensures ErrorMessage(OutOfStock) != ErrorMessage(MissingSelection)
    ensures ErrorMessage(OutOfStock) != ErrorMessage(VariantUnavailable)
    ensures ErrorMessage(MissingSelection) != ErrorMessage(VariantUnavailable)
  {
  }

  /** The line an accepted add puts in the cart: the product's identity and
      price, the page's selection, and the main image unless it is empty. */
  function SelectedLine(p: Product, color: string, size: string, quantity: int, mainImage: string): (item: CartItem)
    ensures item.productId == p.id && item.productName == p.name && item.price == p.price && item.slug == p.slug
    ensures item.quantity == quantity && item.color == color && item.size == size
    ensures item.productImage == if mainImage != "" then Some(mainImage) else p.image
  {
    CartItem(p.id, p.name, OrElse(mainImage, p.image), p.price, quantity, color, size, p.slug)
  }

  /** The main image the load effect picks: with images, the first
      featured one or else the first; without, the product's own image if
      it is non-empty; otherwise the current one stays. */
  function InitialMainImage(p: Product, current: string): (img: string)
    ensures |p.images| > 0 ==> FeaturedImage(p.images).Some? && img == FeaturedImage(p.images).value.image
    ensures |p.images| == 0 && TruthyOpt(p.image) ==> img == p.image.value
    ensures |p.images| == 0 && !TruthyOpt(p.image) ==> img == current
  {
    if |p.images| > 0 then
      var featured := FirstFeatured(p.images);
      if featured.Some? then p.images[featured.value].image else p.images[0].image
    else if TruthyOpt(p.image) then p.image.value
    else current
  }

  /** The quantity after a sequence of stepper clicks (true: plus). */
  function AfterClicks(quantity: int, clicks: seq<bool>): int
    decreases |clicks|
  {
    if clicks == [] then quantity
    else
      var next := if clicks[0] then quantity + 1 else (if quantity - 1 < 1 then 1 else quantity - 1);
      AfterClicks(next, clicks[1..])
  }

  /** From the initial quantity of 1, no sequence of clicks reaches 0, and
      every plus click counts. */
  lemma {:induction false} StepperNeverBelowOne(quantity: int, clicks: seq<bool>)
    requires quantity >= 1
    ensures AfterClicks(quantity, clicks) >= 1
    ensures AfterClicks(quantity, clicks) >= quantity + |clicks| - 2 * CountMinus(clicks)
    decreases |clicks|
  {
    if clicks != [] {
      var next := if clicks[0] then quantity + 1 else (if quantity - 1 < 1 then 1 else quantity - 1);
      StepperNeverBelowOne(next, clicks[1..]);
    }
  }

  function CountMinus(clicks: seq<bool>): nat
  {
    if clicks == [] then 0 else (if clicks[0] then 0 else 1) + CountMinus(clicks[1..])
  }

  /** With the selection the load effect makes, the page adds to the same
      cart line as the product card's button, and the add is accepted
      exactly when the product is in stock and, if it has variants, the
      first variant holds the chosen quantity. */
  lemma DefaultSelectionMatchesCard(p: Product, quantity: int, mainImage: string)
    requires |p.variants| > 0 ==> p.variants[0].color != "" && p.variants[0].size != ""
    ensures var color := if |p.variants| > 0 then p.variants[0].color else "";
      var size := if |p.variants| > 0 then p.variants[0].size else "";
      && SelectedLine(p, color, size, quantity, mainImage).Key() == ProductCard.DefaultCartItem(p).Key()
      && (Validate(Some(p), color, size, quantity) == Accepted <==>
            p.inStock && (|p.variants| > 0 ==> p.variants[0].stock >= quantity))
  {
  }

  class ProductDetailView {
    var selectedColor: string
    var selectedSize: string
    var quantity: int
    var mainImage: string
    var alertMessage: string
    var alertType: AlertType
    var showAlert: bool
    const cart: Cart

    constructor (cart: Cart)
      ensures selectedColor == "" && selectedSize == "" && quantity == 1 && mainImage == ""
      ensures alertMessage == "" && alertType == Success && !showAlert
      ensures this.cart == cart
    {
      selectedColor := "";
      selectedSize := "";
      quantity := 1;
      mainImage := "";
      alertMessage := "";
      alertType := Success;
      showAlert := false;
      this.cart := cart;
    }

    /** The effect run when the product arrives: color and size from the
        first variant, and the main image. */
    method LoadProduct(product: Option<Product>)
      modifies this
      ensures product.None? ==> unchanged(this)
      ensures product.Some? && |product.value.variants| > 0 ==>
                selectedColor == product.value.variants[0].color && selectedSize == product.value.variants[0].size
      ensures product.Some? && |product.value.variants| == 0 ==>
                selectedColor == old(selectedColor) && selectedSize == old(selectedSize)
      ensures product.Some? ==> mainImage == InitialMainImage(product.value, old(mainImage))
      ensures quantity == old(quantity) && alertMessage == old(alertMessage)
      ensures alertType == old(alertType) && showAlert == old(showAlert)
    {
      if product.Some? {
        var p := product.value;
        if |p.variants| > 0 {
          selectedColor := p.variants[0].color;
          selectedSize := p.variants[0].size;
        }
        if |p.images| > 0 {
          var featured := FirstFeatured(p.images);
          mainImage := if featured.Some? then p.images[featured.value].image else p.images[0].image;
        } else if TruthyOpt(p.image) {
          mainImage := p.image.value;
        }
      }
    }

    /** `handleAddToCart`: the checks in order, then exactly one add and a
        success alert; a rejected add leaves the cart alone and shows why. */
    method HandleAddToCart(product: Option<Product>) returns (v: Verdict)
      modifies this, cart
      ensures v == Validate(product, selectedColor, selectedSize, quantity)
      ensures v == Accepted ==>
                && cart.items == Added(old(cart.items),
                                       SelectedLine(product.value, selectedColor, selectedSize, quantity, mainImage))
                && alertType == Success && alertMessage == "Product added to cart!" && showAlert
                && cart.persisted == cart.items
      ensures v != Accepted ==> cart.items == old(cart.items) && cart.persisted == old(cart.persisted)
      ensures v == NoProduct ==>
                alertType == old(alertType) && alertMessage == old(alertMessage) && showAlert == old(showAlert)
      ensures v != Accepted && v != NoProduct ==>
                alertType == Error && alertMessage == ErrorMessage(v) && showAlert
      ensures selectedColor == old(selectedColor) && selectedSize == old(selectedSize)
      ensures quantity == old(quantity) && mainImage == old(mainImage)
    {
      v := Validate(product, selectedColor, selectedSize, quantity);
      if v == NoProduct {
        return;
      }
      if v != Accepted {
        alertType := Error;
        alertMessage := ErrorMessage(v);
        showAlert := true;
        return;
      }
      var p := product.value;
      cart.AddToCart(CartItem(p.id, p.name, OrElse(mainImage, p.image), p.price, quantity,
                              selectedColor, selectedSize, p.slug));
      alertType := Success;
      alertMessage := "Product added to cart!";
      showAlert := true;
    }

    /** `handleBuyNow`: the add, then navigation to the cart whatever the
        add's outcome. Returns the route navigated to. */
    method HandleBuyNow(product: Option<Product>) returns (v: Verdict, route: string)
      modifies this, cart
      ensures v == Validate(product, selectedColor, selectedSize, quantity)
      ensures v == Accepted ==>
                cart.items == Added(old(cart.items),
                                    SelectedLine(product.value, selectedColor, selectedSize, quantity, mainImage))
      ensures v != Accepted ==> cart.items == old(cart.items) && cart.persisted == old(cart.persisted)
      ensures v == Accepted ==>
                && cart.persisted == cart.items
                && alertType == Success && alertMessage == "Product added to cart!" && showAlert
      ensures v == NoProduct ==>
                alertType == old(alertType) && alertMessage == old(alertMessage) && showAlert == old(showAlert)
      ensures v != Accepted && v != NoProduct ==>
                alertType == Error && alertMessage == ErrorMessage(v) && showAlert
      ensures selectedColor == old(selectedColor) && selectedSize == old(selectedSize)
      ensures quantity == old(quantity) && mainImage == old(mainImage)
      ensures route == "/cart"
    {
      v := HandleAddToCart(product);
      route := "/cart";
    }

    /** `handleImageClick`: the clicked thumbnail becomes the main image,
        which is also the image a later add puts on the cart line. */
    method HandleImageClick(image: string)
      modifies this
      ensures mainImage == image
      ensures selectedColor == old(selectedColor) && selectedSize == old(selectedSize) && quantity == old(quantity)
      ensures alertMessage == old(alertMessage) && alertType == old(alertType) && showAlert == old(showAlert)
    {
      mainImage := image;
    }

    /** The minus button: floors at 1. */
    method Decrement()
      modifies this
      ensures quantity == AfterClicks(old(quantity), [false])
      ensures old(quantity) > 1 ==> quantity == old(quantity) - 1
      ensures old(quantity) <= 1 ==> quantity == 1
      ensures selectedColor == old(selectedColor) && selectedSize == old(selectedSize) && mainImage == old(mainImage)
      ensures alertMessage == old(alertMessage) && alertType == old(alertType) && showAlert == old(showAlert)
    {
      quantity := if 1 > quantity - 1 then 1 else quantity - 1;
    }

    /** The plus button: no upper bound, not even the variant's stock. */
    method Increment()
      modifies this
      ensures quantity == AfterClicks(old(quantity), [true])
      ensures quantity == old(quantity) + 1
      ensures selectedColor == old(selectedColor) && selectedSize == old(selectedSize) && mainImage == old(mainImage)
      ensures alertMessage == old(alertMessage) && alertType == old(alertType) && showAlert == old(showAlert)
    {
      quantity := quantity + 1;
    }
  }
}
