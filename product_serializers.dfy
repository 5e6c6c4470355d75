/** The featured image of a product listing
    (backend/products/serializers.py:31-38). The image list is in the order
    the database returns it to `.first()`. */
module ProductSerializers {
  import opened Common
  import opened Products

  /** The first image marked featured, if any. */
  function FirstFeatured(images: seq<ProductImage>): (r: Option<nat>)
    ensures r.Some? ==> r.value < |images| && images[r.value].isFeatured
    ensures r.Some? ==> forall j :: 0 <= j < r.value ==> !images[j].isFeatured
    ensures r.None? ==> forall j :: 0 <= j < |images| ==> !images[j].isFeatured
  {
    if images == [] then None
    else if images[0].isFeatured then Some(0)
    else match FirstFeatured(images[1..])
      case None => None
      case Some(i) => Some(i + 1)
  }

  /** `get_featured_image`: the first featured image, else the first image,
      else None. */
  function FeaturedImage(images: seq<ProductImage>): (r: Option<ProductImage>)
    ensures r.Some? ==> r.value in images
    ensures r.None? <==> images == []
    ensures (exists i :: 0 <= i < |images| && images[i].isFeatured) ==>
              r.Some? && r.value.isFeatured
    ensures FirstFeatured(images).Some? ==> r == Some(images[FirstFeatured(images).value])
    ensures FirstFeatured(images).None? && images != [] ==> r == Some(images[0])
  {
    match FirstFeatured(images)
    case Some(i) => Some(images[i])
    case None => if |images| > 0 then Some(images[0]) else None
  }

  /** The choice is exactly "first featured, else first": stated by
      position. */
  lemma FeaturedImageIsFirstMatch(images: seq<ProductImage>)
    requires images != []
    ensures exists i :: 0 <= i < |images| && FeaturedImage(images) == Some(images[i])
                        && (images[i].isFeatured ==> forall j :: 0 <= j < i ==> !images[j].isFeatured)
                        && (!images[i].isFeatured ==> i == 0 && forall j :: 0 <= j < |images| ==> !images[j].isFeatured)
  {
    match FirstFeatured(images)
    case Some(i) =>
      assert FeaturedImage(images) == Some(images[i]);
    case None =>
      assert FeaturedImage(images) == Some(images[0]);
  }

  /** Putting a featured image in front of the list makes it the choice. */
  lemma FeaturedFirstWins(img: ProductImage, rest: seq<ProductImage>)
    requires img.isFeatured
    ensures FeaturedImage([img] + rest) == Some(img)
  {
  }

  /** Images that are not featured never displace a featured one. */
  lemma {:induction false} NonFeaturedPrefixIgnored(prefix: seq<ProductImage>, rest: seq<ProductImage>)
    requires forall j :: 0 <= j < |prefix| ==> !prefix[j].isFeatured
    requires FirstFeatured(rest).Some?
    ensures FirstFeatured(prefix + rest) == Some(|prefix| + FirstFeatured(rest).value)
    ensures FeaturedImage(prefix + rest) == FeaturedImage(rest)
    decreases |prefix|
  {
    if prefix == [] {
      assert prefix + rest == rest;
    } else {
      assert (prefix + rest)[1..] == prefix[1..] + rest;
      NonFeaturedPrefixIgnored(prefix[1..], rest);
    }
  }
}
