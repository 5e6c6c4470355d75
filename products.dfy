/** The catalogue's records as the API serves them
    (frontend/src/types/index.ts:25-61). A missing `images` or `variants`
    list is the empty sequence: every reader treats the two alike. Prices
    are integer cents; `createdAt` is a timestamp. */
module Products {
  import opened Common

  datatype Category = Category(id: int, name: string, slug: string)

  datatype ProductImage = ProductImage(id: int, image: string, altText: Option<string>, isFeatured: bool)

  datatype ProductVariant = ProductVariant(id: int, color: string, size: string, stock: int, sku: string)

  datatype Product = Product(
    id: int,
    name: string,
    slug: string,
    description: string,
    price: int,
    image: Option<string>,
    featuredImage: Option<ProductImage>,
    inStock: bool,
    isActive: bool,
    createdAt: int,
    category: Category,
    images: seq<ProductImage>,
    variants: seq<ProductVariant>)
}
