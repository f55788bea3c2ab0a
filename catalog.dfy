/**
 * The records the remote catalogue API returns and the storefront consumes:
 * per-language text, product images, products and categories. Optional
 * lists that the API may omit are empty sequences here; an omitted string
 * is the empty string, which JavaScript treats the same way in every test
 * this model makes of it.
 */
module Catalog {

  /** One language's text for a product or a category. */
  datatype Translation = Translation(languageCode: int, name: string, description: string)

  datatype ProductImage = ProductImage(imageUrl: string)

  /** Prices are in integer cents. */
  datatype Product = Product(
    id: int,
    price: int,
    imageUrl: string,
    images: seq<ProductImage>,
    stockQuantity: int,
    translations: seq<Translation>)

  datatype Category = Category(
    id: int,
    imageUrl: string,
    isActive: bool,
    translations: seq<Translation>)
}
