/** The catalog record a product card is built from and a cart entry refers to. */
module Catalog {

  /** The two image variants the page uses: the card picture and the confirmation thumbnail. */
  datatype Image = Image(desktop: string, thumbnail: string)

  /** One catalog product. `price` is a whole number of cents (the page shows it with two decimals). */
  datatype Product = Product(name: string, category: string, price: nat, image: Image)
}
