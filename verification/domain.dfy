/** The persisted product record and its category. */
module Domain {

  /** A product category. As in the Go code it is a plain string, so a draft
      that has not reached the type step yet carries the empty string. */
  type ProductType = string

  const TypeFemale: ProductType := "female"
  const TypeMale: ProductType := "male"
  const TypeUnisex: ProductType := "unisex"

  predicate IsProductType(t: ProductType) {
    t == TypeFemale || t == TypeMale || t == TypeUnisex
  }

  /** A price. The Go code keeps a float64; here it is a real number and the
      rounding of binary floating point is not modelled. */
  type Price = real

  /** One perfume. `id` is assigned by the store; a product built by the bot
      before it is stored carries the zero id. */
  datatype Product = Product(
    id: int,
    productType: ProductType,
    name: string,
    description: string,
    price: Price,
    imageId: string)
}
