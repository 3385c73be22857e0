/** The product entity and the request-body schemas (src/models/product.js,
    src/services/db.js table layout). */
module Models {
  import opened Wrappers

  /** One row of the `products` table. `price` is a whole number of cents. */
  datatype Product = Product(id: string, name: string, description: string, price: int, stockQuantity: int)

  /** A request body as the schemas see it: each field may be absent. The same
      shape is the partial update handed to the store. */
  datatype Body = Body(name: Option<string>, description: Option<string>, price: Option<int>, stockQuantity: Option<int>)

  /** The validated creation payload: all four business fields. */
  datatype Payload = Payload(name: string, description: string, price: int, stockQuantity: int)

  /** Constraints of the business fields: non-empty texts, positive price,
      non-negative stock. */
  predicate ValidName(s: string) { |s| >= 1 }
  predicate ValidPrice(n: int) { n > 0 }
  predicate ValidStock(n: int) { n >= 0 }

  /** `productCreateSchema`: every field present and within its constraint. */
  predicate ValidCreate(b: Body) {
    && b.name.Some? && ValidName(b.name.value)
    && b.description.Some? && ValidName(b.description.value)
    && b.price.Some? && ValidPrice(b.price.value)
    && b.stockQuantity.Some? && ValidStock(b.stockQuantity.value)
  }

  /** `productUpdateSchema`: every field optional, a present one within its constraint. */
  predicate ValidUpdate(b: Body) {
    && (b.name.Some? ==> ValidName(b.name.value))
    && (b.description.Some? ==> ValidName(b.description.value))
    && (b.price.Some? ==> ValidPrice(b.price.value))
    && (b.stockQuantity.Some? ==> ValidStock(b.stockQuantity.value))
  }

  /** The body carries no field at all (`Object.keys(parsed.data).length === 0`). */
  predicate NoFields(b: Body) {
    b.name.None? && b.description.None? && b.price.None? && b.stockQuantity.None?
  }

  /** The parsed data of a body accepted by `productCreateSchema`. */
  function PayloadOf(b: Body): (p: Payload)
    requires ValidCreate(b)
    ensures Body(Some(p.name), Some(p.description), Some(p.price), Some(p.stockQuantity)) == b
  {
    Payload(b.name.value, b.description.value, b.price.value, b.stockQuantity.value)
  }

  /** A record whose business fields satisfy the schema constraints. */
  predicate ValidRecord(p: Product) {
    ValidName(p.name) && ValidName(p.description) && ValidPrice(p.price) && ValidStock(p.stockQuantity)
  }
}
