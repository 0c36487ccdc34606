/** The product record exchanged with the catalog backend, and the shapes of
    its answers. Numeric fields are kept as the text the operator typed or the
    value the backend returned; they are never interpreted here. */
module Catalog {

  datatype Option<+T> = None | Some(value: T)

  /** How an awaited backend request ended: a well-formed answer with
      `success` truthy, one with `success` falsy, or a thrown exception. */
  datatype Reply = Succeeded | Rejected | Failed

  datatype Stock = Stock(total: string, status: string)

  datatype Dimensions = Dimensions(width: string, height: string, length: string)

  datatype Metadata = Metadata(brand: string, weight: string, dimensions: Dimensions)

  datatype Product = Product(
    id: string,
    name: string,
    description: string,
    pricing: string,
    category: string,
    stock: Stock,
    color: seq<string>,
    metadata: Metadata,
    images: seq<string>)

  const InStock := "in_stock"
  const OutOfStock := "out_of_stock"
  const LowStock := "low_stock"
}
