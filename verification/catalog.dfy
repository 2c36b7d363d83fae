/**
  Products of the catalog and the field validators of `ProductSerializer`
  (api/serializers.py). Prices are integer cents, so arithmetic on them is exact.
 */
module Catalog {

  type ProductId = nat

  /** A stored product. `price` is in cents. */
  datatype Product = Product(name: string, description: string, price: int, stock: int)

  /** The writable fields a client submits to create a product. */
  datatype ProductFields = ProductFields(name: string, description: string, price: int, stock: int)

  /** The fields that carry their own validator. */
  datatype Field = Price | Stock

  /** What a field validator does with a value: hand it back, or raise a
      validation error with a message. */
  datatype Check = Accepted(value: int) | Rejected(message: string)

  const PRICE_MESSAGE: string := "Price must be greater than zero"
  const STOCK_MESSAGE: string := "Stock cannot be negative"

  /** `validate_price`: a price is accepted unchanged exactly when it is
      strictly positive. */
  function ValidatePrice(value: int): (r: Check)
    ensures r.Accepted? <==> value > 0
    ensures r.Accepted? ==> r.value == value
    ensures r.Rejected? ==> r.message == PRICE_MESSAGE
  {
    if value <= 0 then Rejected(PRICE_MESSAGE) else Accepted(value)
  }

  /** `validate_stock`: a stock is accepted unchanged exactly when it is not
      negative. */
  function ValidateStock(value: int): (r: Check)
    ensures r.Accepted? <==> value >= 0
    ensures r.Accepted? ==> r.value == value
    ensures r.Rejected? ==> r.message == STOCK_MESSAGE
  {
    if value < 0 then Rejected(STOCK_MESSAGE) else Accepted(value)
  }

  /** The invariant the validators keep for every stored product. */
  predicate ProductValid(p: Product) {
    p.price > 0 && p.stock >= 0
  }

  predicate CatalogValid(products: map<ProductId, Product>) {
    forall id :: id in products ==> ProductValid(products[id])
  }

  function FromFields(fields: ProductFields): Product {
    Product(fields.name, fields.description, fields.price, fields.stock)
  }

  /** The field errors the serializer collects: every field whose validator
      rejects its value, with that validator's message. */
  function ProductErrors(fields: ProductFields): (errors: map<Field, string>)
    ensures Price in errors <==> fields.price <= 0
    ensures Stock in errors <==> fields.stock < 0
    ensures Price in errors ==> errors[Price] == PRICE_MESSAGE
    ensures Stock in errors ==> errors[Stock] == STOCK_MESSAGE
    ensures errors == map[] <==> ProductValid(FromFields(fields))
  {
    var price := ValidatePrice(fields.price);
    var stock := ValidateStock(fields.stock);
    var priceErrors := if price.Rejected? then map[Price := price.message] else map[];
    var stockErrors := if stock.Rejected? then map[Stock := stock.message] else map[];
    priceErrors + stockErrors
  }
}
