/** The records the orders client exchanges with its backend (src/app/models),
    and the value of one product row of the order form, which is what the
    client sends back as an order's products. */
module Models {

  datatype Option<+T> = None | Some(value: T)

  datatype Result<+T, +E> = Ok(value: T) | Err(error: E)

  /** JavaScript truthiness of a value that is either a string or
      null/undefined: present and not the empty string. */
  predicate Truthy(s: Option<string>) {
    s.Some? && s.value != ""
  }

  /** Identifiers are `string | number` in the source; numbers are modelled
      as integers. */
  datatype Id = StrId(text: string) | NumId(number: int)

  /** The five order states, in the order the form offers them. */
  datatype Status = Pending | Processing | Shipped | Delivered | Cancelled

  /** A product line as the backend returns it inside an order. */
  datatype Product = Product(
    id: Id,
    name: string,
    description: Option<string>,
    price: real,
    quantity: int)

  /** An order as the backend returns it. `orderDate` is kept as the opaque
      string the backend sends. */
  datatype Order = Order(
    id: Id,
    orderNumber: string,
    customerName: string,
    orderDate: string,
    description: Option<string>,
    totalAmount: Option<real>,
    products: seq<Product>,
    status: Status)

  /** The value of one product row of the order form. A number input the
      user has cleared holds null, hence the options. */
  datatype Row = Row(
    name: string,
    description: string,
    quantity: Option<int>,
    price: Option<real>)

  /** What the form submits: an order without `id` and `totalAmount`, whose
      products are the form rows. */
  datatype OrderPayload = OrderPayload(
    orderNumber: string,
    customerName: string,
    orderDate: string,
    description: Option<string>,
    products: seq<Row>,
    status: Status)
}
