/** The order line: a request for `qty` units of product `sku` on behalf of
    order `orderid`. Both versions of the domain model declare the same
    frozen record; being a datatype, it has value equality and can be a set
    element, as the frozen dataclass can. */
module OrderLines {

  datatype OrderLine = OrderLine(orderid: string, sku: string, qty: int)
}
