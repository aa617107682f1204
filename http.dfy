/** The JSON responses the payment controller writes, and the order it asks the gateway for. */
module Http {

  /** An order as the gateway returns it: its id, the amount in paise and the currency. */
  datatype Order = Order(id: string, amount: int, currency: string)

  /** What `instance.orders.create` is asked for (the receipt is left out). */
  datatype OrderRequest = OrderRequest(amount: int, currency: string)

  /** The JSON body: most branches send `message`, the enrollment catch sends `error`,
      a created order is sent as `data`. */
  datatype Body = Message(text: string) | ErrorText(text: string) | OrderData(order: Order)

  /** An HTTP status, the `success` flag and the rest of the body. */
  datatype Response = Response(status: int, success: bool, body: Body)

}
