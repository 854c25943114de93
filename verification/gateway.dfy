/**
 * The payment gateway as the backend sees it: whether it runs against the
 * real service or in mock mode, the requests it is sent, and the shapes of
 * the answers it returns. The answers themselves are parameters of each
 * endpoint, so any of them, including a raised error, can be chosen.
 */
module Gateway {
  import opened Common

  /** The configured key id and whether the client object was built. */
  datatype Config = Config(keyId: string, clientReady: bool)

  /** Mock mode: no key id, the placeholder key id "dummy", or no client. */
  predicate IsMock(c: Config)
  {
    c.keyId == "" || c.keyId == "dummy" || !c.clientReady
  }

  /** A request sent to the gateway, with the arguments the backend passes. */
  datatype Request =
    | CreateCustomer(name: string, email: string, userIdNote: string)
    | CreateSubscription(planRef: string, customerRef: string, totalCount: int, quantity: int,
                         customerNotify: int, notes: seq<(string, string)>)
    | VerifySignature(subscriptionRef: string, paymentRef: string, signature: string)
    | FetchPayment(paymentRef: string)
    | FetchSubscription(subscriptionRef: string)
    | FetchInvoice(invoiceRef: string)
    | CancelSubscription(subscriptionRef: string, cancelAtCycleEnd: int)

  /** The `card` entry of a fetched payment. */
  datatype CardInfo = CardInfo(last4: Option<string>, network: Option<string>,
                               expMonth: Option<int>, expYear: Option<int>)

  /** A fetched payment: its amount in minor units, its `method` (`paymentMethod`), its
      `invoice_id` and its `card` entry (each possibly absent). */
  datatype PaymentInfo = PaymentInfo(amount: int, paymentMethod: Option<string>, invoiceId: Option<string>,
                                     card: Option<CardInfo>)

  /** A fetched gateway invoice. */
  datatype InvoiceInfo = InvoiceInfo(shortUrl: Option<string>, receipt: Option<string>,
                                     invoicePdf: Option<string>)

  /** The signature check either passes, rejects the signature, or fails
      in some other way. */
  datatype SignatureCheck = SignatureValid | SignatureMismatch | CheckRaised(message: string)
}
