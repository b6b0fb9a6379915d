/** Payment records as the payments API returns them. */
module PaymentTypes {

  /** The four status codes of the payment lifecycle. */
  const CREATED: string := "01"
  const PAID: string := "02"
  const CANCELED: string := "03"
  const EXPIRED: string := "04"

  /** One payment as listed by a search (a `PaymentRow`). Dates stay the API's strings;
      `status` is any string, since the screens fall back for codes they do not know. */
  datatype PaymentRow = PaymentRow(
    paymentId: int,
    amount: real,
    reference: string,
    description: string,
    status: string,
    callBackURL: string,
    callbackACKID: string,
    cancelDescription: string,
    dueDate: string,
    authorizationNumber: string,
    paymentDate: string,
    externalId: string)

  /** The `page` block of a paginated search response. */
  datatype PageInfo = PageInfo(size: int, number: int, totalElements: int, totalPages: int)

  /** The `data` block of a paginated search response. */
  datatype SearchData = SearchData(content: seq<PaymentRow>, page: PageInfo)
}
