/**
 * The typed shapes the storefront works with: a catalog `Book`, the three
 * response envelopes, the user-facing `ApiError` descriptor and the
 * `ValidationError` raised by the schema validators.
 */
module ApiTypes {
  import opened Base
  import opened JsValues

  /** A catalog entry; numbers are JavaScript numbers, hence reals. */
  datatype Book = Book(
    id: real,
    title: string,
    author: string,
    isbn: string,
    price: real,
    availableStock: real)

  datatype BooksResponse = BooksResponse(books: seq<Book>)

  datatype BookDetailResponse = BookDetailResponse(book: Book)

  /** Optional members that are absent are `None`. */
  datatype PurchaseResponse = PurchaseResponse(
    success: bool,
    message: string,
    book: Option<Book>,
    transactionId: Option<string>,
    orderId: Option<string>)

  /** The coarse, machine-readable error codes callers above the client see. */
  datatype ErrorCode =
    | VALIDATION_ERROR
    | NETWORK_ERROR
    | SERVER_ERROR
    | NOT_FOUND
    | BAD_REQUEST
    | UNKNOWN_ERROR

  datatype ApiError = ApiError(message: string, code: ErrorCode, retryable: bool)

  /** The failure a validator throws: where, what was expected, and what was found. */
  datatype ValidationError = ValidationError(
    message: string,
    field: string,
    expectedType: string,
    receivedValue: Value)
}
