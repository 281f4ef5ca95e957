/**
 * The catalog store: the last fetched list of books, a `loading` flag that
 * makes fetching single-flight, and the message of the last failure. Books
 * are looked up by id (first match), their stock adjusted in place, and three
 * filtered views derived on demand.
 *
 * The wait for the service splits `fetchBooks` in two: `StartFetch` runs up to
 * the call and `FinishFetch` runs when its outcome (the `ApiError` descriptor
 * thrown by the retrying client, or the validated list) is in.
 */
module Books {
  import opened Base
  import opened ApiTypes
  import opened Schemas
  import opened Notifications

  const LOW_STOCK_LIMIT: real := 5.0
  const LOAD_FAILED_TITLE := "Failed to Load Books"

  predicate InStock(b: Book) {
    b.availableStock > 0.0
  }

  predicate IsLowStock(b: Book) {
    b.availableStock > 0.0 && b.availableStock < LOW_STOCK_LIMIT
  }

  predicate IsOutOfStock(b: Book) {
    b.availableStock == 0.0
  }

  predicate BelowLowStockLimit(b: Book) {
    b.availableStock < LOW_STOCK_LIMIT
  }

  /** `availableBooks` */
  function AvailableBooks(books: seq<Book>): seq<Book> {
    Filter(books, InStock)
  }

  /** `lowStockBooks` */
  function LowStockBooks(books: seq<Book>): seq<Book> {
    Filter(books, IsLowStock)
  }

  /** `outOfStockBooks` */
  function OutOfStockBooks(books: seq<Book>): seq<Book> {
    Filter(books, IsOutOfStock)
  }

  /**
   * The views are order-preserving filters: each keeps exactly the books that
   * pass its test, and the view of a concatenation is the concatenation of views.
   */
  lemma ViewsAreFilters(books: seq<Book>, more: seq<Book>, b: Book)
    ensures b in AvailableBooks(books) <==> b in books && b.availableStock > 0.0
    ensures b in LowStockBooks(books) <==> b in books && 0.0 < b.availableStock < 5.0
    ensures b in OutOfStockBooks(books) <==> b in books && b.availableStock == 0.0
    ensures AvailableBooks(books + more) == AvailableBooks(books) + AvailableBooks(more)
    ensures LowStockBooks(books + more) == LowStockBooks(books) + LowStockBooks(more)
    ensures OutOfStockBooks(books + more) == OutOfStockBooks(books) + OutOfStockBooks(more)
  {
    FilterMembership(books, InStock, b);
    FilterMembership(books, IsLowStock, b);
    FilterMembership(books, IsOutOfStock, b);
    FilterConcat(books, more, InStock);
    FilterConcat(books, more, IsLowStock);
    FilterConcat(books, more, IsOutOfStock);
  }

  /**
   * The low-stock view is the available view cut at the limit, so it is
   * contained in it; no book is both available and out of stock.
   */
  lemma ViewsRelated(books: seq<Book>)
    ensures LowStockBooks(books) == Filter(AvailableBooks(books), BelowLowStockLimit)
    ensures forall b :: b in LowStockBooks(books) ==> b in AvailableBooks(books)
    ensures forall b :: b in AvailableBooks(books) ==> b !in OutOfStockBooks(books)
  {
    FilterFilter(books, InStock, BelowLowStockLimit, IsLowStock);
    forall b | b in LowStockBooks(books) ensures b in AvailableBooks(books) {
      FilterMembership(books, IsLowStock, b);
      FilterMembership(books, InStock, b);
    }
    forall b | b in AvailableBooks(books) ensures b !in OutOfStockBooks(books) {
      FilterMembership(books, InStock, b);
      FilterMembership(books, IsOutOfStock, b);
    }
  }

  /** Matches the books with id `id`. */
  function HasBookId(id: real): Book -> bool {
    (b: Book) => b.id == id
  }

  /** The position of the first book with id `id`, which `find` returns. */
  function IndexOfId(books: seq<Book>, id: real): (r: Option<nat>)
    ensures r.Some? ==> r.value < |books| && books[r.value].id == id
    ensures r.Some? ==> forall j :: 0 <= j < r.value ==> books[j].id != id
    ensures r.None? <==> forall j :: 0 <= j < |books| ==> books[j].id != id
  {
    var r := FindFirst(books, HasBookId(id));
    assert r.Some? ==> HasBookId(id)(books[r.value]);
    assert r.None? ==> forall j :: 0 <= j < |books| ==> !HasBookId(id)(books[j]);
    r
  }

  /** `books.find(book => book.id === id)` */
  function FindBook(books: seq<Book>, id: real): (r: Option<Book>)
    ensures r.Some? <==> exists j :: 0 <= j < |books| && books[j].id == id
    ensures r.Some? ==> exists j :: 0 <= j < |books| && books[j] == r.value && r.value.id == id
                           && forall k :: 0 <= k < j ==> books[k].id != id
  {
    match IndexOfId(books, id)
    case None => None
    case Some(i) => Some(books[i])
  }

  /** Only the stock of the book at position `i` may differ between the two lists. */
  predicate SameExceptStockAt(before: seq<Book>, after: seq<Book>, i: nat) {
    && |after| == |before|
    && (forall j :: 0 <= j < |before| && j != i ==> after[j] == before[j])
    && (i < |before| ==> after[i] == before[i].(availableStock := after[i].availableStock))
  }

  /**
   * `updateBookStock` on a list: only the first book with the id changes, and
   * only in its stock, which becomes `newStock`; without such a book nothing changes.
   */
  function WithStock(books: seq<Book>, id: real, newStock: real): (after: seq<Book>)
    ensures IndexOfId(books, id).None? ==> after == books
    ensures IndexOfId(books, id).Some? ==>
              var i := IndexOfId(books, id).value;
              SameExceptStockAt(books, after, i) && after[i].availableStock == newStock
  {
    match IndexOfId(books, id)
    case None => books
    case Some(i) => books[i := books[i].(availableStock := newStock)]
  }

  /**
   * `decrementBookStock` on a list: only the first book with the id changes,
   * and only in its stock, which drops by exactly one when it is positive;
   * otherwise, and without such a book, nothing changes.
   */
  function Decremented(books: seq<Book>, id: real): (after: seq<Book>)
    ensures IndexOfId(books, id).None? ==> after == books
    ensures IndexOfId(books, id).Some? ==>
              var i := IndexOfId(books, id).value;
              && SameExceptStockAt(books, after, i)
              && after[i].availableStock == (if books[i].availableStock > 0.0
                                             then books[i].availableStock - 1.0
                                             else books[i].availableStock)
  {
    match IndexOfId(books, id)
    case None => books
    case Some(i) =>
      if books[i].availableStock > 0.0 then books[i := books[i].(availableStock := books[i].availableStock - 1.0)]
      else books
  }

  /** A stock that is a whole number of copies, as the service hands out. */
  predicate WholeStock(b: Book) {
    b.availableStock >= 0.0 && b.availableStock == b.availableStock.Floor as real
  }

  /** One copy fewer of a positive whole stock is still a whole, non-negative stock. */
  lemma WholeDecrement(stock: real)
    requires stock > 0.0 && stock == stock.Floor as real
    ensures stock - 1.0 >= 0.0 && stock - 1.0 == (stock - 1.0).Floor as real
  {
    assert stock.Floor >= 1;
    assert (stock - 1.0).Floor == stock.Floor - 1;
  }

  /** When every stock is a whole number of copies, decrementing never makes one negative. */
  lemma DecrementKeepsWholeStock(books: seq<Book>, id: real)
    requires forall j :: 0 <= j < |books| ==> WholeStock(books[j])
    ensures forall j :: 0 <= j < |Decremented(books, id)| ==> WholeStock(Decremented(books, id)[j])
  {
    var index := IndexOfId(books, id);
    if index.Some? && books[index.value].availableStock > 0.0 {
      WholeDecrement(books[index.value].availableStock);
    }
  }

  /**
   * The validator does not require a whole stock: a book with half a copy in
   * stock is accepted, and decrementing it makes its stock negative.
   */
  lemma FractionalStockGoesNegative()
    ensures var b := Book(1.0, "Dune", "Herbert", "9780441013593", 9.99, 0.5);
            && ValidateBook(BookToValue(b), "book") == Ok(b)
            && Decremented([b], 1.0)[0].availableStock < 0.0
  {
    var b := Book(1.0, "Dune", "Herbert", "9780441013593", 9.99, 0.5);
    ValidateBookRoundTrip(b, "book");
    assert IndexOfId([b], 1.0) == Some(0);
  }

  /** The retry button offered when a load fails with a retryable error. */
  function LoadRetryActions(e: ApiError): Option<seq<Action>> {
    if e.retryable then Some([Action("Try Again", true)]) else None
  }

  class BooksStore {
    var books: seq<Book>
    var loading: bool
    var error: Option<string>
    const notifications: NotificationList

    constructor(notifications: NotificationList)
      ensures books == [] && !loading && error == None
      ensures this.notifications == notifications
    {
      books := [];
      loading := false;
      error := None;
      this.notifications := notifications;
    }

    function Available(): seq<Book>
      reads this
    {
      AvailableBooks(books)
    }

    function LowStock(): seq<Book>
      reads this
    {
      LowStockBooks(books)
    }

    function OutOfStock(): seq<Book>
      reads this
    {
      OutOfStockBooks(books)
    }

    /** `getBookById(id)`: the first book with that id, if any. */
    function GetBookById(id: real): Option<Book>
      reads this
    {
      FindBook(books, id)
    }

    /**
     * The part of `fetchBooks` before the service call: a no-op while a fetch
     * is outstanding; otherwise it raises `loading` and clears the error.
     */
    method StartFetch() returns (started: bool)
      modifies this
      ensures started <==> !old(loading)
      ensures !started ==> books == old(books) && loading && error == old(error)
      ensures started ==> books == old(books) && loading && error == None
    {
      if loading {
        return false;
      }
      loading := true;
      error := None;
      started := true;
    }

    /**
     * The part of `fetchBooks` after the service call: the list is replaced on
     * success; on failure the list stays, the message is recorded and an error
     * notification is shown (with a retry button when the error is retryable).
     * `loading` is lowered either way.
     */
    method FinishFetch(outcome: Result<seq<Book>, ApiError>, noteId: string)
      modifies this, notifications
      ensures !loading
      ensures outcome.Ok? ==> && books == outcome.value && error == old(error)
                              && notifications.notifications == old(notifications.notifications)
      ensures outcome.Err? ==>
                && books == old(books)
                && error == Some(outcome.error.message)
                && notifications.notifications == old(notifications.notifications) +
                     [Stamped(ErrorInput(LOAD_FAILED_TITLE, outcome.error.message,
                                         LoadRetryActions(outcome.error)), noteId)]
    {
      match outcome {
        case Ok(fetched) =>
          books := fetched;
        case Err(apiError) =>
          error := Some(apiError.message);
          var noticeId := notifications.ShowError(LOAD_FAILED_TITLE, apiError.message,
                                                  LoadRetryActions(apiError), noteId);
      }
      loading := false;
    }

    /** `fetchBooks`, run to completion with the outcome of the service call. */
    method FetchBooks(outcome: Result<seq<Book>, ApiError>, noteId: string)
      modifies this, notifications
      ensures old(loading) ==> && books == old(books) && loading && error == old(error)
                               && notifications.notifications == old(notifications.notifications)
      ensures !old(loading) ==> && !loading
                                && books == (if outcome.Ok? then outcome.value else old(books))
                                && error == (if outcome.Ok? then None else Some(outcome.error.message))
                                && notifications.notifications ==
                                     old(notifications.notifications) +
                                     (if outcome.Ok? then []
                                      else [Stamped(ErrorInput(LOAD_FAILED_TITLE, outcome.error.message,
                                                               LoadRetryActions(outcome.error)), noteId)])
    {
      var started := StartFetch();
      if started {
        FinishFetch(outcome, noteId);
      }
    }

    /** `updateBookStock` */
    method UpdateBookStock(bookId: real, newStock: real)
      modifies this
      ensures books == WithStock(old(books), bookId, newStock)
      ensures loading == old(loading) && error == old(error)
    {
      var index := IndexOfId(books, bookId);
      if index.Some? {
        books := books[index.value := books[index.value].(availableStock := newStock)];
      }
    }

    /** `decrementBookStock` */
    method DecrementBookStock(bookId: real)
      modifies this
      ensures books == Decremented(old(books), bookId)
      ensures loading == old(loading) && error == old(error)
    {
      var index := IndexOfId(books, bookId);
      if index.Some? && books[index.value].availableStock > 0.0 {
        var i := index.value;
        books := books[i := books[i].(availableStock := books[i].availableStock - 1.0)];
      }
    }

    /** `resetError` */
    method ResetError()
      modifies this
      ensures error == None
      ensures books == old(books) && loading == old(loading)
    {
      error := None;
    }
  }
}
