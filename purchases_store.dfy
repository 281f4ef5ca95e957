/**
 * The purchase transaction manager: a set of book ids whose purchase is in
 * flight, and an append-only history of purchase records.
 *
 * The wait for the service splits `purchaseBook` in two: `BeginPurchase` runs
 * the checks up to the service call and takes the in-flight marker, and
 * `FinishPurchase` runs when the call's outcome (the validated response, or the
 * `ApiError` descriptor thrown by the retrying client) is in, and always
 * releases the marker. Record ids and timestamps are parameters.
 */
module Purchases {
  import opened Base
  import opened ApiTypes
  import opened Notifications
  import opened Books

  datatype Status = Completed | Failed

  /** `PurchaseHistory`; `purchasedAt` is the purchase time as an ordered timestamp. */
  datatype PurchaseRecord = PurchaseRecord(
    id: string,
    bookId: real,
    bookTitle: string,
    price: real,
    purchasedAt: int,
    status: Status)

  const RECENT_LIMIT: nat := 10
  const PURCHASE_FAILED_TITLE := "Purchase Failed"
  const PURCHASE_SUCCEEDED_TITLE := "Purchase Successful!"
  const BOOK_NOT_FOUND := "Book not found"
  const OUT_OF_STOCK := "This book is out of stock"
  const DEFAULT_FAILURE := "Purchase failed"

  predicate IsCompleted(p: PurchaseRecord) {
    p.status == Completed
  }

  /** Newest first: no record is older than one after it. */
  predicate NewestFirst(s: seq<PurchaseRecord>) {
    forall i, j :: 0 <= i < j < |s| ==> s[i].purchasedAt >= s[j].purchasedAt
  }

  /** A record no newer than the head of a newest-first list may follow it. */
  lemma PrependNewestFirst(a: PurchaseRecord, t: seq<PurchaseRecord>)
    requires NewestFirst(t)
    requires forall x :: x in t ==> x.purchasedAt <= a.purchasedAt
    ensures NewestFirst([a] + t)
  {
    var s := [a] + t;
    forall i, j | 0 <= i < j < |s| ensures s[i].purchasedAt >= s[j].purchasedAt {
      if i > 0 {
        assert s[i] == t[i - 1] && s[j] == t[j - 1];
      } else {
        assert s[j] in t;
      }
    }
  }

  /**
   * Places `p` into a newest-first list ahead of every record that is not
   * newer than it.
   */
  function InsertNewestFirst(p: PurchaseRecord, s: seq<PurchaseRecord>): (r: seq<PurchaseRecord>)
    requires NewestFirst(s)
    ensures NewestFirst(r)
    ensures multiset(r) == multiset(s) + multiset{p}
  {
    if s == [] || p.purchasedAt >= s[0].purchasedAt then
      PrependNewestFirst(p, s);
      [p] + s
    else
      var rest := InsertNewestFirst(p, s[1..]);
      assert s == [s[0]] + s[1..];
      assert forall x :: x in rest ==> x.purchasedAt <= s[0].purchasedAt by {
        forall x | x in rest ensures x.purchasedAt <= s[0].purchasedAt {
          assert x in multiset(rest);
          assert x in s[1..] || x == p;
        }
      }
      PrependNewestFirst(s[0], rest);
      [s[0]] + rest
  }

  /**
   * `sort((a, b) => b.purchasedAt - a.purchasedAt)`: the records, newest first.
   * Records with equal timestamps keep their relative order.
   */
  function SortNewestFirst(s: seq<PurchaseRecord>): (r: seq<PurchaseRecord>)
    ensures NewestFirst(r)
    ensures multiset(r) == multiset(s)
  {
    if s == [] then []
    else
      assert s == [s[0]] + s[1..];
      InsertNewestFirst(s[0], SortNewestFirst(s[1..]))
  }

  function Take<T>(s: seq<T>, n: nat): seq<T> {
    if |s| <= n then s else s[..n]
  }

  /** The completed records, newest first, of which `recentPurchases` keeps a prefix. */
  function CompletedNewestFirst(history: seq<PurchaseRecord>): seq<PurchaseRecord> {
    SortNewestFirst(Filter(history, IsCompleted))
  }

  /** `recentPurchases`: the completed records, newest first, at most ten. */
  function RecentPurchases(history: seq<PurchaseRecord>): seq<PurchaseRecord> {
    Take(CompletedNewestFirst(history), RECENT_LIMIT)
  }

  /** `recentPurchases` keeps the first ten completed records in newest-first order, or all of them when fewer. */
  lemma RecentPurchasesPrefix(history: seq<PurchaseRecord>)
    ensures var completed := Filter(history, IsCompleted);
            var recent := RecentPurchases(history);
            && |recent| == (if |completed| < RECENT_LIMIT then |completed| else RECENT_LIMIT)
            && recent == CompletedNewestFirst(history)[..|recent|]
  {
    var completed := Filter(history, IsCompleted);
    assert |CompletedNewestFirst(history)| == |completed| by {
      assert |multiset(CompletedNewestFirst(history))| == |multiset(completed)|;
    }
  }

  /** Every recent purchase is a completed record of the history, and they are newest first. */
  lemma RecentPurchasesCompleted(history: seq<PurchaseRecord>)
    ensures var recent := RecentPurchases(history);
            && (forall i :: 0 <= i < |recent| ==> recent[i].status == Completed && recent[i] in history)
            && NewestFirst(recent)
  {
    var sorted := CompletedNewestFirst(history);
    var recent := RecentPurchases(history);
    RecentPurchasesPrefix(history);
    forall i | 0 <= i < |recent|
      ensures recent[i].status == Completed && recent[i] in history
    {
      var x := recent[i];
      assert x == sorted[i];
      assert x in multiset(sorted);
      FilterMembership(history, IsCompleted, x);
    }
  }

  /** No completed record left out of the recent purchases is newer than one kept. */
  lemma RecentPurchasesNewest(history: seq<PurchaseRecord>, p: PurchaseRecord, q: PurchaseRecord)
    requires p in history && p.status == Completed
    requires p !in RecentPurchases(history) && q in RecentPurchases(history)
    ensures q.purchasedAt >= p.purchasedAt
  {
    var sorted := CompletedNewestFirst(history);
    var recent := RecentPurchases(history);
    RecentPurchasesPrefix(history);
    FilterMembership(history, IsCompleted, p);
    assert p in multiset(Filter(history, IsCompleted));
    assert p in sorted by {
      assert p in multiset(sorted);
    }
    var k :| 0 <= k < |sorted| && sorted[k] == p;
    var i :| 0 <= i < |recent| && recent[i] == q;
    assert sorted[i] == q;
    assert k >= |recent|;
  }

  /** What the checks before the service call decide. */
  datatype Admission =
    | Busy               // a purchase of this book is already in flight
    | Refused            // the book is absent or out of stock
    | Admitted(book: Book)

  /** The buttons offered when a purchase fails with an error descriptor. */
  function PurchaseRetryActions(retryable: bool): Option<seq<Action>> {
    if retryable then Some([Action("Try Again", true), Action("Cancel", false)]) else None
  }

  /**
   * What `purchaseBook` reports to the user when the service call fails:
   * a descriptor's message and retry flag, or, for a response with `success`
   * false, its message (a default when empty) and no retry.
   */
  function FailureNotice(outcome: Result<PurchaseResponse, ApiError>): NotificationInput
    requires !(outcome.Ok? && outcome.value.success)
  {
    match outcome
    case Ok(response) =>
      ErrorInput(PURCHASE_FAILED_TITLE,
                 if response.message == "" then DEFAULT_FAILURE else response.message, None)
    case Err(e) => ErrorInput(PURCHASE_FAILED_TITLE, e.message, PurchaseRetryActions(e.retryable))
  }

  /** A failed service call offers a retry exactly when its descriptor is retryable. */
  lemma RetryOfferedIffRetryable(outcome: Result<PurchaseResponse, ApiError>)
    requires !(outcome.Ok? && outcome.value.success)
    ensures FailureNotice(outcome).actions.Some? <==> outcome.Err? && outcome.error.retryable
    ensures FailureNotice(outcome).persistent == Some(true)
    ensures outcome.Ok? ==> FailureNotice(outcome).message != ""
  {
  }

  function SuccessMessage(title: string): string {
    "Thank you for your purchase of \"" + title + "\""
  }

  /** The record a finished purchase of `book` appends. */
  function RecordOf(book: Book, recordId: string, now: int, status: Status): PurchaseRecord {
    PurchaseRecord(recordId, book.id, book.title, book.price, now, status)
  }

  class PurchaseStore {
    var purchaseHistory: seq<PurchaseRecord>
    var processingPurchases: set<real>
    const booksStore: BooksStore
    const notifications: NotificationList

    constructor(booksStore: BooksStore, notifications: NotificationList)
      ensures purchaseHistory == [] && processingPurchases == {}
      ensures this.booksStore == booksStore && this.notifications == notifications
    {
      purchaseHistory := [];
      processingPurchases := {};
      this.booksStore := booksStore;
      this.notifications := notifications;
    }

    /** `isPurchasing(bookId)` */
    predicate IsPurchasing(bookId: real): (r: bool)
      reads this
      ensures r <==> bookId in processingPurchases
    {
      bookId in processingPurchases
    }

    function Recent(): seq<PurchaseRecord>
      reads this
    {
      RecentPurchases(purchaseHistory)
    }

    /**
     * The part of `purchaseBook` before the service call. A purchase already in
     * flight is turned away with no effect; an absent or out-of-stock book is
     * refused with an error notification; otherwise the id is marked in flight.
     * The history and the catalog are not touched.
     */
    method BeginPurchase(bookId: real, noteId: string) returns (admission: Admission)
      modifies this, notifications
      ensures purchaseHistory == old(purchaseHistory)
      ensures old(bookId in processingPurchases) <==> admission.Busy?
      ensures admission.Busy? ==>
                processingPurchases == old(processingPurchases)
                && notifications.notifications == old(notifications.notifications)
      ensures admission.Refused? <==>
                !old(bookId in processingPurchases)
                && (booksStore.GetBookById(bookId).None? || booksStore.GetBookById(bookId).value.availableStock <= 0.0)
      ensures admission.Refused? ==>
                processingPurchases == old(processingPurchases)
                && notifications.notifications == old(notifications.notifications) +
                     [Stamped(ErrorInput(PURCHASE_FAILED_TITLE,
                                         if booksStore.GetBookById(bookId).None? then BOOK_NOT_FOUND else OUT_OF_STOCK,
                                         None), noteId)]
      ensures admission.Admitted? ==>
                && booksStore.GetBookById(bookId) == Some(admission.book)
                && admission.book.availableStock > 0.0
                && processingPurchases == old(processingPurchases) + {bookId}
                && IsPurchasing(bookId)
                && notifications.notifications == old(notifications.notifications)
    {
      if bookId in processingPurchases {
        return Busy;
      }
      var found := booksStore.GetBookById(bookId);
      if found.None? {
        var noticeId := notifications.ShowError(PURCHASE_FAILED_TITLE, BOOK_NOT_FOUND, None, noteId);
        return Refused;
      }
      var book := found.value;
      if book.availableStock <= 0.0 {
        var noticeId := notifications.ShowError(PURCHASE_FAILED_TITLE, OUT_OF_STOCK, None, noteId);
        return Refused;
      }
      processingPurchases := processingPurchases + {bookId};
      admission := Admitted(book);
    }

    /**
     * The part of `purchaseBook` after the service call for `book`, looked up
     * under `bookId`. A successful response decrements the stock and appends a
     * completed record; anything else appends a failed record. Exactly one
     * notification is shown and the in-flight marker is always released.
     */
    method FinishPurchase(bookId: real, book: Book, outcome: Result<PurchaseResponse, ApiError>,
                          recordId: string, now: int, noteId: string)
      returns (ok: bool)
      modifies this, booksStore, notifications
      ensures ok <==> outcome.Ok? && outcome.value.success
      ensures processingPurchases == old(processingPurchases) - {bookId}
      ensures !IsPurchasing(bookId)
      ensures purchaseHistory == old(purchaseHistory) + [RecordOf(book, recordId, now, if ok then Completed else Failed)]
      ensures ok ==> booksStore.books == Decremented(old(booksStore.books), bookId)
      ensures !ok ==> booksStore.books == old(booksStore.books)
      ensures booksStore.loading == old(booksStore.loading) && booksStore.error == old(booksStore.error)
      ensures ok ==> notifications.notifications == old(notifications.notifications) +
                       [Stamped(SuccessInput(PURCHASE_SUCCEEDED_TITLE, SuccessMessage(book.title)), noteId)]
      ensures !ok ==> notifications.notifications == old(notifications.notifications) +
                        [Stamped(FailureNotice(outcome), noteId)]
    {
      if outcome.Ok? && outcome.value.success {
        booksStore.DecrementBookStock(bookId);
        purchaseHistory := purchaseHistory + [RecordOf(book, recordId, now, Completed)];
        var noticeId := notifications.ShowSuccess(PURCHASE_SUCCEEDED_TITLE, SuccessMessage(book.title), noteId);
        ok := true;
      } else {
        purchaseHistory := purchaseHistory + [RecordOf(book, recordId, now, Failed)];
        var notice := FailureNotice(outcome);
        var noticeId := notifications.ShowError(notice.title, notice.message, notice.actions, noteId);
        ok := false;
      }
      processingPurchases := processingPurchases - {bookId};
    }

    /**
     * `purchaseBook`, run to completion with the outcome the service call
     * would have. `called` tells whether the call was made. The in-flight set
     * ends as it began, and the history grows by one record exactly when the
     * call was made.
     */
    method PurchaseBook(bookId: real, outcome: Result<PurchaseResponse, ApiError>,
                        recordId: string, now: int, noteId: string)
      returns (ok: bool, called: bool)
      modifies this, booksStore, notifications
      ensures processingPurchases == old(processingPurchases)
      ensures called <==> && bookId !in old(processingPurchases)
                          && old(booksStore.GetBookById(bookId)).Some?
                          && old(booksStore.GetBookById(bookId)).value.availableStock > 0.0
      ensures ok <==> called && outcome.Ok? && outcome.value.success
      ensures !called ==> purchaseHistory == old(purchaseHistory)
      ensures called ==>
                purchaseHistory == old(purchaseHistory) +
                  [RecordOf(old(booksStore.GetBookById(bookId)).value, recordId, now,
                            if ok then Completed else Failed)]
      ensures booksStore.books == (if ok then Decremented(old(booksStore.books), bookId) else old(booksStore.books))
      ensures IsPurchasing(bookId) == old(IsPurchasing(bookId))
      ensures booksStore.loading == old(booksStore.loading) && booksStore.error == old(booksStore.error)
      ensures bookId in old(processingPurchases) ==> notifications.notifications == old(notifications.notifications)
      ensures bookId !in old(processingPurchases) && !called ==>
                notifications.notifications == old(notifications.notifications) +
                  [Stamped(ErrorInput(PURCHASE_FAILED_TITLE,
                                      if old(booksStore.GetBookById(bookId)).None? then BOOK_NOT_FOUND else OUT_OF_STOCK,
                                      None), noteId)]
      ensures ok ==>
                notifications.notifications == old(notifications.notifications) +
                  [Stamped(SuccessInput(PURCHASE_SUCCEEDED_TITLE,
                                        SuccessMessage(old(booksStore.GetBookById(bookId)).value.title)), noteId)]
      ensures called && !ok ==>
                notifications.notifications == old(notifications.notifications) + [Stamped(FailureNotice(outcome), noteId)]
    {
      var admission := BeginPurchase(bookId, noteId);
      match admission {
        case Busy =>
          ok, called := false, false;
        case Refused =>
          ok, called := false, false;
        case Admitted(book) =>
          ok := FinishPurchase(bookId, book, outcome, recordId, now, noteId);
          called := true;
      }
    }
  }

  /**
   * A catalog holding one copy-counted book, two purchases of it started one
   * after the other, and a service that confirms the first: the second is
   * turned away while the first is in flight, the first leaves one copy and
   * one completed record at the book's price, and once it is done the book
   * can be bought again.
   */
  method DuneScenario() returns (secondAdmitted: bool, firstOk: bool, stockAfter: real,
                                 recordCount: nat, recordPrice: real, recordStatus: Status,
                                 thirdAdmitted: bool)
    ensures !secondAdmitted && firstOk
    ensures stockAfter == 1.0
    ensures recordCount == 1 && recordPrice == 9.99 && recordStatus == Completed
    ensures thirdAdmitted
  {
    var dune := Book(1.0, "Dune", "Herbert", "9780441013593", 9.99, 2.0);
    var notifications := new NotificationList();
    var catalog := new BooksStore(notifications);
    var fetchStarted := catalog.StartFetch();
    catalog.FinishFetch(Ok([dune]), "n0");
    var store := new PurchaseStore(catalog, notifications);
    assert IndexOfId([dune], 1.0) == Some(0);

    var first := store.BeginPurchase(1.0, "n1");
    var second := store.BeginPurchase(1.0, "n2");
    secondAdmitted := second.Admitted?;
    var confirmed := PurchaseResponse(true, "Purchase completed successfully", None, None, None);
    firstOk := store.FinishPurchase(1.0, first.book, Ok(confirmed), "r1", 100, "n3");
    stockAfter := catalog.books[0].availableStock;
    recordCount := |store.purchaseHistory|;
    recordPrice := store.purchaseHistory[0].price;
    recordStatus := store.purchaseHistory[0].status;
    assert IndexOfId(catalog.books, 1.0) == Some(0);
    var third := store.BeginPurchase(1.0, "n4");
    thirdAdmitted := third.Admitted?;
  }
}
