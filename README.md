# Bookstore data-access core, modelled in Dafny

This project models the data-access logic of a Vue/Pinia bookstore front end. It has five parts:

- **Response validators** (`Schemas`). They turn an untyped parsed JSON body (`JsValues.Value`) into a typed `Book`, catalog envelope, detail envelope or purchase response. Otherwise they fail with a `ValidationError` that names the field path, the expected shape and the value received.
- **HTTP client layer** (`Service`). It covers:
  - the status logic of a single request;
  - the classification of every failure into a user-facing `ApiError` with a code and a `retryable` flag;
  - the retry loop with exponential backoff and jitter;
  - the per-attempt operations behind `getBooks`, `getBook` and `purchaseBook`;
  - the cover-image URL.
- **Notification list** (`Notifications`). A shared list of notifications with append, remove-by-id and clear, plus the `show*` helpers.
- **Catalog store** (`Books`). A list of books with a single-flight `loading` flag and an `error` message. It supports lookup by id, stock decrement and overwrite, and three filtered views.
- **Purchase store** (`Purchases`). A per-book in-flight set and an append-only purchase history, driven by the `purchaseBook` state machine and summarised by `recentPurchases`.

`Base` holds the shared option/result types, decimal rendering of naturals, and the `find`/`filter` array operations. `ApiTypes` holds the record types of the API.

State that the source mutates in place is modelled as a class, and the pure parts as functions. The mutating parts are `NotificationList`, `BooksStore` and `PurchaseStore`. Each asynchronous action is split at its `await`:

- `StartFetch`/`FinishFetch` for `fetchBooks`;
- `BeginPurchase`/`FinishPurchase` for `purchaseBook`.

This makes a "second call while the first is pending" an ordinary call made between the two halves. The outcome of a service call is a parameter. So are fresh ids and timestamps.

## Model

| member | source | states |
|---|---|---|
| Base.NatToString | src/schemas/api.ts:130 | the decimal text of an index is a non-empty digit string without a leading zero |
| Base.NatToStringRoundTrip | src/schemas/api.ts:130 | reading the decimal text of `n` back gives `n` |
| Base.NatToStringInjective | src/schemas/api.ts:130 | distinct indices print as distinct texts |
| Base.FindFirst | src/composables/useNotifications.ts:43 | `findIndex`: the result is the lowest index whose element passes the test; it is absent exactly when no element passes |
| Base.Filter | src/stores/books.ts:16 | `filter` never yields more elements than it was given |
| Base.FilterMembership | src/stores/books.ts:15-25 | an element is kept exactly when it is in the input and passes the test |
| Base.FilterConcat | src/stores/books.ts:15-25 | filtering preserves relative order: the filter of a concatenation is the concatenation of the filters |
| Base.FilterAllPass | src/stores/purchases.ts:30 | every element of a filtered list passes the test |
| Base.FilterFilter | src/stores/books.ts:19-21 | filtering by one test, then another, is filtering by both |
| JsValues.Prop | src/schemas/api.ts:41 | destructuring a property an object does not have yields `undefined` |
| JsValues.Truthy | src/schemas/api.ts:164 | `Boolean(v)` is false exactly for `undefined`, `null`, `false`, `0`, NaN and the empty string |
| JsValues.TypeGuardsExclusive | src/schemas/api.ts:18-28 | the guards `isNumber`, `isString`, `isArray` and `isObject` accept disjoint sets of values; `null`, `undefined`, NaN and booleans pass none of them |
| Schemas.ValidateBook | src/schemas/api.ts:31-105 | an accepted book meets every field rule, and its six values are the input's properties unchanged; a non-object fails at `path` with expected shape `object` and the value itself |
| Schemas.ValidateBookFirstFailure | src/schemas/api.ts:44-102 | on an object, validation succeeds iff all six rules hold; a failure is the first failing rule in the order id, title, author, isbn, price, availableStock, reported at `<path>.<name>` with that property's raw value |
| Schemas.ValidateBookRoundTrip | src/schemas/api.ts:104 | a book that meets the rules, sent over the wire, validates back to itself |
| Schemas.IsbnExamples | src/schemas/api.ts:11 | ten and thirteen digits are accepted; nine digits, letters, and an `X` check character are rejected |
| Schemas.ElementPathInjective | src/schemas/api.ts:130 | distinct catalog indices get distinct `books[i]` paths |
| Schemas.ValidateElements | src/schemas/api.ts:130 | on success the list has the same length as the input, and element `i` is the validation of input `i` at path `books[i]` |
| Schemas.ValidateElementsAllValid | src/schemas/api.ts:130 | the array validates iff every element validates on its own |
| Schemas.ValidateElementsFirstFailure | src/schemas/api.ts:130 | a failure of the array is the error of its lowest failing index |
| Schemas.ValidateBooksResponse | src/schemas/api.ts:108-132 | a non-object envelope fails with field `''`; a non-array `books` fails with field `books`, expected `array` and the value received; success means the elements validated |
| Schemas.BooksResponseElements | src/schemas/api.ts:118-131 | a catalog envelope validates iff all elements do; then it yields the books in the same order and length, and otherwise the error of the lowest failing index |
| Schemas.ValidateBookDetailResponse | src/schemas/api.ts:134-149 | a non-object fails with field `''`; otherwise the result is exactly the validation of `book` under path `book` |
| Schemas.StringMember | src/schemas/api.ts:172-178 | an optional id member is copied exactly when it is a string |
| Schemas.ValidatePurchaseResponse | src/schemas/api.ts:151-181 | an object is accepted iff `book` is absent or validates at path `book`, and otherwise `book`'s error propagates; `success` is true when absent and the truthiness of the value otherwise; `message` is the string given or the default text; `book` is kept iff present; `transactionId`/`orderId` are copied unchanged iff they are strings; a non-object fails with field `''` |
| Schemas.ValidateApiResponse | src/schemas/api.ts:184-211 | success passes the validator's value through unchanged; a `ValidationError` is rethrown with the same field, expected shape and received value, and a message prefixed with the endpoint |
| Service.UserFriendlyError | src/services/api.ts:25-87 | total classification: `retryable` is false exactly for statuses 400 and 404; the code is `VALIDATION_ERROR` iff the failure is a validation error, and `NETWORK_ERROR` iff it is any other failure without a status |
| Service.ClassifyByStatusClass | src/services/api.ts:43-86 | no status means a network error; every 5xx is a server error; 404 and 400 get their own codes; every other status is unknown |
| Service.FetchWithError | src/services/api.ts:89-114 | the request succeeds iff a response arrived with a 2xx status, and then yields it; a non-2xx response raises an error carrying its status; a rejected fetch raises one without a status |
| Service.ReadJson | src/services/api.ts:157 | parsing the body fails exactly when the body is not JSON, with an error that is neither a validation error nor one with a status; on success it yields the parsed body |
| Service.Attempt | src/services/api.ts:155-163 | an attempt succeeds iff the request succeeds, the body parses and the validator accepts it, and then yields the validator's value. A failed request's error passes through unchanged, an unparsable body fails with a status-less error, and a validator failure comes out as a validation error with the validator's field |
| Service.BooksAttempt | src/services/api.ts:154-165 | a `getBooks` attempt succeeds iff the generic attempt does, yielding exactly the books of the validated catalog envelope; otherwise it fails with the attempt's error |
| Service.BookAttempt | src/services/api.ts:167-178 | a `getBook` attempt succeeds iff the generic attempt does, yielding the book of the validated detail envelope; otherwise it fails with the attempt's error |
| Service.PurchaseAttempt | src/services/api.ts:180-203 | a `purchaseBook` attempt succeeds iff the generic attempt does, yielding the validated purchase response; otherwise it fails with the attempt's error |
| Service.Conclusion | src/services/api.ts:128-141 | the loop returns a value exactly when the attempt it stopped at succeeded |
| Service.StopsAfterUnique | src/services/api.ts:126-148 | the outcomes of the attempts determine where the loop stops |
| Service.WithRetry | src/services/api.ts:118-151 | the loop makes between 1 and `maxRetries + 1` attempts. Every attempt but the last failed retryably (validation failures never count as retryable), and the last one succeeded, failed for good, or used up the budget. The result is that attempt's value or the classification of its error. The delay after failed attempt `k` lies in `[baseDelay·2^k, baseDelay·2^k + 1000)` |
| Service.PersistentServerError | src/services/api.ts:57-64 | with 500 on every attempt the client makes four attempts, then throws a retryable `SERVER_ERROR` |
| Service.NotFoundOnce | src/services/api.ts:66-72 | a 404 ends the loop after one attempt with a non-retryable `NOT_FOUND` |
| Service.MalformedDataOnce | src/services/api.ts:134-137 | a server that always returns malformed data is asked exactly once, and the caller gets `VALIDATION_ERROR` |
| Service.CoverUrl | src/services/api.ts:206-211 | the cover URL is the prefix's length plus the ISBN's plus six characters for the dash, size letter (default `L`) and `.jpg`; `CoverUrlReadBack` states the parts |
| Service.CoverUrlReadBack | src/services/api.ts:210 | the prefix, the ISBN and the size suffix can be read back from the URL |
| Service.CoverUrlInjective | src/services/api.ts:206-211 | different ISBN/size pairs give different URLs |
| Notifications.Stamped | src/composables/useNotifications.ts:24-28 | the stored entry carries the fresh id and every field of the input unchanged; its timeout is the caller's when given, else 0 for a persistent entry and 5000 otherwise |
| Notifications.AutoRemovalIffTransient | src/composables/useNotifications.ts:26-37 | auto-removal is scheduled iff the entry is not persistent and was not given a zero timeout. Its delay is the given timeout, else 5000 |
| Notifications.ErrorNotificationShape | src/composables/useNotifications.ts:62-70 | `showError` stores a persistent `error` entry with timeout 0 and the given actions, and never schedules its removal |
| Notifications.TransientNotificationShapes | src/composables/useNotifications.ts:53-88 | `showSuccess`, `showWarning` and `showInfo` store non-persistent entries removed after 5000, 7000 and 5000 ms by default |
| Notifications.RemoveAbsentId | src/composables/useNotifications.ts:42-47 | removing an id that no entry has changes nothing |
| Notifications.RemovePresentId | src/composables/useNotifications.ts:42-47 | removing a present id deletes exactly its first entry and keeps the others in order |
| Notifications.AddThenRemove | src/composables/useNotifications.ts:22-47 | adding under a fresh id and then removing that id restores the list |
| Notifications.NotificationList.constructor | src/composables/useNotifications.ts:19 | the list starts empty |
| Notifications.NotificationList.AddNotification | src/composables/useNotifications.ts:22-40 | appends exactly one stamped entry at the end, keeps the earlier ones, returns its id and the delay of its auto-removal, if any |
| Notifications.NotificationList.RemoveNotification | src/composables/useNotifications.ts:42-47 | the list becomes the old list without its first entry with that id |
| Notifications.NotificationList.ClearAll | src/composables/useNotifications.ts:49-51 | the list becomes empty |
| Notifications.NotificationList.ShowSuccess | src/composables/useNotifications.ts:53-60 | appends one success entry with the given timeout |
| Notifications.NotificationList.ShowError | src/composables/useNotifications.ts:62-70 | appends one persistent error entry with the given actions |
| Notifications.NotificationList.ShowWarning | src/composables/useNotifications.ts:72-79 | appends one warning entry with the given timeout |
| Notifications.NotificationList.ShowInfo | src/composables/useNotifications.ts:81-88 | appends one info entry with the given timeout |
| Books.ViewsAreFilters | src/stores/books.ts:15-25 | `availableBooks` keeps stock > 0, `lowStockBooks` 0 < stock < 5 and `outOfStockBooks` stock == 0; each preserves order |
| Books.ViewsRelated | src/stores/books.ts:15-25 | the low-stock view is the available view cut at 5, so it is contained in it; available and out-of-stock are disjoint |
| Books.IndexOfId | src/stores/books.ts:67 | the position found is that of the first book with the id, or none when no book has it |
| Books.FindBook | src/stores/books.ts:27-29 | `getBookById` finds a book iff one has the id, and then the first such book |
| Books.WithStock | src/stores/books.ts:66-71 | `updateBookStock` changes only the first book with the id, only in its stock, which becomes the new value; an absent id changes nothing |
| Books.Decremented | src/stores/books.ts:73-78 | `decrementBookStock` changes only the first book with the id; its stock drops by exactly one when positive, and nothing changes otherwise |
| Books.DecrementKeepsWholeStock | src/stores/books.ts:73-78 | when every stock is a whole non-negative number, decrementing keeps it so |
| Books.FractionalStockGoesNegative | src/stores/books.ts:75-76 | the validator accepts a stock of 0.5, and decrementing that book makes its stock negative |
| Books.BooksStore.constructor | src/stores/books.ts:10-12 | the store starts with no books, not loading, and no error |
| Books.BooksStore.StartFetch | src/stores/books.ts:34-38 | a fetch while `loading` changes nothing; otherwise `loading` is raised and `error` cleared |
| Books.BooksStore.FinishFetch | src/stores/books.ts:40-63 | on success the list is replaced wholesale. On failure the list stays, `error` is the descriptor's message, and one persistent error notification is added, with a retry button iff the descriptor is retryable. `loading` ends false |
| Books.BooksStore.FetchBooks | src/stores/books.ts:34-64 | a fetch while `loading` changes no state. Otherwise it ends not loading: on success with the new list, no error and no new notification; on failure with the old list, the failure's message and one error notification with a retry button iff the error is retryable |
| Books.BooksStore.UpdateBookStock | src/stores/books.ts:66-71 | the list becomes `WithStock` of the old one; `loading` and `error` are untouched |
| Books.BooksStore.DecrementBookStock | src/stores/books.ts:73-78 | the list becomes `Decremented` of the old one; `loading` and `error` are untouched |
| Books.BooksStore.ResetError | src/stores/books.ts:80-82 | `error` becomes empty and nothing else changes |
| Purchases.InsertNewestFirst | src/stores/purchases.ts:31 | inserting into a newest-first list keeps it newest first and adds exactly that record |
| Purchases.SortNewestFirst | src/stores/purchases.ts:31 | the sort yields a newest-first permutation of its input |
| Purchases.RecentPurchasesPrefix | src/stores/purchases.ts:28-33 | `recentPurchases` holds min(10, number of completed records) records: the first ones of the completed records sorted newest first |
| Purchases.RecentPurchasesCompleted | src/stores/purchases.ts:28-33 | every recent purchase is a completed record of the history, and they are ordered newest first |
| Purchases.RecentPurchasesNewest | src/stores/purchases.ts:28-33 | no completed record left out of the recent purchases is newer than one kept |
| Purchases.RetryOfferedIffRetryable | src/stores/purchases.ts:82-116 | a failed purchase offers retry iff the caught descriptor is retryable, so a `success: false` response never does. Its message is never empty, and the notification is persistent |
| Purchases.PurchaseStore.constructor | src/stores/purchases.ts:20-21 | the history and the in-flight set start empty |
| Purchases.PurchaseStore.IsPurchasing | src/stores/purchases.ts:24-26 | `isPurchasing(id)` holds exactly when `id` is in the in-flight set |
| Purchases.PurchaseStore.BeginPurchase | src/stores/purchases.ts:39-55 | a book already in flight is turned away with no effect. An absent or out-of-stock book is refused with one "Book not found" or "This book is out of stock" notification and no other change. Otherwise the book found is admitted and `isPurchasing` becomes true for it. The history is never touched |
| Purchases.PurchaseStore.FinishPurchase | src/stores/purchases.ts:57-121 | returns true iff the response has `success`. Then the stock is decremented, a completed record with the book's id, title and price is appended, and a success notification is shown. Otherwise one failed record is appended, stock is untouched, and the failure notice is shown. The in-flight id is always released, so `isPurchasing` is false afterwards |
| Purchases.PurchaseStore.PurchaseBook | src/stores/purchases.ts:39-122 | the in-flight set, and so `isPurchasing`, ends as it began; the catalog's `loading` and `error` are untouched. The service is called iff the id was not in flight and the book exists with stock > 0. The history grows by exactly one record iff it was called, completed iff the call returned true, and the stock is decremented iff it returned true. Exactly one notification is added unless the id was in flight: the refusal, the success or the failure notice |
| Purchases.DuneScenario | src/stores/purchases.ts:39-122 | a catalog with "Dune" at stock 2: a second purchase while the first is pending is turned away. The confirmed first purchase leaves stock 1 and one completed record at price 9.99, and afterwards the book can be bought again |

## Left out

- Numbers are modelled as mathematical reals. There is no NaN beyond the `isNumber` guard, no `Infinity` (which that guard accepts), and no floating-point rounding, so `availableStock - 1` is exact.
- String lengths in the title and author rules are counted in characters of the model's strings, not in UTF-16 code units.
- Real I/O is left out: `fetch`, the base URL from the environment, request headers, `console.log`/`console.error`, and the diagnostic logger that `createUserFriendlyError` calls. Each attempt's reply is an input value. The `endpoint` text of `getBook`/`purchaseBook` is a parameter.
- `Math.random`, `Date.now()` and `sleep` are left out. The jitter is chosen nondeterministically in `[0, 1000)`, and the waits are returned as a list of delays. Ids and timestamps are parameters.
- The `setTimeout` callback that removes a transient notification is left out. `AddNotification` returns the delay it would schedule. An explicit `timeout: undefined` in an input is treated as an absent timeout.
- The action callbacks of notifications (`Try Again` re-invoking the operation, `Cancel` doing nothing) are modelled by their caption and `primary` flag only. A missing `primary` is `false`.
- Vue/Pinia reactivity is modelled as class fields, and the computed getters as functions.
- Interleaving at `await` points is modelled by the split into `StartFetch`/`FinishFetch` and `BeginPurchase`/`FinishPurchase`. The purchase store keeps the book it looked up as a value. A catalog entry updated in place through an alias after the lookup is not reflected in that copy.
- `withRetry` is modelled for operations whose failures are validation errors, fetch errors or errors without a status, which are the only ones the three service operations can throw. Any other thrown value is left out.
- Purchases.SortNewestFirst: the stability of the sort (equal timestamps keep their order) is not stated as a contract.
- Books.DecrementKeepsWholeStock: non-negativity after a decrement is proved only for whole stocks, because the validator accepts fractional stock and `Books.FractionalStockGoesNegative` shows a stock of 0.5 turning negative.
- `src/utils/errorLogger.ts`, `src/composables/useFocusManagement.ts`, `src/composables/useBreadcrumbs.ts`, `src/router/index.ts` and `src/stores/index.ts` are not part of this model: they hold logging, DOM focus, breadcrumbs, routing and re-exports only.
