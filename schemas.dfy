/**
 * The response validators: each turns an untyped parsed body into a typed
 * value or fails with the first `ValidationError` it meets.
 */
module Schemas {
  import opened Base
  import opened JsValues
  import opened ApiTypes

  const TITLE_MAX_LENGTH: nat := 255
  const DEFAULT_PURCHASE_MESSAGE := "Purchase completed successfully"

  /** The ISBN pattern `^(?:\d{10}|\d{13})$`: ten or thirteen ASCII digits, nothing else. */
  predicate MatchesIsbnPattern(s: string) {
    (|s| == 10 || |s| == 13) && AllDigits(s)
  }

  /** What a field must satisfy (the `validationRules.book` table). */
  datatype Check = NumberAtLeast(min: real) | LengthBetween(minLength: nat, maxLength: nat) | IsbnPattern

  /** One row of the rule table: the property, its name in messages, its check and the expected-shape text. */
  datatype FieldRule = FieldRule(name: string, caption: string, check: Check, expected: string)

  /** The book rules, in the order the validator applies them. */
  const BookRules: seq<FieldRule> := [
    FieldRule("id", "ID", NumberAtLeast(1.0), "number >= 1"),
    FieldRule("title", "title", LengthBetween(1, TITLE_MAX_LENGTH), "string (1-255 chars)"),
    FieldRule("author", "author", LengthBetween(1, TITLE_MAX_LENGTH), "string (1-255 chars)"),
    FieldRule("isbn", "ISBN", IsbnPattern, "10 or 13 digit string"),
    FieldRule("price", "price", NumberAtLeast(0.01), "number >= 0.01"),
    FieldRule("availableStock", "stock", NumberAtLeast(0.0), "number >= 0")
  ]

  predicate Satisfies(c: Check, v: Value) {
    match c
    case NumberAtLeast(min) => IsNumber(v) && v.n >= min
    case LengthBetween(lo, hi) => IsString(v) && lo <= |v.s| <= hi
    case IsbnPattern => IsString(v) && MatchesIsbnPattern(v.s)
  }

  /** The error raised for rule `rule` of the book found at `path`. */
  function FieldError(path: string, rule: FieldRule, v: Value): ValidationError {
    ValidationError("Invalid book " + rule.caption + " at " + path + "." + rule.name,
                    path + "." + rule.name, rule.expected, v)
  }

  /** The typed invariant of a catalog `Book`: every field meets its rule. */
  predicate ValidBook(b: Book) {
    && b.id >= 1.0
    && 1 <= |b.title| <= TITLE_MAX_LENGTH
    && 1 <= |b.author| <= TITLE_MAX_LENGTH
    && MatchesIsbnPattern(b.isbn)
    && b.price >= 0.01
    && b.availableStock >= 0.0
  }

  /** The wire form of a book, as the service sends it. */
  function BookToValue(b: Book): Value {
    Obj(map["id" := Num(b.id), "title" := Str(b.title), "author" := Str(b.author),
            "isbn" := Str(b.isbn), "price" := Num(b.price),
            "availableStock" := Num(b.availableStock)])
  }

  /**
   * `validateBook(data, path)`: the guards run in the order of `BookRules` and
   * the first one that fails throws; on success the six values are copied as they are.
   */
  function ValidateBook(data: Value, path: string): (r: Result<Book, ValidationError>)
    ensures r.Ok? ==> ValidBook(r.value)
    ensures r.Ok? ==> IsObject(data) && BookToValue(r.value).props.Keys <= data.props.Keys
    ensures r.Ok? ==> forall k :: k in BookToValue(r.value).props ==> Prop(data, k) == BookToValue(r.value).props[k]
    ensures !IsObject(data) ==> r == Err(ValidationError("Expected object at " + path, path, "object", data))
  {
    if !IsObject(data) then
      Err(ValidationError("Expected object at " + path, path, "object", data))
    else
      var id, title, author := Prop(data, "id"), Prop(data, "title"), Prop(data, "author");
      var isbn, price, stock := Prop(data, "isbn"), Prop(data, "price"), Prop(data, "availableStock");
      if !IsNumber(id) || id.n < 1.0 then
        Err(FieldError(path, BookRules[0], id))
      else if !IsString(title) || |title.s| < 1 || |title.s| > TITLE_MAX_LENGTH then
        Err(FieldError(path, BookRules[1], title))
      else if !IsString(author) || |author.s| < 1 || |author.s| > TITLE_MAX_LENGTH then
        Err(FieldError(path, BookRules[2], author))
      else if !IsString(isbn) || !MatchesIsbnPattern(isbn.s) then
        Err(FieldError(path, BookRules[3], isbn))
      else if !IsNumber(price) || price.n < 0.01 then
        Err(FieldError(path, BookRules[4], price))
      else if !IsNumber(stock) || stock.n < 0.0 then
        Err(FieldError(path, BookRules[5], stock))
      else
        Ok(Book(id.n, title.s, author.s, isbn.s, price.n, stock.n))
  }

  /** Rules `0 .. k-1` all hold of the object's properties. */
  predicate RulesHoldBefore(data: Value, k: nat)
    requires IsObject(data) && k <= |BookRules|
  {
    forall j :: 0 <= j < k ==> Satisfies(BookRules[j].check, Prop(data, BookRules[j].name))
  }

  /**
   * On an object, validation succeeds exactly when every rule holds, and a
   * failure reports the first rule (in table order) that does not hold, with
   * that property's raw value.
   */
  lemma ValidateBookFirstFailure(data: Value, path: string)
    requires IsObject(data)
    ensures ValidateBook(data, path).Ok? <==> RulesHoldBefore(data, |BookRules|)
    ensures ValidateBook(data, path).Err? ==>
              exists k :: 0 <= k < |BookRules| && RulesHoldBefore(data, k)
                && !Satisfies(BookRules[k].check, Prop(data, BookRules[k].name))
                && ValidateBook(data, path).error == FieldError(path, BookRules[k], Prop(data, BookRules[k].name))
  {
    var r := ValidateBook(data, path);
    var n := |BookRules|;
    assert n == 6;
    if !Satisfies(BookRules[0].check, Prop(data, "id")) {
      assert RulesHoldBefore(data, 0);
    } else if !Satisfies(BookRules[1].check, Prop(data, "title")) {
      assert RulesHoldBefore(data, 1);
    } else if !Satisfies(BookRules[2].check, Prop(data, "author")) {
      assert RulesHoldBefore(data, 2);
    } else if !Satisfies(BookRules[3].check, Prop(data, "isbn")) {
      assert RulesHoldBefore(data, 3);
    } else if !Satisfies(BookRules[4].check, Prop(data, "price")) {
      assert RulesHoldBefore(data, 4);
    } else if !Satisfies(BookRules[5].check, Prop(data, "availableStock")) {
      assert RulesHoldBefore(data, 5);
    } else {
      assert RulesHoldBefore(data, 6);
    }
  }

  /** A valid book sent over the wire validates back to itself, at any path. */
  lemma ValidateBookRoundTrip(b: Book, path: string)
    requires ValidBook(b)
    ensures ValidateBook(BookToValue(b), path) == Ok(b)
  {
  }

  /** The `books[i]` path of catalog element `i`. */
  function ElementPath(i: nat): string {
    "books[" + NatToString(i) + "]"
  }

  /** Distinct catalog elements get distinct paths. */
  lemma ElementPathInjective(i: nat, j: nat)
    requires ElementPath(i) == ElementPath(j)
    ensures i == j
  {
    var pi, pj := ElementPath(i), ElementPath(j);
    assert NatToString(i) == pi[6..|pi| - 1];
    assert NatToString(j) == pj[6..|pj| - 1];
    NatToStringInjective(i, j);
  }

  /** The outcome of validating element `i` of a catalog array whose first element has index `offset`. */
  function ElementResult(items: seq<Value>, offset: nat, i: nat): Result<Book, ValidationError>
    requires i < |items|
  {
    ValidateBook(items[i], ElementPath(offset + i))
  }

  /** Elements `0 .. n-1` all validate. */
  predicate PrefixValid(items: seq<Value>, offset: nat, n: nat)
    requires n <= |items|
  {
    forall j :: 0 <= j < n ==> ElementResult(items, offset, j).Ok?
  }

  /**
   * `items.map((book, index) => validateBook(book, `books[${index}]`))` on the
   * suffix starting at `offset`: elements are validated left to right and the
   * first failure is thrown.
   */
  function ValidateElements(items: seq<Value>, offset: nat): (r: Result<seq<Book>, ValidationError>)
    ensures r.Ok? ==> |r.value| == |items|
    ensures r.Ok? ==> forall i :: 0 <= i < |items| ==> ElementResult(items, offset, i) == Ok(r.value[i])
    decreases |items|
  {
    if items == [] then Ok([])
    else match ValidateBook(items[0], ElementPath(offset))
      case Err(e) => Err(e)
      case Ok(b) =>
        match ValidateElements(items[1..], offset + 1)
        case Err(e) => Err(e)
        case Ok(bs) =>
          assert forall i :: 1 <= i < |items| ==>
                   ElementResult(items, offset, i) == ElementResult(items[1..], offset + 1, i - 1);
          Ok([b] + bs)
  }

  /** The elements validate together exactly when each does alone. */
  lemma {:induction false} ValidateElementsAllValid(items: seq<Value>, offset: nat)
    ensures ValidateElements(items, offset).Ok? <==> PrefixValid(items, offset, |items|)
    decreases |items|
  {
    if items != [] {
      var tail := items[1..];
      ValidateElementsAllValid(tail, offset + 1);
      assert forall i :: 1 <= i < |items| ==>
               ElementResult(items, offset, i) == ElementResult(tail, offset + 1, i - 1);
      if PrefixValid(items, offset, |items|) {
        var next := offset + 1;
        forall j | 0 <= j < |tail| ensures ElementResult(tail, next, j).Ok? {
          assert ElementResult(items, offset, j + 1).Ok?;
        }
        assert ValidateElements(tail, next).Ok?;
        assert ValidateBook(items[0], ElementPath(offset)) == ElementResult(items, offset, 0);
      } else {
        var j :| 0 <= j < |items| && ElementResult(items, offset, j).Err?;
        if j > 0 {
          assert ElementResult(tail, offset + 1, j - 1).Err?;
        }
      }
    }
  }

  /** A failure of the whole array is the failure of its lowest failing index. */
  lemma {:induction false} ValidateElementsFirstFailure(items: seq<Value>, offset: nat)
    requires ValidateElements(items, offset).Err?
    ensures exists i :: 0 <= i < |items| && PrefixValid(items, offset, i)
              && ElementResult(items, offset, i) == Err(ValidateElements(items, offset).error)
    decreases |items|
  {
    var tail := items[1..];
    var e := ValidateElements(items, offset).error;
    if ElementResult(items, offset, 0).Err? {
      assert PrefixValid(items, offset, 0);
      assert ElementResult(items, offset, 0) == Err(e);
    } else {
      var rest := ValidateElements(tail, offset + 1);
      assert rest == Err(e);
      ValidateElementsFirstFailure(tail, offset + 1);
      var i :| 0 <= i < |tail| && PrefixValid(tail, offset + 1, i)
               && ElementResult(tail, offset + 1, i) == Err(e);
      assert forall j :: 1 <= j < |items| ==>
               ElementResult(items, offset, j) == ElementResult(tail, offset + 1, j - 1);
      assert PrefixValid(items, offset, i + 1);
      assert ElementResult(items, offset, i + 1) == Err(e);
    }
  }

  /** `validateBooksResponse`: an object envelope whose `books` member is an array of valid books. */
  function ValidateBooksResponse(data: Value): (r: Result<BooksResponse, ValidationError>)
    ensures !IsObject(data) ==> r.Err? && r.error.field == "" && r.error.receivedValue == data
    ensures IsObject(data) && !IsArray(Prop(data, "books")) ==>
              r.Err? && r.error.field == "books" && r.error.expectedType == "array"
              && r.error.receivedValue == Prop(data, "books")
    ensures r.Ok? ==> (IsObject(data) && IsArray(Prop(data, "books"))
                       && Ok(r.value.books) == ValidateElements(Prop(data, "books").items, 0))
  {
    if !IsObject(data) then
      Err(ValidationError("Expected object for books response", "", "object", data))
    else
      var books := Prop(data, "books");
      if !IsArray(books) then
        Err(ValidationError("Expected books array", "books", "array", books))
      else
        match ValidateElements(books.items, 0)
        case Err(e) => Err(e)
        case Ok(bs) => Ok(BooksResponse(bs))
  }

  /**
   * A catalog envelope validates to the list of its elements' books, same
   * length and order, each at path `books[i]`; otherwise the error is that of
   * the lowest failing index.
   */
  lemma BooksResponseElements(data: Value)
    requires IsObject(data) && IsArray(Prop(data, "books"))
    ensures var items := Prop(data, "books").items;
            var r := ValidateBooksResponse(data);
            && (r.Ok? <==> PrefixValid(items, 0, |items|))
            && (r.Ok? ==> (|r.value.books| == |items|
                           && forall i :: 0 <= i < |items| ==>
                                ValidateBook(items[i], ElementPath(i)) == Ok(r.value.books[i])))
            && (r.Err? ==> (exists i :: 0 <= i < |items| && PrefixValid(items, 0, i)
                             && ValidateBook(items[i], ElementPath(i)) == Err(r.error)))
  {
    var items := Prop(data, "books").items;
    ValidateElementsAllValid(items, 0);
    if ValidateElements(items, 0).Err? {
      ValidateElementsFirstFailure(items, 0);
    }
    assert forall i :: 0 <= i < |items| ==> ElementResult(items, 0, i) == ValidateBook(items[i], ElementPath(i));
  }

  /** `validateBookDetailResponse`: an object envelope whose `book` member is validated at path `book`. */
  function ValidateBookDetailResponse(data: Value): (r: Result<BookDetailResponse, ValidationError>)
    ensures !IsObject(data) ==> r.Err? && r.error.field == "" && r.error.receivedValue == data
    ensures IsObject(data) ==> match ValidateBook(Prop(data, "book"), "book")
                               case Ok(b) => r == Ok(BookDetailResponse(b))
                               case Err(e) => r == Err(e)
  {
    if !IsObject(data) then
      Err(ValidationError("Expected object for book detail response", "", "object", data))
    else
      match ValidateBook(Prop(data, "book"), "book")
      case Err(e) => Err(e)
      case Ok(b) => Ok(BookDetailResponse(b))
  }

  /** `String(v)` when `v` is a string, omitted otherwise. */
  function StringMember(v: Value): (r: Option<string>)
    ensures r.Some? <==> v.Str?
    ensures r.Some? ==> r.value == v.s
  {
    if v != Undefined && IsString(v) then Some(v.s) else None
  }

  /**
   * `validatePurchaseResponse`: permissive on optional members. `success` is
   * true when absent and the truthiness of the value otherwise; `message`
   * falls back to a canned text; `book` is validated only when present;
   * `transactionId` and `orderId` are kept only when they are strings.
   */
  function ValidatePurchaseResponse(data: Value): (r: Result<PurchaseResponse, ValidationError>)
    ensures !IsObject(data) ==> r.Err? && r.error.field == "" && r.error.receivedValue == data
    ensures IsObject(data) ==>
              (r.Ok? <==> Prop(data, "book") == Undefined || ValidateBook(Prop(data, "book"), "book").Ok?)
    ensures r.Ok? ==> IsObject(data)
    ensures r.Ok? ==> (r.value.success <==> Prop(data, "success") == Undefined || Truthy(Prop(data, "success")))
    ensures r.Ok? ==> r.value.message == (if IsString(Prop(data, "message")) then Prop(data, "message").s
                                          else DEFAULT_PURCHASE_MESSAGE)
    ensures r.Ok? ==> (r.value.book.Some? <==> Prop(data, "book") != Undefined)
    ensures r.Ok? && r.value.book.Some? ==> ValidateBook(Prop(data, "book"), "book") == Ok(r.value.book.value)
    ensures IsObject(data) && Prop(data, "book") != Undefined && ValidateBook(Prop(data, "book"), "book").Err? ==>
              r == Err(ValidateBook(Prop(data, "book"), "book").error)
    ensures r.Ok? ==> (r.value.transactionId.Some? <==> IsString(Prop(data, "transactionId")))
    ensures r.Ok? ==> (r.value.orderId.Some? <==> IsString(Prop(data, "orderId")))
    ensures r.Ok? ==> r.value.transactionId == StringMember(Prop(data, "transactionId"))
                      && r.value.orderId == StringMember(Prop(data, "orderId"))
  {
    if !IsObject(data) then
      Err(ValidationError("Expected object for purchase response", "", "object", data))
    else
      var success, message, book := Prop(data, "success"), Prop(data, "message"), Prop(data, "book");
      var successFlag := if success != Undefined then Truthy(success) else true;
      var text := if IsString(message) then message.s else DEFAULT_PURCHASE_MESSAGE;
      var validated :=
        if book != Undefined then
          match ValidateBook(book, "book")
          case Err(e) => Err(e)
          case Ok(b) => Ok(Some(b))
        else Ok(None);
      match validated
      case Err(e) => Err(e)
      case Ok(b) =>
        Ok(PurchaseResponse(successFlag, text, b,
                            StringMember(Prop(data, "transactionId")),
                            StringMember(Prop(data, "orderId"))))
  }

  /**
   * `validateApiResponse(validator, data, endpoint)`: the validator's value is
   * returned unchanged; its `ValidationError` is rethrown with the same field,
   * expected shape and received value and a message naming the endpoint.
   */
  function ValidateApiResponse<T>(validator: Value -> Result<T, ValidationError>, data: Value, endpoint: string)
    : (r: Result<T, ValidationError>)
    ensures r.Ok? <==> validator(data).Ok?
    ensures r.Ok? ==> r.value == validator(data).value
    ensures r.Err? ==> var e := validator(data).error;
                       && r.error.field == e.field
                       && r.error.expectedType == e.expectedType
                       && r.error.receivedValue == e.receivedValue
                       && r.error.message == "API response validation failed for " + endpoint + ": " + e.message
  {
    match validator(data)
    case Ok(v) => Ok(v)
    case Err(e) =>
      Err(ValidationError("API response validation failed for " + endpoint + ": " + e.message,
                          e.field, e.expectedType, e.receivedValue))
  }

  /** The ISBN examples: ten and thirteen digits pass; nine digits, letters and an `X` check character fail. */
  lemma IsbnExamples()
    ensures MatchesIsbnPattern("0306406152")
    ensures MatchesIsbnPattern("9780306406157")
    ensures !MatchesIsbnPattern("030640615")
    ensures !MatchesIsbnPattern("ABCDEFGHIJ")
    ensures !MatchesIsbnPattern("080442957X")
  {
    assert "ABCDEFGHIJ"[0] == 'A';
    assert "080442957X"[9] == 'X';
  }
}
