/** The order service: paginated new and completed orders, the cook queue, and the
    complete and close actions. */
module OrderService {
  import opened Wrappers
  import opened JsString
  import opened Http

  /** The body of the complete and close requests, `{ order_id }`. */
  datatype OrderIdBody = OrderIdBody(order_id: string)

  /** The message thrown for a non-OK status, `HTTP error! status: N`. */
  function HttpErrorMessage(status: int): string {
    "HTTP error! status: " + IntToString(status)
  }

  // ---------------------------------------------------------------- pagination

  /** The paginated listing of one kind of order (`New` or `Complete`). */
  function PaginationUrl(kind: string, offset: int, limit: int): string {
    BaseUrl + "/Order/Pos/All/" + kind + "/Pagination?offset=" + IntToString(offset)
    + "&limit=" + IntToString(limit)
  }

  /** The URL splits at `?` into `path` and a query whose two `&`-separated parameters are
      `offset=` and `limit=`, reading back as `offset` and `limit`. */
  predicate CarriesPage(url: string, path: string, offset: int, limit: int) {
    var parts := Split(url, '?');
    |parts| == 2 && parts[0] == path
    && var params := Split(parts[1], '&');
       |params| == 2
       && StartsWith(params[0], "offset=") && ParseInt(params[0][7..]) == Some(offset)
       && StartsWith(params[1], "limit=") && ParseInt(params[1][6..]) == Some(limit)
  }

  /** The path of the paginated listing of one kind of order. */
  function PaginationPath(kind: string): string {
    BaseUrl + "/Order/Pos/All/" + kind + "/Pagination"
  }

  /** A body-less GET with only the JSON content type, whose query carries the page. */
  function PaginationRequest(kind: string, offset: int, limit: int): (q: Request<OrderIdBody>)
    ensures q.verb == GET && q.body == None && q.headers == ContentTypeHeader
    ensures '?' !in kind && '&' !in kind ==> CarriesPage(q.url, PaginationPath(kind), offset, limit)
  {
    var q := Request(GET, PaginationUrl(kind, offset, limit), ContentTypeHeader, None);
    if '?' !in kind && '&' !in kind then
      PaginationQueryRoundTrip(kind, offset, limit);
      q
    else
      q
  }

  /** The request `getNewOrdersPagination(offset, limit)` makes, with its defaults: the
      new-orders listing, asking for `limit` orders from `offset`. */
  function NewOrdersRequest(offset: int := 0, limit: int := 10): (q: Request<OrderIdBody>)
    ensures q.verb == GET && q.body == None && q.headers == ContentTypeHeader
    ensures CarriesPage(q.url, BaseUrl + "/Order/Pos/All/New/Pagination", offset, limit)
  {
    assert '?' !in "New" && '&' !in "New";
    assert PaginationPath("New") == BaseUrl + "/Order/Pos/All/New/Pagination";
    PaginationRequest("New", offset, limit)
  }

  /** The request `getCompleteOrdersPagination(offset, limit)` makes, with its defaults:
      the completed-orders listing, asking for `limit` orders from `offset`. */
  function CompleteOrdersRequest(offset: int := 0, limit: int := 10): (q: Request<OrderIdBody>)
    ensures q.verb == GET && q.body == None && q.headers == ContentTypeHeader
    ensures CarriesPage(q.url, BaseUrl + "/Order/Pos/All/Complete/Pagination", offset, limit)
  {
    assert '?' !in "Complete" && '&' !in "Complete";
    assert PaginationPath("Complete") == BaseUrl + "/Order/Pos/All/Complete/Pagination";
    PaginationRequest("Complete", offset, limit)
  }

  /** A worked instance of the defaults: called without arguments, both listings ask for
      the first ten orders. */
  lemma PaginationDefaults()
    ensures CarriesPage(NewOrdersRequest().url, BaseUrl + "/Order/Pos/All/New/Pagination", 0, 10)
    ensures CarriesPage(CompleteOrdersRequest().url, BaseUrl + "/Order/Pos/All/Complete/Pagination", 0, 10)
  {
  }

  lemma NoSeparatorInNumber(n: int, sep: char)
    requires sep != '-' && !IsDigit(sep)
    ensures sep !in IntToString(n)
  {
    var digits := NatToString(if n < 0 then -n else n);
    assert sep !in digits by {
      forall i | 0 <= i < |digits| ensures digits[i] != sep { assert IsDigit(digits[i]); }
    }
  }

  /** Splitting `a sep b`, where neither side holds the separator, gives the two sides. */
  lemma SplitTwo(a: string, b: string, sep: char)
    requires sep !in a && sep !in b
    ensures Split(a + [sep] + b, sep) == [a, b]
  {
    SplitAround(a, b, sep);
    SplitWithoutSeparator(a, sep);
    SplitWithoutSeparator(b, sep);
  }

  lemma NoQueryMarkInPath(kind: string)
    requires '?' !in kind
    ensures '?' !in BaseUrl + "/Order/Pos/All/" + kind + "/Pagination"
  {
    var fixed := BaseUrl + "/Order/Pos/All/";
    assert '?' !in fixed;
    assert '?' !in "/Pagination";
  }

  /** The query string carries the offset and the limit: splitting the URL at `?` and
      the query at `&` gives `offset=<offset>` and `limit=<limit>`, which read back as
      the given numbers. */
  lemma PaginationQueryRoundTrip(kind: string, offset: int, limit: int)
    requires '?' !in kind && '&' !in kind
    ensures CarriesPage(PaginationUrl(kind, offset, limit), PaginationPath(kind), offset, limit)
  {
    var path := PaginationPath(kind);
    var o := IntToString(offset);
    var l := IntToString(limit);
    var first := "offset=" + o;
    var second := "limit=" + l;
    var query := first + ['&'] + second;
    PaginationUrlShape(kind, offset, limit);
    NoSeparatorInNumber(offset, '?');
    NoSeparatorInNumber(limit, '?');
    NoSeparatorInNumber(offset, '&');
    NoSeparatorInNumber(limit, '&');
    NoQueryMarkInPath(kind);
    SplitTwo(path, query, '?');
    SplitTwo(first, second, '&');
    assert first[7..] == o && StartsWith(first, "offset=");
    assert second[6..] == l && StartsWith(second, "limit=");
    IntToStringRoundTrip(offset);
    IntToStringRoundTrip(limit);
  }

  /** The URL is the path, `?`, and the two parameters joined by `&`. */
  lemma PaginationUrlShape(kind: string, offset: int, limit: int)
    ensures PaginationUrl(kind, offset, limit)
            == PaginationPath(kind) + ['?']
               + (("offset=" + IntToString(offset)) + ['&'] + ("limit=" + IntToString(limit)))
  {
    var path, o, l := PaginationPath(kind), IntToString(offset), IntToString(limit);
    assert "/Pagination?offset=" == "/Pagination" + ['?'] + "offset=";
    assert "&limit=" == ['&'] + "limit=";
    assert PaginationUrl(kind, offset, limit) == path + "?offset=" + o + "&limit=" + l;
  }

  /** Both paginated listings: a non-OK status throws `HTTP error! status: N`, an OK body
      is parsed, and the thrown error is rethrown. */
  function PaginationOutcome<J>(o: FetchOutcome, parse: JsonParser<J>): (r: Result<J, Error>)
    ensures r.Success? <==> o.Received? && IsOk(o.response) && parse(o.response.body).Success?
    ensures r.Success? ==> parse(o.response.body) == Success(r.value)
    ensures o.NetworkFailure? ==> r == Failure(Error(o.message))
    ensures o.Received? && !IsOk(o.response) ==> r == Failure(Error(HttpErrorMessage(o.response.status)))
    ensures o.Received? && IsOk(o.response) && parse(o.response.body).Failure? ==>
              r == Failure(Error(parse(o.response.body).error))
  {
    match o
    case NetworkFailure(m) => Failure(Error(m))
    case Received(resp) =>
      if !IsOk(resp) then Failure(Error(HttpErrorMessage(resp.status)))
      else
        match parse(resp.body)
        case Failure(m) => Failure(Error(m))
        case Success(j) => Success(j)
  }

  // ---------------------------------------------------------------- cook queue

  const CookRequest: Request<OrderIdBody> := Request(GET, BaseUrl + "/Order/Pos/Cook", ContentTypeHeader, None)

  /** `getCookOrders()` either returns the empty list or the parsed body. */
  datatype CookOrders<J> = NoOrders | Orders(data: J)

  /** The error messages the catch block turns into an empty list. */
  predicate SwallowedByCook(message: string) {
    Includes(message, "500") || Includes(message, "network")
  }

  /** What the body of the `try` in `getCookOrders` yields: 500 and 404 give the empty list
      without reading the body, another non-OK status throws, an OK body is parsed. */
  function CookAttempt<J>(o: FetchOutcome, parse: JsonParser<J>): Result<CookOrders<J>, Error> {
    match o
    case NetworkFailure(m) => Failure(Error(m))
    case Received(resp) =>
      if resp.status == 500 || resp.status == 404 then Success(NoOrders)
      else if !IsOk(resp) then Failure(Error(HttpErrorMessage(resp.status)))
      else
        match parse(resp.body)
        case Failure(m) => Failure(Error(m))
        case Success(j) => Success(Orders(j))
  }

  /** `getCookOrders()`: the attempt, with the catch block turning any error whose message
      mentions `500` or `network` into the empty list. */
  function CookOutcome<J>(o: FetchOutcome, parse: JsonParser<J>): (r: Result<CookOrders<J>, Error>)
    ensures o.Received? && (o.response.status == 500 || o.response.status == 404) ==> r == Success(NoOrders)
    ensures r.Failure? ==> !SwallowedByCook(r.error.message)
    ensures r.Failure? ==> CookAttempt(o, parse) == r
    ensures r == Success(NoOrders) ==>
              var a := CookAttempt(o, parse); a == r || (a.Failure? && SwallowedByCook(a.error.message))
    ensures r.Success? && r.value.Orders? ==> o.Received? && IsOk(o.response) && parse(o.response.body) == Success(r.value.data)
  {
    match CookAttempt(o, parse)
    case Success(v) => Success(v)
    case Failure(e) => if SwallowedByCook(e.message) then Success(NoOrders) else Failure(e)
  }

  /** A three-digit number other than 500 does not print as `500`. */
  lemma DigitsNot500(status: int)
    requires 100 <= status <= 999 && status != 500
    ensures |IntToString(status)| == 3 && IntToString(status) != "500"
    ensures forall i :: 0 <= i < 3 ==> IntToString(status)[i] != 'n'
  {
    ThreeDigits(status);
    assert status / 100 != 5 || status / 10 % 10 != 0 || status % 10 != 0;
  }

  /** A prefix without `5` and `n`, followed by three characters that are not `500` and
      hold no `n`, mentions neither `500` nor `network`. */
  lemma MessageNotSwallowed(prefix: string, tail: string)
    requires '5' !in prefix && 'n' !in prefix
    requires |tail| == 3 && tail != "500" && forall i :: 0 <= i < 3 ==> tail[i] != 'n'
    ensures !SwallowedByCook(prefix + tail)
  {
    var m := prefix + tail;
    assert 'n' !in m by {
      forall i | 0 <= i < |m| ensures m[i] != 'n' {
        if i < |prefix| { assert m[i] == prefix[i]; } else { assert m[i] == tail[i - |prefix|]; }
      }
    }
    NotIncludesWithoutFirst(m, "network");
    forall i | 0 <= i <= |m| ensures !OccursAt(m, "500", i) {
      if i < |prefix| {
        assert m[i] == prefix[i];
        if i + 3 <= |m| { assert m[i..i + 3][0] == m[i]; }
      } else if i == |prefix| {
        assert m[i..i + 3] == tail;
      }
    }
    IncludesIff(m, "500");
  }

  /** A non-OK three-digit status other than 500 and 404 makes `getCookOrders` throw
      `HTTP error! status: N`: the message mentions `500` only for status 500, and never
      mentions `network`. */
  lemma OtherErrorStatusThrows<J>(resp: Response, parse: JsonParser<J>)
    requires 100 <= resp.status <= 999 && resp.status != 500 && resp.status != 404 && !IsOk(resp)
    ensures CookOutcome(Received(resp), parse) == Failure(Error(HttpErrorMessage(resp.status)))
  {
    var prefix := "HTTP error! status: ";
    assert '5' !in prefix && 'n' !in prefix;
    DigitsNot500(resp.status);
    MessageNotSwallowed(prefix, IntToString(resp.status));
  }

  // ---------------------------------------------------------------- complete and close

  function CompleteOrderRequest(orderId: string): (q: Request<OrderIdBody>)
    ensures q.verb == POST && q.body == Some(OrderIdBody(orderId)) && q.headers == ContentTypeHeader
  {
    Request(POST, BaseUrl + "/Order/Pos/Complete", ContentTypeHeader, Some(OrderIdBody(orderId)))
  }

  function CloseOrderRequest(orderId: string): (q: Request<OrderIdBody>)
    ensures q.verb == POST && q.body == Some(OrderIdBody(orderId)) && q.headers == ContentTypeHeader
  {
    Request(POST, BaseUrl + "/Order/Pos/Close", ContentTypeHeader, Some(OrderIdBody(orderId)))
  }

  /** What `completeOrder` and `closeOrder` return on an OK response: `{ success: true }`,
      the parsed body, or `{ success: true, message: text }`. */
  datatype OrderAck<J> = Acknowledged | Parsed(data: J) | AckMessage(text: string)

  /** The body normalisation shared by `completeOrder` and `closeOrder`. */
  function AckOutcome<J>(o: FetchOutcome, parse: JsonParser<J>): (r: Result<OrderAck<J>, Error>)
    ensures r.Failure? <==> o.NetworkFailure? || !IsOk(o.response)
    ensures o.NetworkFailure? ==> r == Failure(Error(o.message))
    ensures o.Received? && !IsOk(o.response) ==> r == Failure(Error(HttpErrorMessage(o.response.status)))
    ensures r == Success(Acknowledged) <==> o.Received? && IsOk(o.response) && Trim(o.response.body) == ""
    ensures r.Success? && r.value.Parsed? ==> Trim(o.response.body) != "" && parse(o.response.body) == Success(r.value.data)
    ensures r.Success? && r.value.AckMessage? ==>
              Trim(o.response.body) != "" && parse(o.response.body).Failure? && r.value.text == o.response.body
  {
    match o
    case NetworkFailure(m) => Failure(Error(m))
    case Received(resp) =>
      if !IsOk(resp) then Failure(Error(HttpErrorMessage(resp.status)))
      else if resp.body == "" || Trim(resp.body) == "" then Success(Acknowledged)
      else
        match parse(resp.body)
        case Success(j) => Success(Parsed(j))
        case Failure(_) => Success(AckMessage(resp.body))
  }

  /** `completeOrder(orderId)`: an OK response never throws, whatever its body. */
  function CompleteOrder<J>(orderId: string, fetch: Request<OrderIdBody> -> FetchOutcome, parse: JsonParser<J>)
    : (r: Result<OrderAck<J>, Error>)
    ensures r.Failure? <==> var o := fetch(CompleteOrderRequest(orderId)); o.NetworkFailure? || !IsOk(o.response)
    ensures r == AckOutcome(fetch(CompleteOrderRequest(orderId)), parse)
  {
    AckOutcome(fetch(CompleteOrderRequest(orderId)), parse)
  }

  /** `closeOrder(orderId)`: an OK response never throws, whatever its body. */
  function CloseOrder<J>(orderId: string, fetch: Request<OrderIdBody> -> FetchOutcome, parse: JsonParser<J>)
    : (r: Result<OrderAck<J>, Error>)
    ensures r.Failure? <==> var o := fetch(CloseOrderRequest(orderId)); o.NetworkFailure? || !IsOk(o.response)
    ensures r == AckOutcome(fetch(CloseOrderRequest(orderId)), parse)
  {
    AckOutcome(fetch(CloseOrderRequest(orderId)), parse)
  }
}
