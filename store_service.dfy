/** The store service: authenticated calls for merchants, menus and time slots. Every call
    reads its headers from AsyncStorage first. */
module StoreService {
  import opened Wrappers
  import opened JsString
  import opened Http
  import opened Storage

  // ---------------------------------------------------------------- auth headers

  /** The headers built from the stored token and cookie string: the two JSON headers,
      `Authorization: Bearer <token>` when the token is truthy and `Cookie` when the
      cookie string is truthy. */
  function AuthHeaders(token: Option<string>, cookies: Option<string>): (h: map<string, string>)
    ensures h.Keys == {"Accept", "Content-Type"} + (if Truthy(token) then {"Authorization"} else {})
                      + (if Truthy(cookies) then {"Cookie"} else {})
    ensures h["Accept"] == "application/json" && h["Content-Type"] == "application/json"
    ensures Truthy(token) ==> h["Authorization"] == "Bearer " + token.value
    ensures Truthy(cookies) ==> h["Cookie"] == cookies.value
  {
    var withToken := if Truthy(token) then JsonHeaders["Authorization" := "Bearer " + token.value] else JsonHeaders;
    if Truthy(cookies) then withToken["Cookie" := cookies.value] else withToken
  }

  /** The headers `getAuthHeaders` returns for a store with these entries. */
  function HeadersFrom(entries: map<string, string>, faulty: bool): (h: map<string, string>)
    ensures faulty ==> h == JsonHeaders
    ensures !faulty ==> h == AuthHeaders(Stored(entries, TokenKey), Stored(entries, CookiesKey))
  {
    if faulty then JsonHeaders else AuthHeaders(Stored(entries, TokenKey), Stored(entries, CookiesKey))
  }

  /** `getAuthHeaders()`: reads the token and then the cookies; if either read fails the
      catch block returns the two base headers. */
  method GetAuthHeaders(store: AsyncStore) returns (h: map<string, string>)
    ensures store.faulty ==> h == JsonHeaders
    ensures !store.faulty ==> h == AuthHeaders(Stored(store.entries, TokenKey), Stored(store.entries, CookiesKey))
  {
    var token := store.GetItem(TokenKey);
    if token.Failure? {
      return JsonHeaders;
    }
    var cookies := store.GetItem(CookiesKey);
    if cookies.Failure? {
      return JsonHeaders;
    }
    h := JsonHeaders;
    if Truthy(token.value) {
      h := h["Authorization" := "Bearer " + token.value.value];
    }
    if Truthy(cookies.value) {
      h := h["Cookie" := cookies.value.value];
    }
  }

  // ---------------------------------------------------------------- payloads

  /** The body of `Merchant(storeData)`. */
  datatype StoreData = StoreData(branch_type: string, merchant_type: string, name: string, phone: string)

  /** A `CreateMenu` option group and its choices (the source's `type` field is `optionType`). */
  datatype CreateMenuOptionSub = CreateMenuOptionSub(display: int, is_active: bool, is_default: bool, name: string, price: int)
  datatype CreateMenuOption = CreateMenuOption(
    display: int, is_active: bool, is_required: bool, max: int, min: int, name: string,
    subs: seq<CreateMenuOptionSub>, optionType: string)

  /** The `CreateMenu` argument; `options` may be missing. */
  datatype CreateMenuPayload = CreateMenuPayload(
    category_id: int, detail: string, image: string, name: string,
    options: Option<seq<CreateMenuOption>>, price: int)

  /** What `CreateMenu` sends: the payload with `options` always present. */
  datatype CreateMenuBody = CreateMenuBody(
    category_id: int, detail: string, image: string, name: string,
    options: seq<CreateMenuOption>, price: int)

  /** `{ ...payload, options: payload.options ?? [] }`. */
  function CreateMenuBodyOf(p: CreateMenuPayload): (b: CreateMenuBody)
    ensures p.options.None? ==> b.options == []
    ensures p.options.Some? ==> b.options == p.options.value
    ensures b.category_id == p.category_id && b.detail == p.detail && b.image == p.image
            && b.name == p.name && b.price == p.price
  {
    CreateMenuBody(p.category_id, p.detail, p.image, p.name, p.options.GetOr([]), p.price)
  }

  /** `UpdateMenu`'s argument: option groups and choices carry a boolean `display`, and
      either list may be missing. */
  datatype UpdateMenuOptionSub = UpdateMenuOptionSub(
    id: Option<string>, name: string, price: int, is_default: bool, display: bool, is_active: bool)
  datatype UpdateMenuOption = UpdateMenuOption(
    id: Option<string>, name: string, optionType: string, is_required: bool, min: int, max: int,
    display: bool, is_active: bool, sub_options: Option<seq<UpdateMenuOptionSub>>)
  datatype UpdateMenuPayload = UpdateMenuPayload(
    id: string, category_id: int, name: string, detail: string, image: string, price: int,
    options: Option<seq<UpdateMenuOption>>)

  /** What `UpdateMenu` sends: the same shape with `display` as the number 0 or 1 and both
      lists always present. */
  datatype SubWire = SubWire(
    id: Option<string>, name: string, price: int, is_default: bool, display: int, is_active: bool)
  datatype GroupWire = GroupWire(
    id: Option<string>, name: string, optionType: string, is_required: bool, min: int, max: int,
    display: int, is_active: bool, sub_options: seq<SubWire>)
  datatype UpdateMenuBody = UpdateMenuBody(
    id: string, category_id: int, name: string, detail: string, image: string, price: int,
    options: seq<GroupWire>)

  /** `display ? 1 : 0`. */
  function DisplayFlag(display: bool): (n: int)
    ensures n == 0 || n == 1
    ensures n == 1 <==> display
  {
    if display then 1 else 0
  }

  function SubToWire(sub: UpdateMenuOptionSub): (w: SubWire)
    ensures w.display == DisplayFlag(sub.display)
  {
    SubWire(sub.id, sub.name, sub.price, sub.is_default, DisplayFlag(sub.display), sub.is_active)
  }

  function GroupToWire(group: UpdateMenuOption): (w: GroupWire)
    ensures w.display == DisplayFlag(group.display)
    ensures var subs := group.sub_options.GetOr([]);
            |w.sub_options| == |subs|
            && forall j :: 0 <= j < |subs| ==> w.sub_options[j] == SubToWire(subs[j])
  {
    var subs := group.sub_options.GetOr([]);
    GroupWire(group.id, group.name, group.optionType, group.is_required, group.min, group.max,
              DisplayFlag(group.display), group.is_active,
              seq(|subs|, j requires 0 <= j < |subs| => SubToWire(subs[j])))
  }

  /** The body `UpdateMenu` builds: every group and every choice keeps its place, with
      `display` turned into 0 or 1. */
  function UpdateMenuBodyOf(p: UpdateMenuPayload): (b: UpdateMenuBody)
    ensures var groups := p.options.GetOr([]);
            |b.options| == |groups|
            && (forall i :: 0 <= i < |groups| ==> b.options[i].display == DisplayFlag(groups[i].display))
            && (forall i :: 0 <= i < |groups| ==> b.options[i] == GroupToWire(groups[i]))
    ensures b.id == p.id && b.category_id == p.category_id && b.name == p.name
            && b.detail == p.detail && b.image == p.image && b.price == p.price
  {
    var groups := p.options.GetOr([]);
    UpdateMenuBody(p.id, p.category_id, p.name, p.detail, p.image, p.price,
                   seq(|groups|, i requires 0 <= i < |groups| => GroupToWire(groups[i])))
  }

  // Reading a sent body back, with 0 as false and any other number as true.

  function SubFromWire(w: SubWire): UpdateMenuOptionSub {
    UpdateMenuOptionSub(w.id, w.name, w.price, w.is_default, w.display != 0, w.is_active)
  }

  function GroupFromWire(w: GroupWire): UpdateMenuOption {
    UpdateMenuOption(w.id, w.name, w.optionType, w.is_required, w.min, w.max, w.display != 0, w.is_active,
                     Some(seq(|w.sub_options|, j requires 0 <= j < |w.sub_options| => SubFromWire(w.sub_options[j]))))
  }

  function UpdateMenuPayloadFromBody(b: UpdateMenuBody): UpdateMenuPayload {
    UpdateMenuPayload(b.id, b.category_id, b.name, b.detail, b.image, b.price,
                      Some(seq(|b.options|, i requires 0 <= i < |b.options| => GroupFromWire(b.options[i]))))
  }

  /** Every list present in the payload, so that nothing is defaulted. */
  predicate ListsPresent(p: UpdateMenuPayload) {
    p.options.Some? && forall i :: 0 <= i < |p.options.value| ==> p.options.value[i].sub_options.Some?
  }

  lemma GroupRoundTrip(group: UpdateMenuOption)
    requires group.sub_options.Some?
    ensures GroupFromWire(GroupToWire(group)) == group
  {
    var w := GroupToWire(group);
    var subs := group.sub_options.value;
    var back := seq(|w.sub_options|, j requires 0 <= j < |w.sub_options| => SubFromWire(w.sub_options[j]));
    assert back == subs;
  }

  /** The conversion loses nothing but the type of `display`: reading the body back gives
      the payload, provided no list had to be defaulted. */
  lemma UpdateMenuRoundTrip(p: UpdateMenuPayload)
    requires ListsPresent(p)
    ensures UpdateMenuPayloadFromBody(UpdateMenuBodyOf(p)) == p
  {
    var b := UpdateMenuBodyOf(p);
    var groups := p.options.value;
    forall i | 0 <= i < |groups| ensures GroupFromWire(b.options[i]) == groups[i] {
      GroupRoundTrip(groups[i]);
    }
    var back := seq(|b.options|, i requires 0 <= i < |b.options| => GroupFromWire(b.options[i]));
    assert back == groups;
  }

  /** `PostTimeSlot`'s body; the times are `HH:mm:ss` strings. */
  datatype TimeSlotPayload = TimeSlotPayload(interval_minutes: int, capacity: int, start_at: string, end_at: string)

  /** `PostCreateMerchant`'s body. */
  datatype CreateMerchantPayload = CreateMerchantPayload(branch_type: string, merchant_type: seq<int>, name: string, phone: string)

  /** Every body the store service sends. */
  datatype StoreBody =
    | MerchantBody(store: StoreData)
    | CreateMenuSent(createMenu: CreateMenuBody)
    | UpdateMenuSent(updateMenu: UpdateMenuBody)
    | TimeSlotBody(timeSlot: TimeSlotPayload)
    | CreateMerchantBody(merchant: CreateMerchantPayload)

  type StoreFetch = Request<StoreBody> -> FetchOutcome

  // ---------------------------------------------------------------- results

  const MerchantPrefix := "สร้างร้านค้าไม่สำเร็จ: "
  const MenuAllPrefix := "ไม่สามารถดึงเมนูได้: "
  const MenuCategoriesPrefix := "ไม่สามารถดึงหมวดหมู่ได้: "
  const CreateMenuPrefix := "สร้างเมนูไม่สำเร็จ: "
  const UpdateMenuPrefix := "แก้ไขเมนูไม่สำเร็จ: "
  const GetTimeSlotPrefix := "ไม่สามารถดึง TimeSlot ได้: "
  const PostTimeSlotPrefix := "บันทึก TimeSlot ไม่สำเร็จ: "
  const CreateMerchantPrefix := "สร้างร้านค้าไม่สำเร็จ: "

  /** What a write call returns on success: `null`, the parsed body, or the body text. */
  datatype WriteResult<J> = Null | Json(data: J) | Text(text: string)

  /** The response's content type declares JSON (`(content-type || "").includes(...)`). */
  predicate DeclaresJson(resp: Response) {
    Includes(resp.contentType.GetOr(""), "application/json")
  }

  /** The result rule of the write calls. A non-OK status throws the prefix and the body
      text; 204 gives `null`; a JSON content type gives the parsed body, where a parse
      error gives `null` when `lenient` (CreateMenu, UpdateMenu) and is thrown otherwise
      (PostTimeSlot, PostCreateMerchant); any other response gives its text, or `null`
      for an empty text. */
  function WriteOutcome<J>(o: FetchOutcome, errorPrefix: string, parse: JsonParser<J>, lenient: bool)
    : (r: Result<WriteResult<J>, Error>)
    ensures o.NetworkFailure? ==> r == Failure(Error(o.message))
    ensures o.Received? && !IsOk(o.response) ==> r == Failure(Error(errorPrefix + o.response.body))
    ensures o.Received? && IsOk(o.response) && o.response.status == 204 ==> r == Success(Null)
    ensures r.Success? && r.value.Json? ==>
              o.response.status != 204 && DeclaresJson(o.response) && parse(o.response.body) == Success(r.value.data)
    ensures r.Success? && r.value.Text? ==>
              o.response.status != 204 && !DeclaresJson(o.response) && r.value.text == o.response.body != ""
    ensures (o.Received? && IsOk(o.response) && o.response.status != 204 && DeclaresJson(o.response)
             && parse(o.response.body).Success?) ==> r == Success(Json(parse(o.response.body).value))
    ensures (o.Received? && IsOk(o.response) && o.response.status != 204 && DeclaresJson(o.response)
             && parse(o.response.body).Failure?) ==>
              r == if lenient then Success(Null) else Failure(Error(parse(o.response.body).error))
    ensures (o.Received? && IsOk(o.response) && o.response.status != 204 && !DeclaresJson(o.response)
             && o.response.body != "") ==> r == Success(Text(o.response.body))
    ensures (o.Received? && IsOk(o.response) && o.response.status != 204 && !DeclaresJson(o.response)
             && o.response.body == "") ==> r == Success(Null)
    ensures r.Failure? <==> o.NetworkFailure? || !IsOk(o.response)
                            || (!lenient && o.response.status != 204 && DeclaresJson(o.response)
                                && parse(o.response.body).Failure?)
  {
    match o
    case NetworkFailure(m) => Failure(Error(m))
    case Received(resp) =>
      if !IsOk(resp) then Failure(Error(errorPrefix + resp.body))
      else if resp.status == 204 then Success(Null)
      else if DeclaresJson(resp) then
        match parse(resp.body)
        case Success(j) => Success(Json(j))
        case Failure(m) => if lenient then Success(Null) else Failure(Error(m))
      else if resp.body != "" then Success(Text(resp.body))
      else Success(Null)
  }

  /** The lenient rule never throws on an OK response. */
  lemma LenientNeverThrowsWhenOk<J>(resp: Response, errorPrefix: string, parse: JsonParser<J>)
    requires IsOk(resp)
    ensures WriteOutcome(Received(resp), errorPrefix, parse, true).Success?
  {
  }

  /** The two rules differ only where the body is declared JSON and fails to parse. */
  lemma LenientAndStrictAgree<J>(o: FetchOutcome, errorPrefix: string, parse: JsonParser<J>)
    requires o.Received? && IsOk(o.response) && o.response.status != 204 && DeclaresJson(o.response)
             ==> parse(o.response.body).Success?
    ensures WriteOutcome(o, errorPrefix, parse, true) == WriteOutcome(o, errorPrefix, parse, false)
  {
  }

  // ---------------------------------------------------------------- the calls

  /** `Merchant(storeData)`. */
  method Merchant<J>(store: AsyncStore, storeData: StoreData, fetch: StoreFetch, parse: JsonParser<J>)
    returns (r: Result<J, Error>)
    ensures var h := HeadersFrom(store.entries, store.faulty);
            r == ExpectJson(fetch(Request(POST, BaseUrl + "/Store/Create", h, Some(MerchantBody(storeData)))), MerchantPrefix, parse)
  {
    var headers := GetAuthHeaders(store);
    var o := fetch(Request(POST, BaseUrl + "/Store/Create", headers, Some(MerchantBody(storeData))));
    r := ExpectJson(o, MerchantPrefix, parse);
  }

  /** `MenuAll(merchantId)`. */
  method MenuAll<J>(store: AsyncStore, merchantId: string, fetch: StoreFetch, parse: JsonParser<J>)
    returns (r: Result<J, Error>)
    ensures var h := HeadersFrom(store.entries, store.faulty);
            r == ExpectJson(fetch(Request(GET, BaseUrl + "/Menu/All/" + merchantId, h, None)), MenuAllPrefix, parse)
  {
    var headers := GetAuthHeaders(store);
    var o := fetch(Request(GET, BaseUrl + "/Menu/All/" + merchantId, headers, None));
    r := ExpectJson(o, MenuAllPrefix, parse);
  }

  /** `MenuCategories()`. */
  method MenuCategories<J>(store: AsyncStore, fetch: StoreFetch, parse: JsonParser<J>)
    returns (r: Result<J, Error>)
    ensures var h := HeadersFrom(store.entries, store.faulty);
            r == ExpectJson(fetch(Request(GET, BaseUrl + "/Menu/Category", h, None)), MenuCategoriesPrefix, parse)
  {
    var headers := GetAuthHeaders(store);
    var o := fetch(Request(GET, BaseUrl + "/Menu/Category", headers, None));
    r := ExpectJson(o, MenuCategoriesPrefix, parse);
  }

  /** `CreateMenu(payload)`: sends the payload with `options` defaulted, lenient result rule. */
  method CreateMenu<J>(store: AsyncStore, payload: CreateMenuPayload, fetch: StoreFetch, parse: JsonParser<J>)
    returns (r: Result<WriteResult<J>, Error>)
    ensures var h := HeadersFrom(store.entries, store.faulty);
            r == WriteOutcome(fetch(Request(POST, BaseUrl + "/Menu", h, Some(CreateMenuSent(CreateMenuBodyOf(payload))))),
                              CreateMenuPrefix, parse, true)
  {
    var headers := GetAuthHeaders(store);
    var bodyToSend := CreateMenuBodyOf(payload);
    var o := fetch(Request(POST, BaseUrl + "/Menu", headers, Some(CreateMenuSent(bodyToSend))));
    r := WriteOutcome(o, CreateMenuPrefix, parse, true);
  }

  /** `UpdateMenu(payload)`: sends the converted body with PUT, lenient result rule. */
  method UpdateMenu<J>(store: AsyncStore, payload: UpdateMenuPayload, fetch: StoreFetch, parse: JsonParser<J>)
    returns (r: Result<WriteResult<J>, Error>)
    ensures var h := HeadersFrom(store.entries, store.faulty);
            r == WriteOutcome(fetch(Request(PUT, BaseUrl + "/Menu", h, Some(UpdateMenuSent(UpdateMenuBodyOf(payload))))),
                              UpdateMenuPrefix, parse, true)
  {
    var headers := GetAuthHeaders(store);
    var bodyToSend := UpdateMenuBodyOf(payload);
    var o := fetch(Request(PUT, BaseUrl + "/Menu", headers, Some(UpdateMenuSent(bodyToSend))));
    r := WriteOutcome(o, UpdateMenuPrefix, parse, true);
  }

  /** `GetTimeSlot(branchId)`. */
  method GetTimeSlot<J>(store: AsyncStore, branchId: string, fetch: StoreFetch, parse: JsonParser<J>)
    returns (r: Result<J, Error>)
    ensures var h := HeadersFrom(store.entries, store.faulty);
            r == ExpectJson(fetch(Request(GET, BaseUrl + "/Branch/Config/TimeSlot/All/" + branchId, h, None)),
                            GetTimeSlotPrefix, parse)
  {
    var headers := GetAuthHeaders(store);
    var o := fetch(Request(GET, BaseUrl + "/Branch/Config/TimeSlot/All/" + branchId, headers, None));
    r := ExpectJson(o, GetTimeSlotPrefix, parse);
  }

  /** `PostTimeSlot(payload)`: strict result rule. */
  method PostTimeSlot<J>(store: AsyncStore, payload: TimeSlotPayload, fetch: StoreFetch, parse: JsonParser<J>)
    returns (r: Result<WriteResult<J>, Error>)
    ensures var h := HeadersFrom(store.entries, store.faulty);
            r == WriteOutcome(fetch(Request(POST, BaseUrl + "/Branch/Config/TimeSlot", h, Some(TimeSlotBody(payload)))),
                              PostTimeSlotPrefix, parse, false)
  {
    var headers := GetAuthHeaders(store);
    var o := fetch(Request(POST, BaseUrl + "/Branch/Config/TimeSlot", headers, Some(TimeSlotBody(payload))));
    r := WriteOutcome(o, PostTimeSlotPrefix, parse, false);
  }

  /** `PostCreateMerchant(payload)`: strict result rule. */
  method PostCreateMerchant<J>(store: AsyncStore, payload: CreateMerchantPayload, fetch: StoreFetch, parse: JsonParser<J>)
    returns (r: Result<WriteResult<J>, Error>)
    ensures var h := HeadersFrom(store.entries, store.faulty);
            r == WriteOutcome(fetch(Request(POST, BaseUrl + "/Merchant", h, Some(CreateMerchantBody(payload)))),
                              CreateMerchantPrefix, parse, false)
  {
    var headers := GetAuthHeaders(store);
    var o := fetch(Request(POST, BaseUrl + "/Merchant", headers, Some(CreateMerchantBody(payload))));
    r := WriteOutcome(o, CreateMerchantPrefix, parse, false);
  }
}
