/** The create-store screen: a form for a new store, validated in order and sent as a
    merchant-creation payload. */
module CreateStore {
  import opened Wrappers
  import opened JsString
  import opened Http
  import opened Storage
  import opened StoreService
  import Ui

  datatype StoreInfo = StoreInfo(storeName: string, storeType: string, storeAddress: string,
                                 storePhone: string, storeFormat: string)

  /** The form as the screen opens: empty, with the `Mobile` format chosen. */
  const InitialStoreInfo := StoreInfo("", "", "", "", "Mobile")

  /** The form fields the inputs write. */
  datatype StoreField = StoreName | StoreType | StoreAddress | StorePhone | StoreFormat

  function FieldOf(info: StoreInfo, field: StoreField): string {
    match field
    case StoreName => info.storeName
    case StoreType => info.storeType
    case StoreAddress => info.storeAddress
    case StorePhone => info.storePhone
    case StoreFormat => info.storeFormat
  }

  /** `{ ...prev, [field]: value }`: the field takes the value and no other field changes. */
  function WithField(info: StoreInfo, field: StoreField, value: string): (r: StoreInfo)
    ensures FieldOf(r, field) == value
    ensures forall f :: f != field ==> FieldOf(r, f) == FieldOf(info, f)
  {
    match field
    case StoreName => info.(storeName := value)
    case StoreType => info.(storeType := value)
    case StoreAddress => info.(storeAddress := value)
    case StorePhone => info.(storePhone := value)
    case StoreFormat => info.(storeFormat := value)
  }

  const MissingName := "กรุณากรอกชื่อร้านค้า"
  const MissingType := "กรุณากรอกประเภทร้านค้า"
  const MissingPhone := "กรุณากรอกเบอร์โทรติดต่อ"
  const DefaultCreateError := "เกิดข้อผิดพลาดในการสร้างร้านค้า"

  /** The first failing check, in the order name, type, phone; `None` when all pass. */
  function Validate(info: StoreInfo): (r: Option<string>)
    ensures r.Some? ==> r.value != ""
    ensures r.None? <==> Trim(info.storeName) != "" && Trim(info.storeType) != "" && Trim(info.storePhone) != ""
    ensures r == Some(MissingName) <==> Trim(info.storeName) == ""
    ensures r == Some(MissingType) <==> Trim(info.storeName) != "" && Trim(info.storeType) == ""
    ensures r == Some(MissingPhone) <==>
              Trim(info.storeName) != "" && Trim(info.storeType) != "" && Trim(info.storePhone) == ""
  {
    if Trim(info.storeName) == "" then Some(MissingName)
    else if Trim(info.storeType) == "" then Some(MissingType)
    else if Trim(info.storePhone) == "" then Some(MissingPhone)
    else None
  }

  /** The address is never checked. */
  lemma AddressNotValidated(info: StoreInfo, address: string)
    ensures Validate(info.(storeAddress := address)) == Validate(info)
  {
  }

  /** The payload: the format in lower case, merchant type `[1]`, the trimmed name and
      phone. */
  function PayloadOf(info: StoreInfo): (p: CreateMerchantPayload)
    ensures p.branch_type == ToLower(info.storeFormat) && p.merchant_type == [1]
    ensures p.name == Trim(info.storeName) && p.phone == Trim(info.storePhone)
  {
    CreateMerchantPayload(ToLower(info.storeFormat), [1], Trim(info.storeName), Trim(info.storePhone))
  }

  /** The store type and the address are not sent. */
  lemma PayloadIgnoresTypeAndAddress(info: StoreInfo, storeType: string, storeAddress: string)
    ensures PayloadOf(info.(storeType := storeType, storeAddress := storeAddress)) == PayloadOf(info)
  {
  }

  /** A form that passes validation sends a non-empty name and phone that need no more
      trimming. */
  lemma ValidPayload(info: StoreInfo)
    requires Validate(info).None?
    ensures var p := PayloadOf(info);
            p.name != "" && p.phone != "" && Trim(p.name) == p.name && Trim(p.phone) == p.phone
  {
    TrimIdempotent(info.storeName);
    TrimIdempotent(info.storePhone);
  }

  /** The two formats the screen offers become `mobile` and `fixed`. */
  lemma FormatsLowered()
    ensures ToLower("Mobile") == "mobile" && ToLower("Fixed") == "fixed"
  {
  }

  /** `err?.message || default`. */
  function ErrorText(message: string): (r: string)
    ensures r != ""
    ensures message != "" ==> r == message
  {
    if message != "" then message else DefaultCreateError
  }

  /** What `PostCreateMerchant` makes of the form's payload, for a store with these entries. */
  function SubmitOutcome<J>(entries: map<string, string>, faulty: bool, payload: CreateMerchantPayload,
                            fetch: StoreFetch, parse: JsonParser<J>): Result<WriteResult<J>, Error> {
    WriteOutcome(fetch(Request(POST, BaseUrl + "/Merchant", HeadersFrom(entries, faulty),
                               Some(CreateMerchantBody(payload)))),
                 CreateMerchantPrefix, parse, false)
  }

  class CreateStoreScreen {
    var storeInfo: StoreInfo
    var loading: bool
    var error: Option<string>
    /** The route `router.replace` was last called with. */
    var route: Option<string>
    /** Every payload handed to `PostCreateMerchant`, in order. */
    var submitted: seq<CreateMerchantPayload>

    constructor ()
      ensures storeInfo == InitialStoreInfo && !loading && error == None && route == None && submitted == []
    {
      storeInfo := InitialStoreInfo;
      loading := false;
      error := None;
      route := None;
      submitted := [];
    }

    /** `handleStoreInfoChange(field, value)`. */
    method HandleStoreInfoChange(field: StoreField, value: string)
      modifies this`storeInfo
      ensures storeInfo == WithField(old(storeInfo), field, value)
    {
      storeInfo := WithField(storeInfo, field, value);
    }

    /** The `try` block of `handleSubmit()` once the checks pass: the payload goes to
        `PostCreateMerchant`; success moves to the profile tab, a thrown error sets the
        error text and leaves the route alone. */
    method SubmitPayload<J>(store: AsyncStore, payload: CreateMerchantPayload, fetch: StoreFetch,
                            parse: JsonParser<J>)
      modifies this`error, this`route, this`submitted
      ensures submitted == old(submitted) + [payload]
      ensures var res := SubmitOutcome(store.entries, store.faulty, payload, fetch, parse);
              (res.Success? ==> route == Some(Ui.ProfileRoute) && error == old(error))
              && (res.Failure? ==> route == old(route) && error == Some(ErrorText(res.error.message)))
    {
      submitted := submitted + [payload];
      var result := PostCreateMerchant(store, payload, fetch, parse);
      if result.Success? {
        route := Some(Ui.ProfileRoute);
      } else {
        error := Some(ErrorText(result.error.message));
      }
    }

    /** `handleSubmit()`: a failed check sets its message and calls nothing; otherwise the
        payload goes to `PostCreateMerchant`, and success moves to the profile tab while a
        thrown error sets the error text. `loading` ends false on every path. */
    method HandleSubmit<J>(store: AsyncStore, fetch: StoreFetch, parse: JsonParser<J>)
      modifies this`loading, this`error, this`route, this`submitted
      ensures !loading
      ensures Validate(storeInfo).Some? ==>
                error == Validate(storeInfo) && submitted == old(submitted) && route == old(route)
      ensures Validate(storeInfo).None? ==>
                submitted == old(submitted) + [PayloadOf(storeInfo)]
                && var res := SubmitOutcome(store.entries, store.faulty, PayloadOf(storeInfo), fetch, parse);
                   (res.Success? ==> route == Some(Ui.ProfileRoute) && error == None)
                   && (res.Failure? ==> route == old(route) && error == Some(ErrorText(res.error.message)))
    {
      loading := true;
      error := None;
      var invalid := Validate(storeInfo);
      if invalid.Some? {
        error := Some(ErrorText(invalid.value));
      } else {
        SubmitPayload(store, PayloadOf(storeInfo), fetch, parse);
      }
      loading := false;
    }
  }
}
