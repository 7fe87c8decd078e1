# Seller app core, modelled in Dafny

This project models the logic behind a React Native seller app. The app's screens are
bound to a REST back end, and under the UI sit small pieces of logic. The model covers
these parts:

- **Session tokens** (`contexts/AuthContext.tsx`). A token is kept in state and in async
  storage. It is classified as a JWT when `split('.')` gives exactly three parts, or else
  as a `session_<timestamp>_<phone>` string. Claim accessors such as `getMerchantId`
  return `null` instead of throwing.
- **OTP login calls** (`service/otp.tsx`). These build the request bodies and apply the
  error-prefix rule. The JWT is taken from the `set-cookie` header through an ordered
  list of unanchored `name=([^;]+)` patterns, where the first pattern that matches wins.
- **Order calls** (`service/order.tsx`):
  - pagination URLs and their error rule;
  - the cook-queue policy that 500/404 and "swallowed" errors give an empty list;
  - the empty-body and non-JSON fallbacks of complete/close.
- **Store calls** (`service/store.tsx`):
  - the authorisation headers read from storage;
  - the `options` default of `CreateMenu`;
  - the boolean-to-0/1 `display` conversion of `UpdateMenu`;
  - the shared 204 / JSON / text result rule, lenient in `CreateMenu` and `UpdateMenu`,
    strict in `PostTimeSlot` and `PostCreateMerchant`.
- **Screen state machines**, each a class whose fields are the component's `useState`
  values and whose methods are its handlers:
  - the new-orders list and its edit draft;
  - the menu editor, with option objects as references so that aliasing is visible;
  - the payment-method list;
  - the slide-to-confirm button;
  - the create-store form;
  - the login step machine.
- **Pure decisions**: the AuthGuard render/redirect choice and the order totals.

Layout: one module per source file (`AuthContext`, `OtpService`, `OrderService`,
`StoreService`, `NewOrder`, `SettingMenu`, `Payment`, `SlideButton`, `CreateStore`,
`LoginScreen`, `AuthGuard`, `SendOrder`). Shared modules hold the rest:

- `Wrappers`: `Option` and `Result`.
- `JsString`: JavaScript `split`/`join`, `indexOf`/`includes`, `trim`, ASCII
  `toLowerCase`, and number printing and parsing.
- `JsArray`: `findIndex`, `filter`, `map`, `splice` and `reduce` sums.
- `Http`: requests, responses, `fetch` outcomes and JSON results.
- `Storage`: an async key-value store that may fail.
- `Ui`: alerts and routes.

Inputs the app gets from outside become parameters:

- `fetch` is a function from a request to a `FetchOutcome`: either a received
  `Response(status, contentType, setCookie, body)` or a network failure with its message.
- JSON parsing is a parameter `string -> Result<J, string>`, with the JSON value type `J`
  left abstract.
- `jwtDecode` is a parameter `string -> Option<Claims>`, and `Number(...)` a parameter
  `string -> JsNumber`.
- Async storage is an `AsyncStore` object whose `faulty` flag makes every call fail.
- `Date.now()` ids and the screen width are parameters.

Where the code and its description disagree, the model follows the code:

- The slide clamp uses `SCREEN_WIDTH - height - 32` in the code (`SlideButton.tsx:19`),
  not the thumb diameter.
- A successful OTP verification on the login screen only alerts and navigates to
  `/order` (`app/index.tsx:45-49`). It never calls `login`, so no token is stored.
- The comment above the send button in `SendOrder.tsx` says only the first bill shows
  it. The code renders it for every bill, and `SendOrder.RenderBills` states that.

## Model

| member | source | states |
|---|---|---|
| JsString.Split | contexts/AuthContext.tsx:114 | `split` gives exactly one more part than there are separators, and no part contains the separator |
| JsString.JoinSplit | contexts/AuthContext.tsx:153-156 | joining the parts of a split with the same separator gives back the string |
| JsString.SplitAround | contexts/AuthContext.tsx:153 | splitting `a + sep + b` splits `a` and `b` separately and concatenates the parts |
| JsString.SplitWithoutSeparator | contexts/AuthContext.tsx:114 | a string without the separator splits into itself alone |
| JsString.IndexOfFrom | service/order.tsx:88 | the result is -1 exactly when no occurrence starts at or after `from`; otherwise it is the least such occurrence |
| JsString.IncludesIff | service/order.tsx:88 | `includes` holds iff the substring occurs at some index |
| JsString.NotIncludesWithoutFirst | service/order.tsx:88 | a string lacking the first character of a non-empty needle does not include it |
| JsString.Trim | app/page/createstore/index.tsx:50-58 | `trim` removes a whitespace prefix and suffix and nothing else; the result is empty iff the string is all whitespace, and otherwise starts and ends with non-whitespace |
| JsString.TrimIdempotent | app/page/profile/Payment.tsx:34-36 | trimming twice equals trimming once |
| JsString.ToLower | app/page/createstore/index.tsx:62 | lower-casing keeps the length and lowers each character independently |
| JsString.NatToString | service/order.tsx:21 | a number prints as decimal digits without a leading zero |
| JsString.ParseNatToString | service/order.tsx:10 | reading back a printed natural gives the number |
| JsString.IntToStringRoundTrip | service/order.tsx:10 | reading back a printed integer, sign included, gives the number |
| JsString.IntToStringInjective | service/order.tsx:21 | distinct statuses print differently, so `HTTP error! status: N` names the status |
| JsString.ThreeDigits | service/order.tsx:21 | a three-digit status prints as its hundreds, tens and units digits |
| JsArray.FindIndex | app/page/order/NewOrder.tsx:74 | `findIndex` is the least index satisfying the predicate, or -1 exactly when none does |
| JsArray.Filter | app/page/profile/Payment.tsx:43 | `filter` keeps exactly the elements that satisfy the predicate |
| JsArray.FilterConcat | app/page/profile/Payment.tsx:43 | filtering a concatenation filters each part, so the kept elements stay in order |
| JsArray.FilterAll | app/page/profile/Payment.tsx:43 | filtering with a predicate every element meets changes nothing |
| JsArray.Map | app/page/order/NewOrder.tsx:89-91 | `map` keeps the length and applies the function at every index |
| JsArray.RemoveIndex | app/page/order/NewOrder.tsx:83 | `filter((_, i) => i !== index)` drops exactly element `index`, or nothing when it is out of range |
| JsArray.SpliceStart | app/page/profile/SettingMenu.tsx:122 | `splice` resolves its start to a position within the array, an in-range start to itself |
| JsArray.SpliceOne | app/page/profile/SettingMenu.tsx:122 | `splice(start, 1)` removes the element at `start` when it is in range, counts a negative start from the end, removes the first element when it is below `-length`, and removes nothing at or past the end |
| JsArray.FoldSumIsSum | app/page/order/NewOrder.tsx:163 | the left-to-right `reduce` with accumulator `acc` equals `acc` plus the sum |
| JsArray.SumConcat | app/page/order/SendOrder.tsx:80 | the sum over a concatenation is the sum of the sums |
| JsArray.SumRemoveIndex | app/page/order/NewOrder.tsx:83 | removing one element lowers the sum by exactly its term |
| Http.ExpectJson | service/otp.tsx:16-23 | the call succeeds iff the response is OK and its body parses, giving the parsed value; a network error propagates, a non-OK status throws the prefix followed by the body text, and an OK body that does not parse throws the parser's error |
| Storage.Stored | service/store.tsx:7-8 | a stored read gives the entry for the key, or `null` exactly when the key is absent |
| Storage.AsyncStore.constructor | contexts/AuthContext.tsx:48 | a store starts with the given entries and failure mode |
| Storage.AsyncStore.GetItem | contexts/AuthContext.tsx:48 | `getItem` fails iff the store is faulty, and otherwise gives the entry or `null` exactly when the key is absent |
| Storage.AsyncStore.SetItem | contexts/AuthContext.tsx:75 | `setItem` fails iff the store is faulty; only success writes the entry |
| Storage.AsyncStore.RemoveItem | contexts/AuthContext.tsx:98 | `removeItem` fails iff the store is faulty; only success removes the key |
| AuthContext.OrNull | contexts/AuthContext.tsx:182 | `value \|\| null` keeps a non-empty string and gives `null` for an absent or empty one |
| AuthContext.JwtShapedIffTwoDots | contexts/AuthContext.tsx:114 | a token is JWT-shaped iff it holds exactly two dots |
| AuthContext.MerchantId | contexts/AuthContext.tsx:105-142 | without a decodable JWT the id is `null`; otherwise it is `merchantId` if truthy, else `merchant_id` if truthy, else `null` |
| AuthContext.ClaimOf | contexts/AuthContext.tsx:173-219 | a claim accessor gives `null` without a decodable JWT and otherwise the claim, or `null` when it is falsy |
| AuthContext.UserId | contexts/AuthContext.tsx:173-187 | `getUserId` gives `null` without a decodable JWT and otherwise the `id` claim, or `null` when it is falsy |
| AuthContext.BranchId | contexts/AuthContext.tsx:189-203 | the same rule for the `branch_id` claim |
| AuthContext.Role | contexts/AuthContext.tsx:205-219 | the same rule for the `role` claim |
| AuthContext.UserInfoOf | contexts/AuthContext.tsx:144-171 | a JWT-shaped token gives its decoded claims or `null`; session info arises only from a non-JWT `session_` token with at least three `_` parts, whose phone is the parts from index 2 re-joined, and every such token gives it; decoded claims come only from a truthy JWT-shaped token; no token, an empty token, and any other non-JWT token give `null` |
| AuthContext.IsAuthenticated | contexts/AuthContext.tsx:223 | `isAuthenticated` holds iff a token is present and is not the empty string |
| AuthContext.SessionTokenAuthenticatesWithoutIdentity | contexts/AuthContext.tsx:105-223 | a session token authenticates although it has no merchant, user, branch or role; its user info is the phone |
| AuthContext.NoTokenNoClaims | contexts/AuthContext.tsx:105-219 | with no truthy token every accessor gives `null` |
| AuthContext.NonJwtHasNoIdentity | contexts/AuthContext.tsx:114-125 | a non-JWT token, session tokens included, has no merchant, user, branch or role |
| AuthContext.DottedSessionTokenIsJwt | contexts/AuthContext.tsx:148-166 | a `session_` token with exactly two dots takes the JWT path |
| AuthContext.SessionPhoneIsSuffix | contexts/AuthContext.tsx:150-159 | for a session token the phone is everything after the second `_`, and the token is rebuilt from its first two parts and that phone |
| AuthContext.UndottedIsNotJwt | contexts/AuthContext.tsx:148 | a token without a dot is not JWT-shaped |
| AuthContext.SessionParts | contexts/AuthContext.tsx:152-153 | a `session_` token starts with the prefix, and its first `_` part is `session` |
| AuthContext.SessionTokenRoundTrip | contexts/AuthContext.tsx:150-159 | a session token built from an underscore-free timestamp and any phone gives back exactly that phone, underscores included |
| AuthContext.ShortSessionTokenHasNoInfo | contexts/AuthContext.tsx:145-161 | a token that is not JWT-shaped and is not a `session_` token with at least three `_` parts gives `null` (`abc`, `session_a.b`) |
| AuthContext.SessionTokenWithoutPhone | contexts/AuthContext.tsx:148-161 | a dot-free `session_<x>` token, `x` without `_`, has fewer than three `_` parts and gives `null` |
| AuthContext.AuthProvider.constructor | contexts/AuthContext.tsx:38-39 | the provider starts with no token and `loading` true |
| AuthContext.AuthProvider.CheckStoredToken | contexts/AuthContext.tsx:46-70 | `loading` ends false; the token is set only when a truthy value was read, and a storage error leaves it unchanged; from an unauthenticated state the provider ends authenticated iff storage held a non-empty token |
| AuthContext.AuthProvider.Login | contexts/AuthContext.tsx:72-94 | storage is written first and the token becomes the new one only when the write succeeds; a storage error is rethrown with the token unchanged; after a successful write the provider is authenticated iff the new token is non-empty |
| AuthContext.AuthProvider.Logout | contexts/AuthContext.tsx:96-103 | the token becomes `null` only after a successful removal, leaving the provider unauthenticated; a removal error is swallowed with the token unchanged |
| OtpService.RunLength | service/otp.tsx:57-67 | the capture is the maximal run of non-`;` characters |
| OtpService.FindMatch | service/otp.tsx:65 | the search finds the leftmost position where `name=` is followed by a non-`;` character, or none exactly when there is none |
| OtpService.MatchCookie | service/otp.tsx:65-67 | `match` fails exactly when no position matches; a match captures the maximal non-empty non-`;` run after the leftmost `name=` that has one |
| OtpService.CookieToken | service/otp.tsx:56-72 | no token is extracted iff no pattern matches; otherwise it is the capture of the first matching pattern in the order jwt, token, auth, session, access_token |
| OtpService.WinnerAt | service/otp.tsx:64-71 | the first matching pattern's capture is the extracted token |
| OtpService.ExtractJwtToken | service/otp.tsx:64-72 | the loop with `break` sets `jwtToken` to the first matching pattern's capture |
| OtpService.AccessTokenContainsToken | service/otp.tsx:58-61 | every `access_token=` match contains a `token=` match seven characters later |
| OtpService.AccessTokenNeverWins | service/otp.tsx:56-72 | the `access_token` pattern can never be the winning one, because `token=` matches first |
| OtpService.OnlyAccessToken | service/otp.tsx:58-66 | the cookie `access_token=V` yields `V` through the `token=` pattern |
| OtpService.SendOtpRequest | service/otp.tsx:6-14 | `sendOtp` posts `{phone}` with the JSON headers |
| OtpService.SendOtp | service/otp.tsx:4-27 | the call succeeds iff the response to the send request is OK and its body parses, and then returns the parsed body; a network error propagates, a non-OK status throws the send prefix followed by the body text, and an unparsable OK body throws the parser's error |
| OtpService.VerifyRequest | service/otp.tsx:31-39 | `verifyPhone` posts `{phone, otp}` with the JSON headers |
| OtpService.VerifyOutcome | service/otp.tsx:41-75 | the call succeeds iff the response is OK and its body parses; a network error propagates, a non-OK status throws the verify prefix followed by the body text, and an unparsable OK body throws the parser's error; on success the parsed body is returned, with `cookies` and `jwtToken` added only when `set-cookie` is truthy, the token being the cookie search's result |
| OtpService.VerifyPhone | service/otp.tsx:29-79 | the call's result is the verify outcome of the response to the verify request |
| OrderService.PaginationRequest | service/order.tsx:7-18 | a pagination request is a body-less GET with only the JSON content type; for a kind without `?` or `&` its URL splits into the listing's path and a query whose `offset` and `limit` read back as the arguments |
| OrderService.NewOrdersRequest | service/order.tsx:7-18 | `getNewOrdersPagination` sends a body-less GET with the JSON content type to `/Order/Pos/All/New/Pagination`, whose query reads back as the requested offset and limit |
| OrderService.CompleteOrdersRequest | service/order.tsx:32-43 | `getCompleteOrdersPagination` sends a body-less GET with the JSON content type to `/Order/Pos/All/Complete/Pagination`, whose query reads back as the requested offset and limit |
| OrderService.PaginationDefaults | service/order.tsx:7 | worked instance, not a general property: called without arguments, both listings ask for offset 0 and limit 10 |
| OrderService.PaginationQueryRoundTrip | service/order.tsx:10 | for a kind without `?` or `&`, the URL splits at `?` into the endpoint path and a query whose two parameters read back as the given offset and limit |
| OrderService.PaginationOutcome | service/order.tsx:20-25 | success iff the response is OK and parses; a non-OK status throws `HTTP error! status: N`, a network error propagates, and an unparsable OK body throws the parser's error |
| OrderService.CookOutcome | service/order.tsx:57-94 | status 500 or 404 gives the empty list; a thrown error survives only when its message mentions neither `500` nor `network`, which otherwise also gives the empty list; orders come only from an OK response that parses |
| OrderService.MessageNotSwallowed | service/order.tsx:86-92 | a message made of a prefix without `5` or `n` and a three-character status other than `500` is not swallowed |
| OrderService.OtherErrorStatusThrows | service/order.tsx:76-92 | any other non-OK three-digit status throws `HTTP error! status: N` |
| OrderService.CompleteOrderRequest | service/order.tsx:98-110 | the complete request posts exactly `{order_id}` |
| OrderService.CloseOrderRequest | service/order.tsx:141-153 | the close request posts exactly `{order_id}` |
| OrderService.AckOutcome | service/order.tsx:112-132 | it fails iff there is a network error or a non-OK status; an OK response gives `{success:true}` exactly when its body trims to empty, else the parsed body, else `{success:true, message: text}` |
| OrderService.CompleteOrder | service/order.tsx:96-137 | `completeOrder` throws only on a network error or a non-OK status, never on an OK response's body; its result is the shared normalisation of the response to the complete request (blank body acknowledged, else parsed JSON, else the text) |
| OrderService.CloseOrder | service/order.tsx:139-180 | `closeOrder` throws only on a network error or a non-OK status, never on an OK response's body; its result is the shared normalisation of the response to the close request (blank body acknowledged, else parsed JSON, else the text) |
| StoreService.AuthHeaders | service/store.tsx:10-25 | the headers always hold Accept and Content-Type; `Authorization: Bearer <token>` is present iff the token is truthy, and `Cookie` iff the cookies value is |
| StoreService.HeadersFrom | service/store.tsx:5-33 | a failing store gives exactly the two base headers; otherwise the headers are built from the stored token and cookies |
| StoreService.GetAuthHeaders | service/store.tsx:5-33 | the method reads token and cookies; on a storage error it returns the two base headers |
| StoreService.CreateMenuBodyOf | service/store.tsx:147-150 | a missing `options` is sent as `[]`, and every other field is unchanged |
| StoreService.DisplayFlag | service/store.tsx:225 | the flag is 0 or 1, and 1 exactly when `display` is true |
| StoreService.SubToWire | service/store.tsx:226-229 | a sub-option's `display` becomes 0/1 |
| StoreService.GroupToWire | service/store.tsx:223-230 | a group's `display` becomes 0/1 and its sub-options, or `[]`, are converted in order |
| StoreService.UpdateMenuBodyOf | service/store.tsx:221-231 | every group and sub-option is converted in order, with the other menu fields unchanged |
| StoreService.GroupRoundTrip | service/store.tsx:223-230 | converting a group with sub-options back from the wire gives the group, so no field is lost |
| StoreService.UpdateMenuRoundTrip | service/store.tsx:221-231 | with all lists present, converting the body back gives the payload |
| StoreService.WriteOutcome | service/store.tsx:164-177 | a network error or non-OK status throws; 204 gives `null`; an OK JSON body that parses gives that JSON value, and one that does not gives `null` under the lenient rule and throws the parser's error under the strict rule; a non-JSON non-empty body gives its text, and an empty one `null`; it throws iff one of those errors occurs |
| StoreService.LenientNeverThrowsWhenOk | service/store.tsx:169-175 | with the lenient rule an OK response never throws |
| StoreService.LenientAndStrictAgree | service/store.tsx:343-349 | the two rules differ only on a JSON body that fails to parse |
| StoreService.Merchant | service/store.tsx:35-59 | the result is the JSON rule with the merchant prefix applied to the POST of the store data |
| StoreService.MenuAll | service/store.tsx:62-82 | the result is the JSON rule applied to the GET of the merchant's menu |
| StoreService.MenuCategories | service/store.tsx:92-112 | the result is the JSON rule applied to the GET of the categories |
| StoreService.CreateMenu | service/store.tsx:144-182 | the result is the lenient rule applied to the POST of the body with defaulted options |
| StoreService.UpdateMenu | service/store.tsx:217-263 | the result is the lenient rule applied to the PUT of the converted body |
| StoreService.GetTimeSlot | service/store.tsx:265-284 | the result is the JSON rule applied to the GET of the branch's time slots |
| StoreService.PostTimeSlot | service/store.tsx:293-319 | the result is the strict rule applied to the POST of the time slot |
| StoreService.PostCreateMerchant | service/store.tsx:328-354 | the result is the strict rule applied to the POST of the merchant payload |
| NewOrder.FirstEditableIndex | app/page/order/NewOrder.tsx:74 | the least index whose `waitEdit` is falsy, or -1 exactly when every order waits |
| NewOrder.ActionsOnFirstEditableOnly | app/page/order/NewOrder.tsx:178 | buttons render at an index iff it is editable and every earlier order waits |
| NewOrder.TotalQuantity | app/page/order/NewOrder.tsx:163 | the total quantity is the sum of the quantities |
| NewOrder.TotalPrice | app/page/order/NewOrder.tsx:166 | the total price is the sum of quantity times menu price |
| NewOrder.DeleteLowersTotals | app/page/order/NewOrder.tsx:81-85 | deleting a draft line lowers both totals by exactly that line's share |
| NewOrder.RenderOrders | app/page/order/NewOrder.tsx:97-197 | one view per order, in order: the bill number is the id's first eight characters, the badge shows iff `waitEdit` is true, the totals are the line sums, the fast-lane line shows the order's price unless the price is empty or `"0"`, and the buttons show iff the order is not waiting and every earlier one is |
| NewOrder.OneActionRow | app/page/order/NewOrder.tsx:178 | at most one rendered order has the buttons, and one has them iff some order is not waiting |
| NewOrder.SendKeepsOtherViews | app/page/order/NewOrder.tsx:87-93 | after a draft is sent, every order not sharing its id renders as before, apart from where the buttons are |
| NewOrder.DisplayId | app/page/order/NewOrder.tsx:121 | the bill number shown is the first eight characters of the id, or the whole id if shorter |
| NewOrder.ReplaceById | app/page/order/NewOrder.tsx:89-91 | every order with the draft's id becomes the draft, and the others and the length are unchanged |
| NewOrder.ReplaceByIdIdempotent | app/page/order/NewOrder.tsx:87-93 | sending the same draft twice is the same as sending it once |
| NewOrder.ReplaceByIdAbsent | app/page/order/NewOrder.tsx:89-91 | a draft whose id is not in the list changes nothing |
| NewOrder.NewOrderScreen.constructor | app/page/order/NewOrder.tsx:45-51 | the screen starts empty, loading, with no draft, no error and page 0 |
| NewOrder.NewOrderScreen.FetchOrders | app/page/order/NewOrder.tsx:54-68 | `loading` ends false; success sets orders, total pages and the current page to the raw offset; failure sets the error text and keeps the list |
| NewOrder.NewOrderScreen.HandleEdit | app/page/order/NewOrder.tsx:76-79 | the order becomes the draft and the modal opens |
| NewOrder.NewOrderScreen.HandleDeleteItem | app/page/order/NewOrder.tsx:81-85 | exactly the i-th draft line is removed, nothing happens without a draft, and the orders are untouched |
| NewOrder.NewOrderScreen.HandleSend | app/page/order/NewOrder.tsx:87-93 | the draft replaces the orders with its id and the modal closes; nothing happens without a draft |
| NewOrder.NewOrderScreen.HandleCancel | app/page/order/NewOrder.tsx:95 | only the modal closes |
| SettingMenu.OrZero | app/page/profile/SettingMenu.tsx:70 | `Number(x) \|\| 0` is always a finite number, the parsed one when finite |
| SettingMenu.MenuOption.constructor | app/page/profile/SettingMenu.tsx:14-17 | a new option object holds the given name and price |
| SettingMenu.ApplyEdit | app/page/profile/SettingMenu.tsx:90-94 | items with the editing id take the form's values, and every other item is unchanged |
| SettingMenu.ApplyEditIdempotent | app/page/profile/SettingMenu.tsx:88-97 | saving the same edit twice is the same as saving it once |
| SettingMenu.RemoveById | app/page/profile/SettingMenu.tsx:101 | every item with the id is removed and every other item is kept |
| SettingMenu.RemoveAbsentId | app/page/profile/SettingMenu.tsx:99-104 | removing an id that is not present changes nothing |
| SettingMenu.RemoveByIdConcat | app/page/profile/SettingMenu.tsx:101 | removal works part by part, so the kept items stay in order |
| SettingMenu.SettingMenuScreen.constructor | app/page/profile/SettingMenu.tsx:28-55 | the screen starts with the two seeded items (`ไข่ดาว` at 15 with two options, `ข้าวผัด` at 50 with one), every option a distinct fresh object with its seeded name and price, closed modals and an empty form |
| SettingMenu.SettingMenuScreen.HandleAddMenu | app/page/profile/SettingMenu.tsx:58-64 | the form is cleared and the add modal opens |
| SettingMenu.SettingMenuScreen.SaveNewMenu | app/page/profile/SettingMenu.tsx:66-76 | exactly one item is prepended, with the default name and placeholder image for empty fields and `Number(price) \|\| 0`; the old items follow in order |
| SettingMenu.SettingMenuScreen.CloseAddModal | app/page/profile/SettingMenu.tsx:236 | the add modal closes |
| SettingMenu.SettingMenuScreen.HandleEditItem | app/page/profile/SettingMenu.tsx:79-86 | the form is loaded from the item, the options array is copied shallowly (the same option objects), and the edit modal opens |
| SettingMenu.SettingMenuScreen.SaveEdit | app/page/profile/SettingMenu.tsx:88-97 | with an editing item, the items with its id take the form's values and the modal closes; otherwise nothing happens |
| SettingMenu.SettingMenuScreen.DeleteMenu | app/page/profile/SettingMenu.tsx:99-104 | with an editing item, every item with its id is removed and the modal closes; otherwise nothing happens |
| SettingMenu.SettingMenuScreen.CloseEditModal | app/page/profile/SettingMenu.tsx:241 | the edit modal closes |
| SettingMenu.SettingMenuScreen.AddOption | app/page/profile/SettingMenu.tsx:106 | a new option `{name:'', price:0}` is appended at the end |
| SettingMenu.SettingMenuScreen.UpdateOption | app/page/profile/SettingMenu.tsx:108-118 | the option object at `index` is changed in place (only the named field); an index out of range throws |
| SettingMenu.SettingMenuScreen.RemoveOption | app/page/profile/SettingMenu.tsx:120-124 | exactly the one option at the index is removed |
| SettingMenu.SettingMenuScreen.HandleEditItemCopying | app/page/profile/SettingMenu.tsx:79-86 | the corrected load copies each option into a fresh object with the same name and price |
| SettingMenu.CancelledEditLeaks | app/page/profile/SettingMenu.tsx:84 | as written, editing an option and cancelling leaves the list unchanged yet renames the stored item's option |
| SettingMenu.CancelledCopyingEditKeepsOptions | app/page/profile/SettingMenu.tsx:84 | with copied options, cancelling leaves the stored option's name as it was |
| Payment.WithoutId | app/page/profile/Payment.tsx:43 | every method with the id is removed and every other is kept |
| Payment.RemoveUndoesSave | app/page/profile/Payment.tsx:38-43 | removing a freshly prepended method with a new id restores the list |
| Payment.RemoveKeepsOrder | app/page/profile/Payment.tsx:43 | removal works part by part, so the kept methods stay in order |
| Payment.PaymentScreen.constructor | app/page/profile/Payment.tsx:13-18 | the screen starts with no methods, a closed modal and an empty form |
| Payment.PaymentScreen.ResetForm | app/page/profile/Payment.tsx:20-24 | the three form fields become empty |
| Payment.PaymentScreen.OpenAddModal | app/page/profile/Payment.tsx:26-29 | the form is cleared and the modal opens |
| Payment.PaymentScreen.SaveMethod | app/page/profile/Payment.tsx:31-40 | one method with the trimmed fields is prepended, its fields need no further trimming, the old methods follow unchanged, and the modal closes |
| Payment.PaymentScreen.RemoveMethod | app/page/profile/Payment.tsx:42-44 | the list becomes the methods without that id |
| Payment.PaymentScreen.CloseModal | app/page/profile/Payment.tsx:120 | the modal closes |
| SlideButton.MoveOffset | components/order/SlideButton.tsx:16-21 | the offset is `dx` clamped to `[0, SCREEN_WIDTH - height - 32]` |
| SlideButton.ClampedDecidesAlike | components/order/SlideButton.tsx:23 | when the threshold is not negative, testing the clamped offset would decide the same as the raw `dx` |
| SlideButton.SlideButton.constructor | components/order/SlideButton.tsx:11 | the thumb size defaults to 60 and starts at offset 0 |
| SlideButton.SlideButton.OnMove | components/order/SlideButton.tsx:16-21 | a move sets the offset to the clamped `dx` |
| SlideButton.SlideButton.OnRelease | components/order/SlideButton.tsx:22-37 | the callback fires exactly once iff the raw `dx > SCREEN_WIDTH - height - 50`, and the offset returns to 0 either way |
| CreateStore.WithField | app/page/createstore/index.tsx:38-40 | the field takes the value and no other field changes |
| CreateStore.Validate | app/page/createstore/index.tsx:50-58 | the name, then the type, then the phone are checked trimmed, and the first missing one's message is the result; all three present iff no message |
| CreateStore.AddressNotValidated | app/page/createstore/index.tsx:50-58 | the address never affects validation |
| CreateStore.PayloadOf | app/page/createstore/index.tsx:61-66 | the payload is the lower-cased format, merchant type `[1]`, and the trimmed name and phone |
| CreateStore.PayloadIgnoresTypeAndAddress | app/page/createstore/index.tsx:61-66 | the store type and the address are not sent |
| CreateStore.ValidPayload | app/page/createstore/index.tsx:50-66 | a valid form sends a non-empty, already-trimmed name and phone |
| CreateStore.FormatsLowered | app/page/createstore/index.tsx:62 | worked instance, not a general property: `Mobile` and `Fixed` are sent as `mobile` and `fixed` |
| CreateStore.ErrorText | app/page/createstore/index.tsx:75 | the error text is the thrown message, or a non-empty default when that is empty |
| CreateStore.CreateStoreScreen.constructor | app/page/createstore/index.tsx:27-35 | the form starts empty with format `Mobile`, not loading and with no error |
| CreateStore.CreateStoreScreen.HandleStoreInfoChange | app/page/createstore/index.tsx:38-40 | only the named field changes |
| CreateStore.CreateStoreScreen.SubmitPayload | app/page/createstore/index.tsx:68-78 | the payload is sent; success replaces the route with the profile tab, and a thrown error sets the error text with the route unchanged |
| CreateStore.CreateStoreScreen.HandleSubmit | app/page/createstore/index.tsx:44-79 | `loading` ends false; a failed check sets its message and sends nothing; otherwise exactly the payload is sent, with the route or the error following the call's outcome |
| LoginScreen.Login.constructor | app/index.tsx:8-11 | the screen starts at the phone step with empty fields, not loading |
| LoginScreen.Login.HandleSendOtp | app/index.tsx:13-34 | an empty phone alerts and pushes `/order` without a request and keeps the step; otherwise one request is sent, success moves to the OTP step, failure alerts the message and keeps the step, and `loading` ends false |
| LoginScreen.Login.HandleVerifyOtp | app/index.tsx:36-57 | only a six-character OTP sends a request; success alerts and pushes `/order` without any login, failure alerts the message, and `loading` ends false |
| AuthGuard.Render | components/AuthGuard.tsx:21-38 | the spinner shows iff loading; the placeholder iff not loading and not authenticated; the children iff not loading and authenticated |
| AuthGuard.Redirect | components/AuthGuard.tsx:14-19 | a redirect to `/` happens iff not loading and not authenticated |
| AuthGuard.RedirectIffPlaceholder | components/AuthGuard.tsx:14-36 | the guard redirects exactly when it renders the placeholder |
| AuthGuard.ChildrenIffToken | components/AuthGuard.tsx:30-38 | children render iff not loading and the token is non-null and non-empty (`!!token`) |
| SendOrder.TotalQty | app/page/order/SendOrder.tsx:77 | the total quantity of a bill is the sum of `qty` |
| SendOrder.TotalPrice | app/page/order/SendOrder.tsx:80 | the total price of a bill is the sum of `qty * price` |
| SendOrder.DataTotals | app/page/order/SendOrder.tsx:23-39 | worked instance, not a general property: the two sample bills total 3 items for 250 and 9 items for 850 |
| SendOrder.TotalPriceConcat | app/page/order/SendOrder.tsx:80 | the total price of joined bills is the sum of their totals |
| SendOrder.RenderBills | app/page/order/SendOrder.tsx:49-94 | one view per bill, in order, with the bill's id, its lines and the two line sums, and on every bill, not only the first, a send button whose alert names that bill |
| SendOrder.RenderBillsConcat | app/page/order/SendOrder.tsx:49-103 | a bill's view depends on that bill alone: rendering a concatenation gives the concatenated views |
| SendOrder.DataButtons | app/page/order/SendOrder.tsx:23-103 | worked instance, not a general property: both sample bills render a send button that announces bill 001 and bill 002 |
| SendOrder.SendOrderAlert | app/page/order/SendOrder.tsx:44-47 | the alert is titled `ส่งออเดอร์` and its message names the order id |

## Left out

- Network and storage are inputs. `fetch` is a function from a request to an outcome, and async storage is an object that fails on every call when faulty. Timing, retries, cookies sent with `credentials: 'include'` and partial storage failures are not modelled.
- JWT decoding is an uninterpreted parameter. Its base64 and JSON internals belong to a foreign library.
- JSON is an abstract value type with a parsing parameter. Serialisation (`JSON.stringify`) is modelled by sending the body datatype itself.
- `Number(...)` is a parameter, and `toString` of a price is a plain function of the number. Prices and quantities are unbounded integers, not IEEE doubles, except that the menu editor's prices may be `NaN`.
- LoginScreen.Login.HandleVerifyOtp, NewOrder.DisplayId: strings are sequences of Unicode scalar values, not UTF-16 code units, so `length` and `slice` differ from JavaScript's on characters outside the Basic Multilingual Plane (`"12345😀"` has length 6 here and 7 in JavaScript). OTP digits and order ids are ASCII, where the two agree.
- `toLowerCase` is modelled for ASCII capitals only. `trim` uses the ECMAScript whitespace set.
- `Date.now()` ids are parameters. The locale formatting of dates and times is not modelled.
- SlideButton: the gesture's `dx`, `SCREEN_WIDTH` and the thumb size are JavaScript doubles in the source and integers here. The code only adds, subtracts and compares them, so the model keeps every comparison, but fractional pixel positions are not represented.
- Animation and layout are not modelled. The release spring is taken to end at offset 0 immediately, even though the thumb moves there over time.
- Logging (`console.log`/`console.error`) is not modelled.
- The `order_item_option` list of an order line is not modelled, because no logic in the modelled code reads it.
- OtpService.VerifyOutcome: the result object with `cookies` and `jwtToken` written onto it is a record of the parsed body and the two fields. A body that already had keys with those names, or that is not an object, is not modelled.
- NewOrder.NewOrderScreen.FetchOrders: the response is taken to be a page with `Orders` and `TotalPage`. A body of another shape is not modelled. The fallback text `เกิดข้อผิดพลาดในการโหลดข้อมูล` is unreachable, because every thrown value here is an `Error`.
- CreateStore.CreateStoreScreen.HandleStoreInfoChange: the field is one of the five form fields. A call with any other key name is not modelled.
- StoreService: the `type` field of a menu option is renamed `optionType`, because `type` is a Dafny keyword.
- Overlapping handler calls and refetch races are not modelled. Each handler runs to completion before the next starts.
- The router is modelled as a log of pushed routes, or as the last replaced route.
- The empty `NewOrder` export in `service/order.tsx` does nothing and is not modelled.
- The cook-queue normalisation of several response shapes and any complete/close screen caller do not appear in the modelled files, so they are not modelled.

## Findings

| source | as written | input that shows it | evidently intended | confidence | as-written member | corrected member |
|---|---|---|---|---|---|---|
| app/page/profile/SettingMenu.tsx:84 | `handleEditItem` copies the options array but not the option objects, and `updateOption` (lines 108-118) assigns into those shared objects | open an item with options in the edit modal, type a new name into its first option, then cancel: the stored item's first option has the new name | edits reach the stored items only through `saveEdit`, so cancelling leaves the option as it was | not executed | SettingMenu.CancelledEditLeaks | SettingMenu.CancelledCopyingEditKeepsOptions |
