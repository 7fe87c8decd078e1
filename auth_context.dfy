/** The authentication context: the session token held in memory and mirrored in
    AsyncStorage, and the claim accessors that read identity facts out of it. */
module AuthContext {
  import opened Wrappers
  import opened JsString
  import opened Storage

  /** The claims a decoded token may carry. */
  datatype Claims = Claims(
    id: Option<string>,
    role: Option<string>,
    branch_id: Option<string>,
    merchant_id: Option<string>,
    merchantId: Option<string>,
    userId: Option<string>,
    phone: Option<string>,
    iss: Option<string>,
    exp: Option<int>)

  /** `jwtDecode(token)`, a foreign decoder: the claims, or `None` where it throws. */
  type Decoder = string -> Option<Claims>

  /** What `getUserInfo` returns: the decoded claims, or the record
      `{ phone, tokenType: 'session' }` synthesised from a session token. */
  datatype UserInfo = Decoded(claims: Claims) | SessionInfo(phone: string)

  /** The prefix of the fallback session tokens `session_<timestamp>_<phone>`. */
  const SessionPrefix := "session_"

  /** `x || null` for a string claim. */
  function OrNull(x: Option<string>): (r: Option<string>)
    ensures Truthy(x) ==> r == x
    ensures !Truthy(x) ==> r == None
  {
    if Truthy(x) then x else None
  }

  /** `token.split('.').length === 3`: the test every accessor uses for "is a JWT". */
  predicate IsJwtShaped(t: string) {
    |Split(t, '.')| == 3
  }

  /** A token is JWT-shaped exactly when it contains two dots. */
  lemma JwtShapedIffTwoDots(t: string)
    ensures IsJwtShaped(t) <==> Count(t, '.') == 2
  {
  }

  /** The value `isAuthenticated` exposes, `!!token`: a token is present and it is not the
      empty string. Any such token counts, whether or not it carries claims. */
  function IsAuthenticated(token: Option<string>): (b: bool)
    ensures b <==> token.Some? && token.value != ""
  {
    Truthy(token)
  }

  /** The claims that a truthy, JWT-shaped token decodes to; `None` in every other case. */
  function JwtClaims(token: Option<string>, decode: Decoder): Option<Claims> {
    if Truthy(token) && IsJwtShaped(token.value) then decode(token.value) else None
  }

  /** `getMerchantId()`: the camelCase claim if truthy, else the snake_case one if truthy,
      else `null`; `null` also for no token, a non-JWT token (a session token and a
      malformed token alike, although the source tests the session prefix first) and a
      token that fails to decode. */
  function MerchantId(token: Option<string>, decode: Decoder): (r: Option<string>)
    ensures r.Some? ==> r.value != ""
    ensures JwtClaims(token, decode).None? ==> r == None
    ensures JwtClaims(token, decode).Some? ==>
              var c := JwtClaims(token, decode).value;
              r == if Truthy(c.merchantId) then c.merchantId
                   else if Truthy(c.merchant_id) then c.merchant_id
                   else None
  {
    if !Truthy(token) then None
    else if !IsJwtShaped(token.value) then None
    else
      match decode(token.value)
      case None => None
      case Some(c) => OrNull(if Truthy(c.merchantId) then c.merchantId else c.merchant_id)
  }

  /** The pattern shared by `getUserId`, `getBranchId` and `getRole`: the claim picked
      by `claim` from a truthy JWT-shaped token, `null` when it is falsy or absent. */
  function ClaimOf(token: Option<string>, decode: Decoder, claim: Claims -> Option<string>): (r: Option<string>)
    ensures r.Some? ==> r.value != ""
    ensures JwtClaims(token, decode).None? ==> r == None
    ensures JwtClaims(token, decode).Some? ==> r == OrNull(claim(JwtClaims(token, decode).value))
  {
    if !Truthy(token) then None
    else if !IsJwtShaped(token.value) then None
    else
      match decode(token.value)
      case None => None
      case Some(c) => OrNull(claim(c))
  }

  /** `getUserId()`: the `id` claim. */
  function UserId(token: Option<string>, decode: Decoder): (r: Option<string>)
    ensures JwtClaims(token, decode).None? ==> r == None
    ensures JwtClaims(token, decode).Some? ==> r == OrNull(JwtClaims(token, decode).value.id)
  {
    ClaimOf(token, decode, (c: Claims) => c.id)
  }

  /** `getBranchId()`: the `branch_id` claim. */
  function BranchId(token: Option<string>, decode: Decoder): (r: Option<string>)
    ensures JwtClaims(token, decode).None? ==> r == None
    ensures JwtClaims(token, decode).Some? ==> r == OrNull(JwtClaims(token, decode).value.branch_id)
  {
    ClaimOf(token, decode, (c: Claims) => c.branch_id)
  }

  /** `getRole()`: the `role` claim. */
  function Role(token: Option<string>, decode: Decoder): (r: Option<string>)
    ensures JwtClaims(token, decode).None? ==> r == None
    ensures JwtClaims(token, decode).Some? ==> r == OrNull(JwtClaims(token, decode).value.role)
  {
    ClaimOf(token, decode, (c: Claims) => c.role)
  }

  /** `getUserInfo()`: the decoded claims of a JWT-shaped token; for any other token that
      starts with `session_` and splits into at least three `_`-parts, the phone made of
      every part after the second, re-joined with `_`; `null` otherwise. */
  function UserInfoOf(token: Option<string>, decode: Decoder): (r: Option<UserInfo>)
    ensures Truthy(token) && IsJwtShaped(token.value) ==>
              r == (if decode(token.value).Some? then Some(Decoded(decode(token.value).value)) else None)
    ensures r.Some? && r.value.SessionInfo? ==>
              Truthy(token) && !IsJwtShaped(token.value) && StartsWith(token.value, SessionPrefix)
              && |Split(token.value, '_')| >= 3
              && r.value.phone == Join(Split(token.value, '_')[2..], '_')
    ensures (Truthy(token) && !IsJwtShaped(token.value) && StartsWith(token.value, SessionPrefix)
             && |Split(token.value, '_')| >= 3) ==> r.Some? && r.value.SessionInfo?
    ensures r.Some? && r.value.Decoded? ==> Truthy(token) && IsJwtShaped(token.value)
    ensures !Truthy(token) ==> r == None
    ensures (Truthy(token) && !IsJwtShaped(token.value)
             && !(StartsWith(token.value, SessionPrefix) && |Split(token.value, '_')| >= 3)) ==> r == None
  {
    if !Truthy(token) then None
    else
      var t := token.value;
      if !IsJwtShaped(t) then
        if StartsWith(t, SessionPrefix) then
          var parts := Split(t, '_');
          if |parts| >= 3 then Some(SessionInfo(Join(parts[2..], '_'))) else None
        else
          None
      else
        match decode(t)
        case None => None
        case Some(c) => Some(Decoded(c))
  }

  /** Without a truthy token every accessor returns `null` (as after a successful logout). */
  lemma NoTokenNoClaims(token: Option<string>, decode: Decoder)
    requires !IsAuthenticated(token)
    ensures MerchantId(token, decode) == None && UserId(token, decode) == None
    ensures BranchId(token, decode) == None && Role(token, decode) == None
    ensures UserInfoOf(token, decode) == None
  {
  }

  /** Every non-JWT token, a session token included, has no merchant, user, branch or role. */
  lemma NonJwtHasNoIdentity(t: string, decode: Decoder)
    requires !IsJwtShaped(t)
    ensures MerchantId(Some(t), decode) == None && UserId(Some(t), decode) == None
    ensures BranchId(Some(t), decode) == None && Role(Some(t), decode) == None
  {
  }

  /** A session-prefixed token with exactly two dots takes the JWT path: its user info
      is whatever the decoder makes of it, never the synthesised session record. */
  lemma DottedSessionTokenIsJwt(t: string, decode: Decoder)
    requires StartsWith(t, SessionPrefix) && Count(t, '.') == 2
    ensures UserInfoOf(Some(t), decode) == (if decode(t).Some? then Some(Decoded(decode(t).value)) else None)
  {
  }

  /** What the session phone is: the token is its first two `_`-parts, each followed by
      `_`, and then the phone, so the phone is everything after the second underscore. */
  lemma {:induction false} SessionPhoneIsSuffix(t: string, decode: Decoder)
    requires Truthy(Some(t)) && !IsJwtShaped(t) && StartsWith(t, SessionPrefix) && |Split(t, '_')| >= 3
    ensures var parts := Split(t, '_');
            UserInfoOf(Some(t), decode) == Some(SessionInfo(Join(parts[2..], '_')))
            && t == parts[0] + "_" + parts[1] + "_" + Join(parts[2..], '_')
            && '_' !in parts[0] && '_' !in parts[1]
  {
    var parts := Split(t, '_');
    JoinSplit(t, '_');
    assert parts[1..][1..] == parts[2..];
  }

  /** Authentication is weaker than identity: a session token authenticates the app
      although it carries no merchant, user, branch or role. */
  lemma {:induction false} SessionTokenAuthenticatesWithoutIdentity(timestamp: string, phone: string, decode: Decoder)
    requires '_' !in timestamp && '.' !in SessionPrefix + timestamp + "_" + phone
    ensures var t := Some(SessionPrefix + timestamp + "_" + phone);
            IsAuthenticated(t) && UserInfoOf(t, decode) == Some(SessionInfo(phone))
            && MerchantId(t, decode) == None && UserId(t, decode) == None
            && BranchId(t, decode) == None && Role(t, decode) == None
  {
    var t := SessionPrefix + timestamp + "_" + phone;
    SessionTokenRoundTrip(timestamp, phone, decode);
    UndottedIsNotJwt(t);
    NonJwtHasNoIdentity(t, decode);
  }

  /** A token with no dot is never JWT-shaped. */
  lemma UndottedIsNotJwt(t: string)
    requires '.' !in t
    ensures !IsJwtShaped(t)
  {
    SplitWithoutSeparator(t, '.');
  }

  /** A session token splits on `_` into "session" followed by the parts of the rest. */
  lemma SessionParts(rest: string)
    ensures StartsWith(SessionPrefix + rest, SessionPrefix)
    ensures Split(SessionPrefix + rest, '_') == ["session"] + Split(rest, '_')
  {
    var t := SessionPrefix + rest;
    assert t[..|SessionPrefix|] == SessionPrefix;
    assert t == "session" + ['_'] + rest;
    SplitAround("session", rest, '_');
    SplitWithoutSeparator("session", '_');
  }

  /** The session-token convention round-trips: a token `session_<timestamp>_<phone>` whose
      timestamp has no underscore, and which has no dot, recovers the phone exactly,
      underscores in it included. */
  lemma {:induction false} SessionTokenRoundTrip(timestamp: string, phone: string, decode: Decoder)
    requires '_' !in timestamp && '.' !in SessionPrefix + timestamp + "_" + phone
    ensures UserInfoOf(Some(SessionPrefix + timestamp + "_" + phone), decode) == Some(SessionInfo(phone))
  {
    var t := SessionPrefix + timestamp + "_" + phone;
    SessionTokenSplit(timestamp, phone);
    JoinSplit(phone, '_');
    UndottedIsNotJwt(t);
  }

  /** The `_`-parts of `session_<timestamp>_<phone>` from the third on are the phone's. */
  lemma SessionTokenSplit(timestamp: string, phone: string)
    requires '_' !in timestamp
    ensures var t := SessionPrefix + timestamp + "_" + phone;
            StartsWith(t, SessionPrefix) && |Split(t, '_')| >= 3 && Split(t, '_')[2..] == Split(phone, '_')
  {
    var rest := timestamp + "_" + phone;
    assert SessionPrefix + timestamp + "_" + phone == SessionPrefix + rest;
    SessionParts(rest);
    assert rest == timestamp + ['_'] + phone;
    SplitAround(timestamp, phone, '_');
    SplitWithoutSeparator(timestamp, '_');
    var parts := Split(SessionPrefix + rest, '_');
    assert parts == ["session", timestamp] + Split(phone, '_');
  }

  /** A token that is neither JWT-shaped nor a session token with at least three `_`-parts
      yields no user info: `abc`, and `session_a.b` (one dot, two parts), alike. */
  lemma ShortSessionTokenHasNoInfo(t: string, decode: Decoder)
    requires !IsJwtShaped(t) && !(StartsWith(t, SessionPrefix) && |Split(t, '_')| >= 3)
    ensures UserInfoOf(Some(t), decode) == None
  {
  }

  /** Which tokens those are among the session tokens: `session_<x>`, with `x` free of
      underscores and dots, has only two `_`-parts and no user info at all. */
  lemma SessionTokenWithoutPhone(x: string, decode: Decoder)
    requires '_' !in x && '.' !in SessionPrefix + x
    ensures UserInfoOf(Some(SessionPrefix + x), decode) == None
  {
    SessionParts(x);
    SplitWithoutSeparator(x, '_');
    UndottedIsNotJwt(SessionPrefix + x);
  }

  /** The authentication provider's state: the token (`null` until set) and the
      `loading` flag that is true until the stored token has been looked up. */
  class AuthProvider {
    var token: Option<string>
    var loading: bool
    const store: AsyncStore

    constructor (store: AsyncStore)
      ensures token == None && loading && this.store == store
    {
      token := None;
      loading := true;
      this.store := store;
    }

    /** `checkStoredToken()`: adopts a truthy stored token; a storage error is swallowed;
        `loading` ends false on every path. Decoding here only logs. */
    method CheckStoredToken()
      modifies this`token, this`loading
      ensures !loading
      ensures !IsAuthenticated(old(token)) ==>
                (IsAuthenticated(token) <==> !store.faulty && TokenKey in store.entries && store.entries[TokenKey] != "")
      ensures token == if !store.faulty && TokenKey in store.entries && store.entries[TokenKey] != ""
                       then Some(store.entries[TokenKey]) else old(token)
    {
      var stored := store.GetItem(TokenKey);
      if stored.Success? && Truthy(stored.value) {
        token := stored.value;
      }
      loading := false;
    }

    /** `login(newToken)`: writes storage first and adopts the token only once the write
        succeeded; a storage error is rethrown and leaves the token as it was. */
    method Login(newToken: string) returns (r: Result<(), StorageError>)
      modifies this`token, store`entries
      ensures r.Failure? <==> store.faulty
      ensures r.Success? ==> (IsAuthenticated(token) <==> newToken != "")
      ensures token == if store.faulty then old(token) else Some(newToken)
      ensures store.entries == if store.faulty then old(store.entries) else old(store.entries)[TokenKey := newToken]
    {
      r := store.SetItem(TokenKey, newToken);
      if r.Success? {
        token := Some(newToken);
      }
    }

    /** `logout()`: clears the token only after a successful removal; a removal error is
        swallowed and leaves the token as it was. */
    method Logout()
      modifies this`token, store`entries
      ensures !store.faulty ==> !IsAuthenticated(token)
      ensures token == if store.faulty then old(token) else None
      ensures store.entries == if store.faulty then old(store.entries) else old(store.entries) - {TokenKey}
    {
      var r := store.RemoveItem(TokenKey);
      if r.Success? {
        token := None;
      }
    }
  }
}
