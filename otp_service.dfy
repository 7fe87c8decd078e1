/** The OTP service: requesting an OTP for a phone number, and verifying it, which also
    pulls a token out of the `set-cookie` header under the first of several cookie names. */
module OtpService {
  import opened Wrappers
  import opened JsString
  import opened Http
  import JsArray

  /** Request bodies: `{ phone }` and `{ phone, otp }`. */
  datatype OtpBody = PhoneBody(phone: string) | PhoneOtpBody(phone: string, otp: string)

  const SendOtpPrefix := "ส่ง OTP ไม่สำเร็จ: "
  const VerifyPrefix := "ยืนยัน OTP ไม่สำเร็จ: "

  /** The cookie names tried, in priority order. */
  const CookieNames: seq<string> := ["jwt", "token", "auth", "session", "access_token"]

  // ---------------------------------------------------------------- the cookie patterns

  /** The pattern `name=([^;]+)` matches at index `i`: `name=` stands there and is
      followed by at least one character other than `;`. */
  predicate MatchesAt(s: string, name: string, i: int) {
    0 <= i && i + |name| + 1 < |s| && s[i..i + |name|] == name && s[i + |name|] == '='
    && s[i + |name| + 1] != ';'
  }

  /** Length of the run of non-`;` characters starting at `j`. */
  function RunLength(s: string, j: nat): (n: nat)
    requires j <= |s|
    ensures j + n <= |s|
    ensures forall k :: j <= k < j + n ==> s[k] != ';'
    ensures j + n < |s| ==> s[j + n] == ';'
    decreases |s| - j
  {
    if j == |s| || s[j] == ';' then 0 else 1 + RunLength(s, j + 1)
  }

  /** The leftmost index at or after `from` where the pattern matches. */
  function FindMatch(s: string, name: string, from: nat): (r: Option<nat>)
    requires from <= |s|
    ensures r.Some? ==> from <= r.value && MatchesAt(s, name, r.value)
    ensures r.Some? ==> forall i :: from <= i < r.value ==> !MatchesAt(s, name, i)
    ensures r.None? ==> forall i :: from <= i ==> !MatchesAt(s, name, i)
    decreases |s| - from
  {
    if MatchesAt(s, name, from) then Some(from)
    else if from == |s| then None
    else FindMatch(s, name, from + 1)
  }

  /** `v` is the capture of the leftmost match, at `i`: the maximal run of non-`;`
      characters right after `name=`. */
  predicate LeftmostCapture(s: string, name: string, i: int, v: string) {
    MatchesAt(s, name, i)
    && (forall j :: 0 <= j < i ==> !MatchesAt(s, name, j))
    && var start := i + |name| + 1;
       start + |v| <= |s| && v == s[start..start + |v|] && |v| > 0
       && (forall k :: start <= k < start + |v| ==> s[k] != ';')
       && (start + |v| == |s| || s[start + |v|] == ';')
  }

  /** `cookies.match(/name=([^;]+)/)?.[1]`. */
  function MatchCookie(cookies: string, name: string): (r: Option<string>)
    ensures r.None? <==> forall i :: 0 <= i ==> !MatchesAt(cookies, name, i)
    ensures r.Some? ==> exists i :: LeftmostCapture(cookies, name, i, r.value)
  {
    match FindMatch(cookies, name, 0)
    case None => None
    case Some(i) =>
      var start := i + |name| + 1;
      var v := cookies[start..start + RunLength(cookies, start)];
      assert LeftmostCapture(cookies, name, i, v);
      Some(v)
  }

  /** The index of the first cookie name whose pattern matches, or -1. */
  function WinningIndex(cookies: string): int {
    JsArray.FindIndex(CookieNames, (name: string) => MatchCookie(cookies, name).Some?)
  }

  /** The token the loop settles on: the capture of the first matching name. */
  function CookieToken(cookies: string): (r: Option<string>)
    ensures r.None? <==> forall k :: 0 <= k < |CookieNames| ==> MatchCookie(cookies, CookieNames[k]).None?
    ensures r.Some? ==> var k := WinningIndex(cookies);
                        0 <= k && r == MatchCookie(cookies, CookieNames[k])
                        && forall j :: 0 <= j < k ==> MatchCookie(cookies, CookieNames[j]).None?
  {
    var k := WinningIndex(cookies);
    if k == -1 then None else MatchCookie(cookies, CookieNames[k])
  }

  /** The first name that matches, at `i`, is the winner. */
  lemma WinnerAt(cookies: string, i: int)
    requires 0 <= i < |CookieNames| && MatchCookie(cookies, CookieNames[i]).Some?
    requires forall j :: 0 <= j < i ==> MatchCookie(cookies, CookieNames[j]).None?
    ensures CookieToken(cookies) == MatchCookie(cookies, CookieNames[i])
  {
    var k := WinningIndex(cookies);
    assert k != -1;
    assert k <= i;
    assert k >= i;
  }

  /** The `for ... of cookiePatterns` loop: tries each pattern in order and stops at the
      first match. */
  method ExtractJwtToken(cookies: string) returns (jwtToken: Option<string>)
    ensures jwtToken == CookieToken(cookies)
  {
    jwtToken := None;
    var i := 0;
    while i < |CookieNames|
      invariant 0 <= i <= |CookieNames|
      invariant forall j :: 0 <= j < i ==> MatchCookie(cookies, CookieNames[j]).None?
      invariant jwtToken == None
    {
      var m := MatchCookie(cookies, CookieNames[i]);
      if m.Some? {
        WinnerAt(cookies, i);
        jwtToken := m;
        break;
      }
      i := i + 1;
    }
  }

  /** Wherever `access_token=` matches, `token=` matches seven characters later. */
  lemma AccessTokenContainsToken(s: string, i: int)
    requires MatchesAt(s, "access_token", i)
    ensures MatchesAt(s, "token", i + 7)
  {
    assert s[i + 7..i + 12] == s[i..i + 12][7..];
  }

  /** Unanchored matching shadows the last name: `access_token` can never be the winner,
      because `token` (tried earlier) matches wherever it does. */
  lemma AccessTokenNeverWins(cookies: string)
    ensures WinningIndex(cookies) != 4
  {
    if exists i :: 0 <= i && MatchesAt(cookies, "access_token", i) {
      var i :| 0 <= i && MatchesAt(cookies, "access_token", i);
      AccessTokenContainsToken(cookies, i);
      assert MatchCookie(cookies, CookieNames[1]).Some?;
    } else {
      assert MatchCookie(cookies, CookieNames[4]).None?;
    }
  }

  /** A cookie string holding only `access_token=V` yields `V`, through the `token` name. */
  lemma OnlyAccessToken(v: string)
    requires v != "" && ';' !in v && '=' !in v
    ensures WinningIndex("access_token=" + v) == 1
    ensures CookieToken("access_token=" + v) == Some(v)
  {
    var s := "access_token=" + v;
    forall k | 0 <= k < |s| && k != 12 ensures s[k] != '=' {
      if k < 13 { assert s[k] == "access_token="[k]; } else { assert s[k] == v[k - 13]; }
    }
    forall k | 13 <= k < |s| ensures s[k] != ';' {
      assert s[k] == v[k - 13];
    }
    // `jwt=` would need its '=' at index 12, so would start at 9, where "ken=" stands
    forall i | 0 <= i ensures !MatchesAt(s, "jwt", i) {
      if i == 9 {
        assert s[9..12] == "ken";
      } else if i + 3 < |s| {
        assert s[i + 3] != '=';
      }
    }
    assert MatchCookie(s, CookieNames[0]).None?;
    assert MatchesAt(s, "token", 7) by {
      assert s[..13] == "access_token=";
      assert s[7..12] == s[..13][7..12] == "token";
      assert s[12] == '=' && s[13] == v[0];
    }
    forall j | 0 <= j < 7 ensures !MatchesAt(s, "token", j) {
      assert s[j + 5] != '=';
    }
    var r := MatchCookie(s, "token");
    var i :| LeftmostCapture(s, "token", i, r.value);
    assert i == 7;
    assert RunLength(s, 13) == |v|;
    assert r.value == s[13..] == v;
  }

  // ---------------------------------------------------------------- the two calls

  /** The request `sendOtp(phone)` makes. */
  function SendOtpRequest(phone: string): (q: Request<OtpBody>)
    ensures q.body == Some(PhoneBody(phone)) && q.verb == POST && q.headers == JsonHeaders
  {
    Request(POST, BaseUrl + "/Otp/Request", JsonHeaders, Some(PhoneBody(phone)))
  }

  /** `sendOtp(phone)`: an OK response gives its parsed body; a non-OK response throws the
      prefix followed by the body text, and a rejected fetch or a parse error is rethrown. */
  function SendOtp<J>(phone: string, fetch: Request<OtpBody> -> FetchOutcome, parse: JsonParser<J>): (r: Result<J, Error>)
    ensures var o := fetch(SendOtpRequest(phone));
            r.Success? <==> o.Received? && IsOk(o.response) && parse(o.response.body).Success?
    ensures r.Success? ==> var o := fetch(SendOtpRequest(phone));
                           parse(o.response.body) == Success(r.value)
    ensures var o := fetch(SendOtpRequest(phone));
            o.NetworkFailure? ==> r == Failure(Error(o.message))
    ensures var o := fetch(SendOtpRequest(phone));
            o.Received? && !IsOk(o.response) ==> r == Failure(Error(SendOtpPrefix + o.response.body))
    ensures var o := fetch(SendOtpRequest(phone));
            o.Received? && IsOk(o.response) && parse(o.response.body).Failure? ==>
              r == Failure(Error(parse(o.response.body).error))
  {
    ExpectJson(fetch(SendOtpRequest(phone)), SendOtpPrefix, parse)
  }

  /** The request `verifyPhone(phone, otp)` makes. */
  function VerifyRequest(phone: string, otp: string): (q: Request<OtpBody>)
    ensures q.body == Some(PhoneOtpBody(phone, otp)) && q.verb == POST && q.headers == JsonHeaders
  {
    Request(POST, BaseUrl + "/Auth/Seller/Verify", JsonHeaders, Some(PhoneOtpBody(phone, otp)))
  }

  /** `verifyPhone`'s result: the parsed body, with `cookies` and `jwtToken` set on it
      only when a `set-cookie` header came back. */
  datatype VerifyResult<J> = VerifyResult(body: J, cookies: Option<string>, jwtToken: Option<string>)

  /** What `verifyPhone` makes of the outcome of its request. */
  function VerifyOutcome<J>(o: FetchOutcome, parse: JsonParser<J>): (r: Result<VerifyResult<J>, Error>)
    ensures r.Success? <==> o.Received? && IsOk(o.response) && parse(o.response.body).Success?
    ensures o.NetworkFailure? ==> r == Failure(Error(o.message))
    ensures o.Received? && !IsOk(o.response) ==> r == Failure(Error(VerifyPrefix + o.response.body))
    ensures o.Received? && IsOk(o.response) && parse(o.response.body).Failure? ==>
              r == Failure(Error(parse(o.response.body).error))
    ensures r.Success? ==> parse(o.response.body) == Success(r.value.body)
    ensures r.Success? ==> var c := o.response.setCookie;
              if c.Some? && c.value != "" then r.value.cookies == c && r.value.jwtToken == CookieToken(c.value)
              else r.value.cookies == None && r.value.jwtToken == None
  {
    match ExpectJson(o, VerifyPrefix, parse)
    case Failure(e) => Failure(e)
    case Success(body) =>
      var c := o.response.setCookie;
      if c.Some? && c.value != "" then Success(VerifyResult(body, c, CookieToken(c.value)))
      else Success(VerifyResult(body, None, None))
  }

  /** `verifyPhone(phone, otp)`, in the source's order of steps. */
  method VerifyPhone<J>(phone: string, otp: string, fetch: Request<OtpBody> -> FetchOutcome, parse: JsonParser<J>)
    returns (r: Result<VerifyResult<J>, Error>)
    ensures r == VerifyOutcome(fetch(VerifyRequest(phone, otp)), parse)
  {
    var o := fetch(VerifyRequest(phone, otp));
    if o.NetworkFailure? {
      return Failure(Error(o.message));
    }
    var response := o.response;
    if !IsOk(response) {
      return Failure(Error(VerifyPrefix + response.body));
    }
    var parsed := parse(response.body);
    if parsed.Failure? {
      return Failure(Error(parsed.error));
    }
    var result := VerifyResult(parsed.value, None, None);
    var cookies := response.setCookie;
    if cookies.Some? && cookies.value != "" {
      result := result.(cookies := cookies);
      var jwtToken := ExtractJwtToken(cookies.value);
      if jwtToken.Some? {
        result := result.(jwtToken := jwtToken);
      }
    }
    r := Success(result);
  }
}
