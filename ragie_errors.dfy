/**
 * Classification of failed responses from the Ragie retrieval API: the HTTP status picks an error code
 * and a user-facing message, and the response body supplies an optional detail text.
 * Reading the body and the request-id headers is outside the model: their results are parameters.
 */
module RagieErrors {
  import opened Common

  /** The horizontal ellipsis appended by `SafeTruncate`. */
  const Ellipsis: char := '\U{2026}'

  /** Longest fallback detail kept from a non-JSON body. */
  const MaxDetailLength: nat := 2000

  /** A parsed JSON body (duplicate keys resolve to the last one, as `JSON.parse` does). */
  datatype JsonValue =
    | JNull
    | JBool(b: bool)
    | JNumber(n: int)
    | JString(s: string)
    | JArray(items: seq<JsonValue>)
    | JObject(members: map<string, JsonValue>)

  datatype ErrorCode =
    | Unauthorized
    | Forbidden
    | TooLarge
    | UnsupportedMediaType
    | RateLimited
    | ServerError
    | RequestFailed
  {
    /** The code string carried in the error result. */
    function Name(): string {
      match this
      case Unauthorized => "RAGIE_UNAUTHORIZED"
      case Forbidden => "RAGIE_FORBIDDEN"
      case TooLarge => "RAGIE_TOO_LARGE"
      case UnsupportedMediaType => "RAGIE_UNSUPPORTED_MEDIA_TYPE"
      case RateLimited => "RAGIE_RATE_LIMITED"
      case ServerError => "RAGIE_SERVER_ERROR"
      case RequestFailed => "RAGIE_REQUEST_FAILED"
    }
  }

  /** The error half of an action result. */
  datatype ActionError = ActionError(
    status: int,
    code: string,
    message: string,
    detail: Option<string>,
    requestId: Option<string>)

  /** The result of a server action: data on success, a classified error otherwise. */
  datatype ActionResult<T> = Ok(data: T) | Failed(error: ActionError)

  // ---------------------------------------------------------------------------------------------
  // Text helpers: truncation, trimming, lower-casing, substring search, decimal rendering
  // ---------------------------------------------------------------------------------------------

  /** Keeps a string that fits; otherwise cuts it to `maxLen` characters and marks the cut with an ellipsis. */
  function SafeTruncate(input: string, maxLen: nat): (r: string)
    ensures |input| <= maxLen ==> r == input
    ensures |input| > maxLen ==> |r| == maxLen + 1 && r[..maxLen] == input[..maxLen] && r[maxLen] == Ellipsis
    ensures |r| <= maxLen + 1
  {
    if |input| <= maxLen then input else input[..maxLen] + [Ellipsis]
  }

  /** The characters `String.prototype.trim` removes: white space (including category Zs) and line terminators. */
  predicate IsWhitespace(c: char) {
    || c == '\t' || c == '\n' || c == '\U{000B}' || c == '\U{000C}' || c == '\r' || c == ' '
    || c == '\U{00A0}' || c == '\U{1680}' || ('\U{2000}' <= c <= '\U{200A}')
    || c == '\U{2028}' || c == '\U{2029}' || c == '\U{202F}' || c == '\U{205F}'
    || c == '\U{3000}' || c == '\U{FEFF}'
  }

  predicate AllWhitespace(s: string) {
    forall i :: 0 <= i < |s| ==> IsWhitespace(s[i])
  }

  /** Drops leading white space: the result is a suffix of `s` and everything dropped is white space. */
  function TrimStart(s: string): (r: string)
    ensures |r| <= |s| && r == s[|s| - |r|..]
    ensures AllWhitespace(s[..|s| - |r|])
    ensures r != [] ==> !IsWhitespace(r[0])
  {
    if s != [] && IsWhitespace(s[0]) then
      var r := TrimStart(s[1..]);
      assert s[..|s| - |r|] == [s[0]] + s[1..][..|s| - 1 - |r|];
      r
    else
      s
  }

  /** Drops trailing white space: the result is a prefix of `s` and everything dropped is white space. */
  function TrimEnd(s: string): (r: string)
    ensures |r| <= |s| && r == s[..|r|]
    ensures AllWhitespace(s[|r|..])
    ensures r != [] ==> !IsWhitespace(r[|r| - 1])
  {
    if s != [] && IsWhitespace(s[|s| - 1]) then
      var r := TrimEnd(s[..|s| - 1]);
      assert s[|r|..] == s[..|s| - 1][|r|..] + [s[|s| - 1]];
      r
    else
      s
  }

  /** `r` is `s` with the white space run before position `a` and the one after `r` cut off. */
  predicate TrimmedAt(s: string, r: string, a: int) {
    0 <= a <= |s| - |r| && r == s[a..a + |r|] && AllWhitespace(s[..a]) && AllWhitespace(s[a + |r|..])
  }

  /**
   * `String.prototype.trim`: the result is the piece of `s` left once a white-space run is dropped from each
   * end; neither of its ends is white space, and it is empty exactly for blank input.
   */
  function Trim(s: string): (r: string)
    ensures |r| <= |s|
    ensures exists a :: TrimmedAt(s, r, a)
    ensures r != [] ==> !IsWhitespace(r[0]) && !IsWhitespace(r[|r| - 1])
    ensures r == [] <==> AllWhitespace(s)
  {
    var t := TrimStart(s);
    var r := TrimEnd(t);
    TrimEnds(s, t, r);
    r
  }

  lemma TrimEnds(s: string, t: string, r: string)
    requires t == TrimStart(s) && r == TrimEnd(t)
    ensures exists a :: TrimmedAt(s, r, a)
    ensures r != [] ==> !IsWhitespace(r[0])
    ensures r == [] <==> AllWhitespace(s)
  {
    var k := |s| - |t|;
    assert r == s[k..k + |r|] && s[k + |r|..] == t[|r|..];
    assert TrimmedAt(s, r, k);
    if r == [] {
      // `t` is all white space yet does not start with any, so nothing is left after the leading run.
      assert t[|r|..] == t;
      assert t == [];
      assert s[..k] == s;
    } else {
      assert r[0] == t[0] == s[k];
    }
  }

  /** `String.prototype.toLowerCase`, for the ASCII letters. */
  function LowerChar(c: char): (r: char)
    ensures 'A' <= c <= 'Z' ==> 'a' <= r <= 'z' && r as int - c as int == 32
    ensures !('A' <= c <= 'Z') ==> r == c
  {
    if 'A' <= c <= 'Z' then (c as int + 32) as char else c
  }

  function ToLower(s: string): (r: string)
    ensures |r| == |s| && forall i :: 0 <= i < |s| ==> r[i] == LowerChar(s[i])
  {
    seq(|s|, i requires 0 <= i < |s| => LowerChar(s[i]))
  }

  /** `s.includes(part)`: `part` occurs in `s` at some position. */
  predicate Contains(s: string, part: string)
    decreases |s|
  {
    |part| <= |s| && (s[..|part|] == part || Contains(s[1..], part))
  }

  lemma {:induction false} ContainsAt(s: string, part: string, k: nat)
    requires k + |part| <= |s| && s[k..k + |part|] == part
    ensures Contains(s, part)
    decreases k
  {
    if k > 0 {
      assert s[1..][k - 1..k - 1 + |part|] == s[k..k + |part|];
      ContainsAt(s[1..], part, k - 1);
    }
  }

  function DigitChar(d: nat): (c: char)
    requires d < 10
    ensures '0' <= c <= '9'
  {
    ('0' as int + d) as char
  }

  /** The decimal digits of `n`, most significant first. */
  function NatToString(n: nat): (r: string)
    ensures r != [] && forall i :: 0 <= i < |r| ==> '0' <= r[i] <= '9'
    decreases n
  {
    if n < 10 then [DigitChar(n)] else NatToString(n / 10) + [DigitChar(n % 10)]
  }

  /** How JavaScript renders an integral number in a template string. */
  function IntToString(n: int): (r: string)
    ensures r != []
    ensures r[0] == '-' <==> n < 0
  {
    if n < 0 then "-" + NatToString(-n) else NatToString(n)
  }

  /** Reads decimal digits back; the partner of `NatToString`. */
  function ParseDigits(s: string): nat
    decreases |s|
  {
    if s == [] then 0
    else ParseDigits(s[..|s| - 1]) * 10 + (if '0' <= s[|s| - 1] <= '9' then s[|s| - 1] as int - '0' as int else 0)
  }

  lemma {:induction false} ParseNatToString(n: nat)
    ensures ParseDigits(NatToString(n)) == n
    decreases n
  {
    if n >= 10 {
      var s := NatToString(n);
      assert s[..|s| - 1] == NatToString(n / 10);
      ParseNatToString(n / 10);
    }
  }

  /** Distinct integers render as distinct strings. */
  lemma {:induction false} IntToStringInjective(a: int, b: int)
    requires IntToString(a) == IntToString(b)
    ensures a == b
  {
    var s := IntToString(a);
    if a < 0 {
      assert b < 0;
      var na, nb := NatToString(-a), NatToString(-b);
      assert s == "-" + na && s == "-" + nb;
      assert na == s[1..] == nb;
      ParseNatToString(-a);
      ParseNatToString(-b);
    } else {
      assert b >= 0;
      ParseNatToString(a);
      ParseNatToString(b);
    }
  }

  // ---------------------------------------------------------------------------------------------
  // Detail extraction
  // ---------------------------------------------------------------------------------------------

  /** `anyJson[key]` when it is a string (`typeof ... === "string"`); bodies that are not objects have no fields. */
  function StringField(json: Option<JsonValue>, key: string): Option<string> {
    if json.Some? && json.value.JObject? && key in json.value.members && json.value.members[key].JString?
    then Some(json.value.members[key].s)
    else None
  }

  /**
   * The first of the fields `detail`, `message`, `error` that holds a string, even an empty one:
   * a later field is consulted only when the earlier one is absent or not a string.
   */
  function ChosenField(json: Option<JsonValue>): (r: Option<string>)
    ensures StringField(json, "detail").Some? ==> r == StringField(json, "detail")
    ensures StringField(json, "detail").None? && StringField(json, "message").Some? ==> r == StringField(json, "message")
    ensures StringField(json, "detail").None? && StringField(json, "message").None? ==> r == StringField(json, "error")
  {
    var detail := StringField(json, "detail");
    if detail.Some? then detail
    else
      var message := StringField(json, "message");
      if message.Some? then message else StringField(json, "error")
  }

  /**
   * The detail text of an error response: the chosen JSON field when it is non-empty, otherwise the
   * trimmed body text cut to `MaxDetailLength` characters, and nothing when that is blank.
   */
  function ExtractDetail(json: Option<JsonValue>, fallbackText: string): (r: Option<string>)
    ensures r.Some? ==> r.value != ""
    ensures ChosenField(json).Some? && ChosenField(json).value != "" ==> r == ChosenField(json)
    ensures !(ChosenField(json).Some? && ChosenField(json).value != "") ==>
              (r.None? <==> AllWhitespace(fallbackText))
    ensures !(ChosenField(json).Some? && ChosenField(json).value != "") && r.Some? ==>
              r.value == SafeTruncate(Trim(fallbackText), MaxDetailLength) && |r.value| <= MaxDetailLength + 1
  {
    var chosen := ChosenField(json);
    if chosen.Some? && chosen.value != "" then chosen
    else
      var trimmed := Trim(fallbackText);
      if trimmed != "" then Some(SafeTruncate(trimmed, MaxDetailLength)) else None
  }

  /** A non-empty `detail` field wins over `message` and `error`, whatever they hold. */
  lemma DetailFieldWins(members: map<string, JsonValue>, d: string, fallbackText: string)
    requires "detail" in members && members["detail"] == JString(d) && d != ""
    ensures ExtractDetail(Some(JObject(members)), fallbackText) == Some(d)
  {
    assert StringField(Some(JObject(members)), "detail") == Some(d);
  }

  /**
   * An empty string in `detail` does not hand over to `message`: the body text is used instead, even
   * when `message` holds a non-empty string.
   */
  lemma {:induction false} EmptyDetailSkipsMessage(members: map<string, JsonValue>, fallbackText: string)
    requires "detail" in members && members["detail"] == JString("")
    ensures ExtractDetail(Some(JObject(members)), fallbackText)
         == (if AllWhitespace(fallbackText) then None else Some(SafeTruncate(Trim(fallbackText), MaxDetailLength)))
  {
  }

  // ---------------------------------------------------------------------------------------------
  // Status classification
  // ---------------------------------------------------------------------------------------------

  /** The code chain: each status has exactly one code, and every status has one. */
  function CodeFor(status: int): (r: ErrorCode)
    ensures r == Unauthorized <==> status == 401
    ensures r == Forbidden <==> status == 403
    ensures r == TooLarge <==> status == 413
    ensures r == UnsupportedMediaType <==> status == 415
    ensures r == RateLimited <==> status == 429
    ensures r == ServerError <==> status >= 500
    ensures r == RequestFailed <==> status < 500 && status !in {401, 403, 413, 415, 429}
  {
    if status == 401 then Unauthorized
    else if status == 403 then Forbidden
    else if status == 413 then TooLarge
    else if status == 415 then UnsupportedMediaType
    else if status == 429 then RateLimited
    else if status >= 500 then ServerError
    else RequestFailed
  }

  /** Distinct codes carry distinct code strings. */
  lemma CodeNamesDistinct(a: ErrorCode, b: ErrorCode)
    requires a.Name() == b.Name()
    ensures a == b
  {
  }

  const UnauthorizedMessage := "Ragie rejected the API key (401 Unauthorized). Check `RAGIE_API_KEY` in `.env.local`."
  const ForbiddenMessage := "Ragie forbids this request (403). Your API key may not have access to this resource."
  const TooLargeMessage := "Ragie rejected the upload because it\U{2019}s too large (413). Try a smaller file."
  const UnsupportedMediaTypeMessage := "Ragie rejected the file type (415). Try a supported document format."
  const RateLimitedMessage := "Ragie rate-limited this request (429). Please retry in a moment."
  const ServerErrorMessage := "Ragie is having trouble right now. Please retry in a moment."
  const GenericMessagePrefix := "Ragie request failed (HTTP "
  const GenericMessageSuffix := ")."

  /** A 403 whose detail, lower-cased, speaks of a disabled account is shown to the user as it is. */
  predicate AccountDisabled(detail: string) {
    var d := ToLower(detail);
    Contains(d, "account") && Contains(d, "disabled")
  }

  /** The message shown for a failed request, by the code its status maps to. */
  function ToUserMessage(status: int, detail: Option<string>): (r: string)
    ensures CodeFor(status) == Unauthorized ==> r == UnauthorizedMessage
    ensures CodeFor(status) == Forbidden && detail.Some? && AccountDisabled(detail.value) ==> r == detail.value
    ensures CodeFor(status) == Forbidden && !(detail.Some? && AccountDisabled(detail.value)) ==> r == ForbiddenMessage
    ensures CodeFor(status) == TooLarge ==> r == TooLargeMessage
    ensures CodeFor(status) == UnsupportedMediaType ==> r == UnsupportedMediaTypeMessage
    ensures CodeFor(status) == RateLimited ==> r == RateLimitedMessage
    ensures CodeFor(status) == ServerError ==> r == ServerErrorMessage
    ensures CodeFor(status) == RequestFailed ==> r == GenericMessagePrefix + IntToString(status) + GenericMessageSuffix
  {
    if status == 401 then UnauthorizedMessage
    else if status == 403 then
      var d := if detail.Some? then ToLower(detail.value) else "";
      if Contains(d, "account") && Contains(d, "disabled") then detail.value else ForbiddenMessage
    else if status == 413 then TooLargeMessage
    else if status == 415 then UnsupportedMediaTypeMessage
    else if status == 429 then RateLimitedMessage
    else if status >= 500 then ServerErrorMessage
    else GenericMessagePrefix + IntToString(status) + GenericMessageSuffix
  }

  /** Two statuses with the same code get the same message, except in the generic class, which names the status. */
  lemma MessageFollowsCode(s1: int, s2: int, detail: Option<string>)
    requires CodeFor(s1) == CodeFor(s2) && CodeFor(s1) != RequestFailed
    ensures ToUserMessage(s1, detail) == ToUserMessage(s2, detail)
  {
  }

  /** The generic message names its status: two generic messages are equal only for the same status. */
  lemma {:induction false} GenericMessageDeterminesStatus(s1: int, s2: int, detail: Option<string>)
    requires CodeFor(s1) == RequestFailed && CodeFor(s2) == RequestFailed
    requires ToUserMessage(s1, detail) == ToUserMessage(s2, detail)
    ensures s1 == s2
  {
    var m1, m2 := ToUserMessage(s1, detail), ToUserMessage(s2, detail);
    var p := |GenericMessagePrefix|;
    assert m1[p..|m1| - 2] == IntToString(s1);
    assert m2[p..|m2| - 2] == IntToString(s2);
    IntToStringInjective(s1, s2);
  }

  /** An "account ... disabled" detail reaches the user verbatim on a 403. */
  lemma DisabledAccountShownVerbatim(detail: string)
    requires AccountDisabled(detail)
    ensures ToUserMessage(403, Some(detail)) == detail
  {
  }

  /** An example of the case-insensitive match: "Account is DISABLED" passes the 403 detail through. */
  lemma {:induction false} MixedCaseDisabledAccount()
    ensures ToUserMessage(403, Some("Account is DISABLED")) == "Account is DISABLED"
  {
    var d := ToLower("Account is DISABLED");
    assert AccountDisabled("Account is DISABLED") by {
      assert d[0..7] == "account";
      ContainsAt(d, "account", 0);
      assert d[11..19] == "disabled";
      ContainsAt(d, "disabled", 11);
    }
  }

  /**
   * The error result for a failed response: never `ok`, with the response status, the code and message
   * derived from that status, the extracted detail and the request id read from the headers.
   */
  function RagieErrorResult<T>(status: int, json: Option<JsonValue>, text: string, requestId: Option<string>)
    : (r: ActionResult<T>)
    ensures r.Failed?
    ensures r.error.status == status
    ensures r.error.code == CodeFor(status).Name()
    ensures r.error.detail == ExtractDetail(json, text)
    ensures r.error.message == ToUserMessage(status, r.error.detail)
    ensures r.error.requestId == requestId
  {
    var detail := ExtractDetail(json, text);
    Failed(ActionError(status, CodeFor(status).Name(), ToUserMessage(status, detail), detail, requestId))
  }
}
