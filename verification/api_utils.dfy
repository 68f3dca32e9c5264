/**
 * The HTTP layer shared by every handler: the error classes and the status codes they
 * carry, how a thrown value becomes an error response, the role guards, and the
 * pagination helpers.
 */
module ApiUtils {
  import opened Common
  import opened Enums

  // ------------------------------------------------------------------ error classes

  /** Which error class an `ApiError` value was built by. */
  datatype ErrorClass = Generic | UnauthorizedClass | ForbiddenClass | NotFoundClass | ValidationClass

  datatype ApiError = ApiError(
    message: string, statusCode: int, code: Option<string>, cls: ErrorClass,
    errors: Option<map<string, seq<string>>>)

  /** One schema-validation issue: where in the input, and what is wrong. */
  datatype Issue = Issue(path: seq<string>, message: string)

  /**
   * Whatever a handler can throw: a schema-validation error, one of the API error
   * classes, or anything else (a plain `Error`, a gateway error object, a database error).
   */
  datatype Thrown = Zod(issues: seq<Issue>) | Api(error: ApiError) | Plain(message: string)

  /** `new ApiError(message, statusCode)`; the status defaults to 500 when the caller gives none. */
  function NewApiError(message: string, statusCode: Option<int>): (e: ApiError)
    ensures e.message == message && e.cls == Generic && e.code.None? && e.errors.None?
    ensures e.statusCode == if statusCode.Some? then statusCode.value else 500
  {
    ApiError(message, if statusCode.Some? then statusCode.value else 500, None, Generic, None)
  }

  const DefaultUnauthorizedMessage: string := "Não autorizado"
  const DefaultForbiddenMessage: string := "Acesso negado"
  const DefaultNotFoundMessage: string := "Recurso não encontrado"
  const DefaultValidationMessage: string := "Dados inválidos"
  const InternalErrorMessage: string := "Erro interno do servidor"

  function Unauthorized(message: Option<string>): (e: ApiError)
    ensures e.statusCode == 401 && e.code == Some("UNAUTHORIZED") && e.cls == UnauthorizedClass
    ensures e.message == if message.Some? then message.value else DefaultUnauthorizedMessage
  {
    ApiError(if message.Some? then message.value else DefaultUnauthorizedMessage, 401, Some("UNAUTHORIZED"), UnauthorizedClass, None)
  }

  function Forbidden(message: Option<string>): (e: ApiError)
    ensures e.statusCode == 403 && e.code == Some("FORBIDDEN") && e.cls == ForbiddenClass
    ensures e.message == if message.Some? then message.value else DefaultForbiddenMessage
  {
    ApiError(if message.Some? then message.value else DefaultForbiddenMessage, 403, Some("FORBIDDEN"), ForbiddenClass, None)
  }

  function NotFound(message: Option<string>): (e: ApiError)
    ensures e.statusCode == 404 && e.code == Some("NOT_FOUND") && e.cls == NotFoundClass
    ensures e.message == if message.Some? then message.value else DefaultNotFoundMessage
  {
    ApiError(if message.Some? then message.value else DefaultNotFoundMessage, 404, Some("NOT_FOUND"), NotFoundClass, None)
  }

  function Validation(message: Option<string>, errors: Option<map<string, seq<string>>>): (e: ApiError)
    ensures e.statusCode == 400 && e.code == Some("VALIDATION_ERROR") && e.cls == ValidationClass
    ensures e.errors == errors
    ensures e.message == if message.Some? then message.value else DefaultValidationMessage
  {
    ApiError(if message.Some? then message.value else DefaultValidationMessage, 400, Some("VALIDATION_ERROR"), ValidationClass, errors)
  }

  // -------------------------------------------------------------------- responses

  /** A JSON response: `{ success: true, data }` or `{ success: false, error, code, details }`. */
  datatype ApiResponse<T> =
    | SuccessResponse(data: T, status: int)
    | ErrorResponse(status: int, error: string, code: Option<string>, details: Option<map<string, seq<string>>>)

  function Success<T>(data: T): (r: ApiResponse<T>)
    ensures r.SuccessResponse? && r.data == data && r.status == 200
  {
    SuccessResponse(data, 200)
  }

  /** `path.join('.')`. */
  function JoinPath(path: seq<string>): string
  {
    if |path| == 0 then ""
    else if |path| == 1 then path[0]
    else path[0] + "." + JoinPath(path[1..])
  }

  /** Adds one issue's message under its joined path. */
  function AddIssue(m: map<string, seq<string>>, issue: Issue): map<string, seq<string>>
  {
    var key := JoinPath(issue.path);
    m[key := (if key in m then m[key] else []) + [issue.message]]
  }

  /** The issue messages grouped by joined path, as the formatting loop accumulates them. */
  function Grouped(issues: seq<Issue>): map<string, seq<string>>
  {
    if |issues| == 0 then map[] else AddIssue(Grouped(issues[..|issues| - 1]), issues[|issues| - 1])
  }

  /** The messages of the issues at a given joined path, in issue order (the reference definition). */
  function MessagesAt(issues: seq<Issue>, key: string): seq<string>
  {
    if |issues| == 0 then []
    else (MessagesAt(issues[..|issues| - 1], key)
      + (if JoinPath(issues[|issues| - 1].path) == key then [issues[|issues| - 1].message] else []))
  }

  /** The joined paths that occur among the issues. */
  function PathsOf(issues: seq<Issue>): set<string>
  {
    set i | 0 <= i < |issues| :: JoinPath(issues[i].path)
  }

  /** The grouping has exactly one key per occurring path, holding that path's messages in issue order. */
  lemma {:induction false} GroupedIsMessagesByPath(issues: seq<Issue>)
    ensures Grouped(issues).Keys == PathsOf(issues)
    ensures forall key :: key in Grouped(issues) ==> Grouped(issues)[key] == MessagesAt(issues, key)
    ensures forall key :: key in Grouped(issues) ==> |Grouped(issues)[key]| > 0
  {
    if |issues| > 0 {
      var init := issues[..|issues| - 1];
      var last := issues[|issues| - 1];
      GroupedIsMessagesByPath(init);
      assert PathsOf(issues) == PathsOf(init) + {JoinPath(last.path)} by {
        forall k | k in PathsOf(issues) ensures k in PathsOf(init) + {JoinPath(last.path)} {
          var i :| 0 <= i < |issues| && JoinPath(issues[i].path) == k;
          if i < |issues| - 1 {
            assert init[i] == issues[i];
          }
        }
        forall k | k in PathsOf(init) ensures k in PathsOf(issues) {
          var i :| 0 <= i < |init| && JoinPath(init[i].path) == k;
          assert issues[i] == init[i];
        }
      }
      forall key | key in PathsOf(init) && key !in Grouped(init)
        ensures false
      {
      }
      forall key | key !in PathsOf(init)
        ensures MessagesAt(init, key) == []
      {
        MessagesAtAbsent(init, key);
      }
    }
  }

  lemma {:induction false} MessagesAtAbsent(issues: seq<Issue>, key: string)
    requires key !in PathsOf(issues)
    ensures MessagesAt(issues, key) == []
  {
    if |issues| > 0 {
      var init := issues[..|issues| - 1];
      assert PathsOf(init) <= PathsOf(issues) by {
        forall k | k in PathsOf(init) ensures k in PathsOf(issues) {
          var i :| 0 <= i < |init| && JoinPath(init[i].path) == k;
          assert issues[i] == init[i];
        }
      }
      MessagesAtAbsent(init, key);
    }
  }

  /** The response every handler's catch block produces for what was thrown (the reference definition). */
  function ErrorResponseOf<T>(e: Thrown): (r: ApiResponse<T>)
    ensures r.ErrorResponse?
    ensures e.Zod? ==> r.status == 400 && r.code == Some("VALIDATION_ERROR") && r.error == DefaultValidationMessage
    ensures e.Zod? ==> r.details == Some(Grouped(e.issues))
    ensures e.Api? ==> r.status == e.error.statusCode && r.error == e.error.message && r.code == e.error.code
    ensures e.Api? ==> (r.details.Some? <==> e.error.cls == ValidationClass && e.error.errors.Some?)
    ensures e.Plain? ==> r.status == 500 && r.code == Some("INTERNAL_ERROR") && r.error == InternalErrorMessage && r.details.None?
  {
    match e
    case Zod(issues) => ErrorResponse(400, DefaultValidationMessage, Some("VALIDATION_ERROR"), Some(Grouped(issues)))
    case Api(err) =>
      ErrorResponse(err.statusCode, err.message, err.code,
        if err.cls == ValidationClass && err.errors.Some? then err.errors else None)
    case Plain(_) => ErrorResponse(500, InternalErrorMessage, Some("INTERNAL_ERROR"), None)
  }

  /** Builds the error response, accumulating validation messages issue by issue. */
  method ErrorResponseFor<T>(e: Thrown) returns (r: ApiResponse<T>)
    ensures r == ErrorResponseOf(e)
  {
    match e
    case Zod(issues) =>
      var formatted: map<string, seq<string>> := map[];
      var i := 0;
      while i < |issues|
        invariant 0 <= i <= |issues|
        invariant formatted == Grouped(issues[..i])
      {
        var key := JoinPath(issues[i].path);
        if key !in formatted {
          formatted := formatted[key := []];
        }
        formatted := formatted[key := formatted[key] + [issues[i].message]];
        assert issues[..i + 1][..i] == issues[..i];
        i := i + 1;
      }
      assert issues[..|issues|] == issues;
      r := ErrorResponse(400, DefaultValidationMessage, Some("VALIDATION_ERROR"), Some(formatted));
    case Api(err) =>
      r := ErrorResponse(err.statusCode, err.message, err.code,
        if err.cls == ValidationClass && err.errors.Some? then err.errors else None);
    case Plain(_) =>
      r := ErrorResponse(500, InternalErrorMessage, Some("INTERNAL_ERROR"), None);
  }

  // ------------------------------------------------------------------- role guards

  datatype SessionUser = SessionUser(id: string, role: UserRole)

  /** An absent session, or one without a user, is rejected with 401. */
  function RequireAuth(session: Option<SessionUser>): (r: Result<SessionUser, Thrown>)
    ensures r.Ok? <==> session.Some?
    ensures r.Ok? ==> r.value == session.value
    ensures r.Err? ==> r.error == Api(Unauthorized(None))
  {
    if session.None? then Err(Api(Unauthorized(None))) else Ok(session.value)
  }

  /** 401 without a session; 403 exactly when the role is not among the allowed ones. */
  function RequireRole(session: Option<SessionUser>, allowed: seq<UserRole>): (r: Result<SessionUser, Thrown>)
    ensures session.None? ==> r == Err(Api(Unauthorized(None)))
    ensures session.Some? ==> (r.Ok? <==> session.value.role in allowed)
    ensures session.Some? && session.value.role !in allowed ==> r == Err(Api(Forbidden(None)))
    ensures r.Ok? ==> r.value == session.value
  {
    match RequireAuth(session)
    case Err(e) => Err(e)
    case Ok(user) => if user.role in allowed then Ok(user) else Err(Api(Forbidden(None)))
  }

  function RequireAdmin(session: Option<SessionUser>): (r: Result<SessionUser, Thrown>)
    ensures r.Ok? <==> session.Some? && session.value.role == Admin
    ensures session.Some? && session.value.role != Admin ==> r.Err? && r.error.Api? && r.error.error.statusCode == 403
  {
    RequireRole(session, [Admin])
  }

  function RequireAdminOrSeller(session: Option<SessionUser>): (r: Result<SessionUser, Thrown>)
    ensures r.Ok? <==> session.Some? && session.value.role in {Admin, Seller}
    ensures session.Some? && session.value.role == Buyer ==> r.Err? && r.error.Api? && r.error.error.statusCode == 403
  {
    RequireRole(session, [Admin, Seller])
  }

  // -------------------------------------------------------------------- pagination

  /** A JavaScript number restricted to what pagination produces: an integer, or NaN. */
  datatype JsNumber = Num(value: int) | NaN

  /** A digit of radix 16 when `hex` holds, of radix 10 otherwise. */
  predicate IsRadixDigit(c: char, hex: bool)
  {
    IsDigit(c) || (hex && ('a' <= c <= 'f' || 'A' <= c <= 'F'))
  }

  function RadixDigitValue(c: char, hex: bool): (v: nat)
    requires IsRadixDigit(c, hex)
    ensures v < (if hex then 16 else 10)
  {
    if IsDigit(c) then c as int - '0' as int
    else if 'a' <= c <= 'f' then c as int - 'a' as int + 10
    else c as int - 'A' as int + 10
  }

  function DropLeadingSpace(s: string): (r: string)
    ensures |r| <= |s| && r == s[|s| - |r|..]
    ensures |r| > 0 ==> !IsJsSpace(r[0])
  {
    if |s| > 0 && IsJsSpace(s[0]) then DropLeadingSpace(s[1..]) else s
  }

  /** Length of the longest prefix of digits of the given radix. */
  function DigitRun(s: string, hex: bool): (n: nat)
    ensures n <= |s|
    ensures forall i :: 0 <= i < n ==> IsRadixDigit(s[i], hex)
    ensures n < |s| ==> !IsRadixDigit(s[n], hex)
  {
    if |s| > 0 && IsRadixDigit(s[0], hex) then 1 + DigitRun(s[1..], hex) else 0
  }

  /** Value of a digit string (most significant first) in radix 10 or 16. */
  function DigitsValue(s: string, hex: bool): nat
    requires forall i :: 0 <= i < |s| ==> IsRadixDigit(s[i], hex)
  {
    if |s| == 0 then 0
    else if hex then DigitsValue(s[..|s| - 1], hex) * 16 + RadixDigitValue(s[|s| - 1], hex)
    else DigitsValue(s[..|s| - 1], hex) * 10 + RadixDigitValue(s[|s| - 1], hex)
  }

  /** Whether the text after the sign starts with a `0x`/`0X` prefix. */
  predicate HexPrefixed(u: string)
  {
    |u| >= 2 && u[0] == '0' && (u[1] == 'x' || u[1] == 'X')
  }

  /**
   * The digits after the sign: hexadecimal after a `0x`/`0X` prefix, decimal otherwise,
   * up to the first character that is not a digit; NaN when there is none.
   */
  function ParseUnsigned(u: string, negative: bool): (r: JsNumber)
    ensures |u| == 0 ==> r == NaN
    ensures |u| > 0 && IsDigit(u[0]) && !HexPrefixed(u) ==> r.Num? && (negative || r.value >= 0)
    ensures |u| > 0 && !IsDigit(u[0]) ==> r == NaN
  {
    var hex := HexPrefixed(u);
    var w := if hex then u[2..] else u;
    var n := DigitRun(w, hex);
    if n == 0 then NaN
    else
      var v: int := DigitsValue(w[..n], hex);
      Num(if negative then -v else v)
  }

  /**
   * JavaScript `parseInt` without a radix: skip leading whitespace, read an optional
   * sign, then the digits as `ParseUnsigned` reads them.
   */
  function ParseInt(s: string): (r: JsNumber)
    ensures var t := DropLeadingSpace(s); |t| == 0 ==> r == NaN
    ensures var t := DropLeadingSpace(s);
      |t| > 0 && IsDigit(t[0]) && !HexPrefixed(t) ==> r.Num? && r.value >= 0
    ensures var t := DropLeadingSpace(s);
      |t| > 0 && !IsDigit(t[0]) && t[0] != '-' && t[0] != '+' ==> r == NaN
  {
    var t := DropLeadingSpace(s);
    if |t| > 0 && (t[0] == '-' || t[0] == '+') then ParseUnsigned(t[1..], t[0] == '-')
    else ParseUnsigned(t, false)
  }

  /** A decimal numeral without surrounding text parses to its value. */
  lemma {:induction false} ParseIntOfNumeral(s: string)
    requires |s| > 0 && forall i :: 0 <= i < |s| ==> IsDigit(s[i])
    requires !HexPrefixed(s)
    ensures ParseInt(s) == Num(DigitsValue(s, false))
  {
    assert !IsJsSpace(s[0]);
    assert DropLeadingSpace(s) == s;
    assert DigitRun(s, false) == |s|;
    assert s[..|s|] == s;
  }

  /** The default page number parses as itself. */
  lemma ParseIntOfDefaultPage()
    ensures ParseInt("1") == Num(1)
  {
    ParseIntOfNumeral("1");
  }

  /** The default page size parses as itself. */
  lemma ParseIntOfDefaultLimit()
    ensures ParseInt("12") == Num(12)
  {
    var twelve := "12";
    assert IsDigit(twelve[0]) && IsDigit(twelve[1]);
    assert DigitsValue(twelve, false) == 12 by {
      assert twelve[..1] == "1";
    }
    ParseIntOfNumeral(twelve);
  }

  /** `Math.max` and `Math.min` with an integer: NaN is absorbing. */
  function MaxWith(a: int, x: JsNumber): (r: JsNumber)
    ensures x.NaN? <==> r.NaN?
    ensures r.Num? ==> r.value == Max(a, x.value)
  {
    if x.NaN? then NaN else Num(Max(a, x.value))
  }

  function MinWith(a: int, x: JsNumber): (r: JsNumber)
    ensures x.NaN? <==> r.NaN?
    ensures r.Num? ==> r.value == Min(a, x.value)
  {
    if x.NaN? then NaN else Num(Min(a, x.value))
  }

  datatype PageParams = PageParams(page: JsNumber, limit: JsNumber, skip: JsNumber)

  /** The number of rows before the given page. */
  function Offset(page: int, limit: int): int
  {
    (page - 1) * limit
  }

  /** The clamping `getPaginationParams` applies to the parsed page and limit. */
  function Clamp(parsedPage: JsNumber, parsedLimit: JsNumber): (p: PageParams)
    ensures p.page.NaN? <==> parsedPage.NaN?
    ensures p.limit.NaN? <==> parsedLimit.NaN?
    ensures p.page.Num? ==> p.page.value == Max(1, parsedPage.value)
    ensures p.limit.Num? ==> p.limit.value == Min(100, Max(1, parsedLimit.value))
    ensures p.page.Num? && p.limit.Num? ==> p.skip == Num(Offset(p.page.value, p.limit.value))
    ensures p.page.NaN? || p.limit.NaN? ==> p.skip.NaN?
  {
    var page := MaxWith(1, parsedPage);
    var limit := MinWith(100, MaxWith(1, parsedLimit));
    var skip := if page.NaN? || limit.NaN? then NaN else Num(Offset(page.value, limit.value));
    PageParams(page, limit, skip)
  }

  /** `getPaginationParams` as written: the query values are parsed with `parseInt` and clamped. */
  function GetPaginationParams(pageParam: Option<string>, limitParam: Option<string>): (p: PageParams)
    ensures p.page.NaN? <==> ParseInt(OrElse(pageParam, "1")).NaN?
    ensures p.limit.NaN? <==> ParseInt(OrElse(limitParam, "12")).NaN?
    ensures p.page.Num? ==> p.page.value >= 1
    ensures p.limit.Num? ==> 1 <= p.limit.value <= 100
    ensures p.page.Num? && p.limit.Num? ==> p.skip == Num(Offset(p.page.value, p.limit.value))
    ensures p.page.NaN? || p.limit.NaN? ==> p.skip.NaN?
  {
    Clamp(ParseInt(OrElse(pageParam, "1")), ParseInt(OrElse(limitParam, "12")))
  }

  /** Without query parameters the first page of twelve items is requested. */
  lemma PaginationDefaults(pageParam: Option<string>, limitParam: Option<string>)
    requires !Truthy(pageParam) && !Truthy(limitParam)
    ensures GetPaginationParams(pageParam, limitParam) == PageParams(Num(1), Num(12), Num(0))
  {
    ParseIntOfDefaultPage();
    ParseIntOfDefaultLimit();
  }

  /** Text whose first character is a letter or other non-numeric, non-blank character parses to NaN. */
  lemma ParseIntOfNonNumeric(s: string)
    requires |s| > 0 && !IsJsSpace(s[0]) && !IsDigit(s[0]) && s[0] != '-' && s[0] != '+'
    ensures ParseInt(s) == NaN
  {
    assert DropLeadingSpace(s) == s;
  }

  /**
   * A page parameter that does not start like a number (`abc`, say) reaches the query
   * as NaN, and so does the offset.
   */
  lemma NonNumericPageIsNaN(page: string, limitParam: Option<string>)
    requires |page| > 0 && !IsJsSpace(page[0]) && !IsDigit(page[0]) && page[0] != '-' && page[0] != '+'
    ensures GetPaginationParams(Some(page), limitParam).page == NaN
    ensures GetPaginationParams(Some(page), limitParam).skip == NaN
  {
    ParseIntOfNonNumeric(page);
    assert OrElse(Some(page), "1") == page;
  }

  /** The clamping the corrected helper applies: a value that did not parse is replaced by its default. */
  function ClampSafe(parsedPage: JsNumber, parsedLimit: JsNumber): (p: PageParams)
    ensures p.page.Num? && p.limit.Num? && p.skip.Num?
    ensures p.page.value >= 1 && 1 <= p.limit.value <= 100
    ensures p.skip.value == Offset(p.page.value, p.limit.value)
    ensures parsedPage.Num? ==> p.page == Clamp(parsedPage, parsedLimit).page
    ensures parsedLimit.Num? ==> p.limit == Clamp(parsedPage, parsedLimit).limit
  {
    var page := Max(1, if parsedPage.Num? then parsedPage.value else 1);
    var limit := Min(100, Max(1, if parsedLimit.Num? then parsedLimit.value else 12));
    PageParams(Num(page), Num(limit), Num(Offset(page, limit)))
  }

  /** The evidently intended helper: a parameter that does not parse falls back to its default. */
  function GetPaginationParamsSafe(pageParam: Option<string>, limitParam: Option<string>): (p: PageParams)
    ensures p.page.Num? && p.limit.Num? && p.skip.Num?
    ensures p.page.value >= 1 && 1 <= p.limit.value <= 100
    ensures p.skip.value == Offset(p.page.value, p.limit.value)
  {
    ClampSafe(ParseInt(OrElse(pageParam, "1")), ParseInt(OrElse(limitParam, "12")))
  }

  /** The corrected helper agrees with the one as written wherever that one yields numbers, and its offset is never negative. */
  lemma SafePaginationAgrees(pageParam: Option<string>, limitParam: Option<string>)
    ensures var w := GetPaginationParams(pageParam, limitParam);
      var c := GetPaginationParamsSafe(pageParam, limitParam);
      (w.page.Num? ==> c.page == w.page) && (w.limit.Num? ==> c.limit == w.limit)
        && (w.skip.Num? ==> c.skip == w.skip)
    ensures GetPaginationParamsSafe(pageParam, limitParam).skip.value >= 0
  {
    ClampSafeAgrees(ParseInt(OrElse(pageParam, "1")), ParseInt(OrElse(limitParam, "12")));
  }

  lemma ClampSafeAgrees(parsedPage: JsNumber, parsedLimit: JsNumber)
    ensures var w := Clamp(parsedPage, parsedLimit);
      var c := ClampSafe(parsedPage, parsedLimit);
      (w.page.Num? ==> c.page == w.page) && (w.limit.Num? ==> c.limit == w.limit)
        && (w.skip.Num? ==> c.skip == w.skip)
        && c.skip.value >= 0
  {
    var c := ClampSafe(parsedPage, parsedLimit);
    MulMonotone(0, c.page.value - 1, c.limit.value);
  }

  /** The `pagination` object; page, limit and the page count are NaN wherever the arithmetic of JavaScript makes them so. */
  datatype Pagination = Pagination(page: JsNumber, limit: JsNumber, total: nat, totalPages: JsNumber, hasNext: bool, hasPrev: bool)

  /** `Math.ceil(total / limit)` for a positive limit. */
  function CeilDiv(total: nat, limit: nat): (q: nat)
    requires limit >= 1
    ensures q * limit >= total
    ensures q == 0 || (q - 1) * limit < total
  {
    (total + limit - 1) / limit
  }

  /**
   * Pagination metadata for a page and limit as `GetPaginationParams` yields them: NaN or,
   * for the limit, a number of at least 1. A NaN limit makes the page count NaN, and any
   * comparison with NaN is false, so a NaN page clears both `hasNext` and `hasPrev` and a
   * NaN limit clears `hasNext`.
   */
  function PaginationResponse<T>(items: seq<T>, total: nat, page: JsNumber, limit: JsNumber): (r: (seq<T>, Pagination))
    requires limit.Num? ==> limit.value >= 1
    ensures r.0 == items
    ensures r.1.page == page && r.1.limit == limit && r.1.total == total
    ensures r.1.totalPages.NaN? <==> limit.NaN?
    ensures r.1.totalPages.Num? ==> var q := r.1.totalPages.value;
      q >= 0 && q * limit.value >= total && (q == 0 || (q - 1) * limit.value < total)
    ensures r.1.hasNext <==> page.Num? && limit.Num? && page.value * limit.value < total
    ensures r.1.hasPrev <==> page.Num? && page.value > 1
  {
    var totalPages := if limit.NaN? then NaN else Num(CeilDiv(total, limit.value));
    var hasNext := page.Num? && limit.Num? && page.value * limit.value < total;
    (items, Pagination(page, limit, total, totalPages, hasNext, page.Num? && page.value > 1))
  }

  /** A listing request whose page does not start like a number is answered with neither a next nor a previous page. */
  lemma NonNumericPageLosesNavigation<T>(page: string, limitParam: Option<string>, items: seq<T>, total: nat)
    requires |page| > 0 && !IsJsSpace(page[0]) && !IsDigit(page[0]) && page[0] != '-' && page[0] != '+'
    ensures var p := GetPaginationParams(Some(page), limitParam);
      var r := PaginationResponse(items, total, p.page, p.limit).1;
      r.page == NaN && !r.hasNext && !r.hasPrev
  {
    NonNumericPageIsNaN(page, limitParam);
  }

  /** A listing request whose limit does not start like a number is answered with a NaN page count and no next page. */
  lemma NonNumericLimitLosesPageCount<T>(pageParam: Option<string>, limit: string, items: seq<T>, total: nat)
    requires |limit| > 0 && !IsJsSpace(limit[0]) && !IsDigit(limit[0]) && limit[0] != '-' && limit[0] != '+'
    ensures var p := GetPaginationParams(pageParam, Some(limit));
      var r := PaginationResponse(items, total, p.page, p.limit).1;
      r.limit == NaN && r.totalPages == NaN && !r.hasNext
  {
    ParseIntOfNonNumeric(limit);
    assert OrElse(Some(limit), "12") == limit;
  }

  lemma MulMonotone(a: int, b: int, k: nat)
    requires a <= b
    ensures a * k <= b * k
  {
  }

  /** For a page number of at least 1, there is a next page exactly when the page is before the last one. */
  lemma HasNextIffBeforeLastPage<T>(items: seq<T>, total: nat, page: int, limit: int)
    requires limit >= 1 && page >= 1
    ensures var r := PaginationResponse(items, total, Num(page), Num(limit)).1;
      r.totalPages.Num? && (r.hasNext <==> page < r.totalPages.value)
  {
    var tp := CeilDiv(total, limit);
    if page < tp {
      MulMonotone(page, tp - 1, limit);
    } else {
      MulMonotone(tp, page, limit);
    }
  }
}
