/** The client's error hierarchy, the mapping from an HTTP status to an
    error kind, and the exceptions a tool call can meet. */
module Errors {
  import opened Wrappers
  import opened Decimal
  import opened Models

  /** `KakaoClientError` and its three subclasses, told apart by tag. The
      base class is raised in one place only, for an unmapped status, so its
      constructor keeps that status and the httpx error text. */
  datatype ClientError =
    | BadRequest(detail: string)
    | Auth(detail: string)
    | RateLimit(detail: string)
    | Unexpected(status: int, detail: string)

  const BadRequestPrefix := "Bad request: "
  const AuthPrefix := "Auth error: "
  const RateLimitPrefix := "Rate limited: "
  const UnexpectedHead := "Unexpected error [status_code="
  const ErrorField := " error="

  /** The exception's message, which `str()` returns: the kind's prefix, then
      the httpx error text; the base kind wraps status and text in brackets. */
  function Message(e: ClientError): (m: string)
    ensures e.BadRequest? ==> BadRequestPrefix <= m
    ensures e.Auth? ==> AuthPrefix <= m
    ensures e.RateLimit? ==> RateLimitPrefix <= m
    ensures !e.Unexpected? ==> |e.detail| <= |m| && m[|m| - |e.detail|..] == e.detail
    ensures e.Unexpected? ==> UnexpectedHead <= m && m[|m| - 1] == ']'
  {
    match e
    case BadRequest(d) => BadRequestPrefix + d
    case Auth(d) => AuthPrefix + d
    case RateLimit(d) => RateLimitPrefix + d
    case Unexpected(s, d) =>
      // "Unexpected error [status_code=<s>, error=<d>]"
      UnexpectedHead + (ShowInt(s) + [','] + (ErrorField + (d + "]")))
  }

  /** The status each kind is keyed by. */
  function KeyedStatus(e: ClientError): int {
    match e
    case BadRequest(_) => 400
    case Auth(_) => 401
    case RateLimit(_) => 420
    case Unexpected(s, _) => s
  }

  /** `_handle_response_status`: `None` is the fall-through that raises nothing.
      `errorText` is `str(http_error)`, the text of the status error httpx raised. */
  function ClassifyStatus(status: int, errorText: string): (r: Option<ClientError>)
    ensures r.None? <==> status == 200
    ensures status == 400 ==> r.Some? && r.value.BadRequest? && Message(r.value) == "Bad request: " + errorText
    ensures status == 401 ==> r.Some? && r.value.Auth? && Message(r.value) == "Auth error: " + errorText
    ensures status == 420 ==> r.Some? && r.value.RateLimit? && Message(r.value) == "Rate limited: " + errorText
    ensures status !in {200, 400, 401, 420} ==>
      r.Some? && r.value.Unexpected? && Message(r.value) == "Unexpected error [status_code=" + ShowInt(status) + ", error=" + errorText + "]"
    ensures r.Some? ==> KeyedStatus(r.value) == status && r.value.detail == errorText
  {
    if status == 400 then Some(BadRequest(errorText))
    else if status == 401 then Some(Auth(errorText))
    else if status == 420 then Some(RateLimit(errorText))
    else if status != 200 then Some(Unexpected(status, errorText))
    else None
  }

  /** If `a + [sep] + x == b + [sep] + y` and neither `a` nor `b` holds `sep`,
      the split is the same on both sides. */
  lemma {:induction false} SplitAtSeparator(a: string, x: string, b: string, y: string, sep: char)
    requires sep !in a && sep !in b
    requires a + [sep] + x == b + [sep] + y
    ensures a == b && x == y
  {
    var u := a + [sep] + x;
    SeparatorPosition(a, x, sep);
    SeparatorPosition(b, y, sep);
    assert |a| >= |b|;
    assert |b| >= |a|;
    assert a == u[..|a|] == b;
    assert x == u[|a| + 1..] == y;
  }

  lemma SeparatorPosition(a: string, x: string, sep: char)
    requires sep !in a
    ensures (a + [sep] + x)[|a|] == sep
    ensures forall i :: 0 <= i < |a| ==> (a + [sep] + x)[i] != sep
  {
    assert forall i :: 0 <= i < |a| ==> (a + [sep] + x)[i] == a[i];
  }

  lemma PrefixCancel(p: string, a: string, b: string)
    requires p + a == p + b
    ensures a == b
  {
    assert a == (p + a)[|p|..];
  }

  /** The first character of a message already tells the kind. */
  lemma MessageHead(e: ClientError)
    ensures 0 < |Message(e)|
    ensures Message(e)[0] == match e
      case BadRequest(_) => 'B' case Auth(_) => 'A' case RateLimit(_) => 'R' case Unexpected(_, _) => 'U'
  {
  }

  lemma UnexpectedMessageInjective(s1: int, d1: string, s2: int, d2: string)
    requires Message(Unexpected(s1, d1)) == Message(Unexpected(s2, d2))
    ensures s1 == s2 && d1 == d2
  {
    var n1, n2 := ShowInt(s1), ShowInt(s2);
    var t1, t2 := ErrorField + (d1 + "]"), ErrorField + (d2 + "]");
    PrefixCancel(UnexpectedHead, n1 + [','] + t1, n2 + [','] + t2);
    assert ',' !in n1 && ',' !in n2;
    SplitAtSeparator(n1, t1, n2, t2, ',');
    ShowIntInjective(s1, s2);
    PrefixCancel(ErrorField, d1 + "]", d2 + "]");
    assert d1 == (d1 + "]")[..|d1|];
    assert d2 == (d2 + "]")[..|d2|];
  }

  /** Messages lose nothing: the text determines the kind, the status and the
      text of the httpx error. */
  lemma MessageInjective(e1: ClientError, e2: ClientError)
    ensures Message(e1) == Message(e2) <==> e1 == e2
  {
    if Message(e1) == Message(e2) {
      MessageHead(e1);
      MessageHead(e2);
      match e1
      case BadRequest(d1) =>
        PrefixCancel(BadRequestPrefix, d1, e2.detail);
      case Auth(d1) =>
        PrefixCancel(AuthPrefix, d1, e2.detail);
      case RateLimit(d1) =>
        PrefixCancel(RateLimitPrefix, d1, e2.detail);
      case Unexpected(s1, d1) =>
        UnexpectedMessageInjective(s1, d1, e2.status, e2.detail);
    }
  }

  /** Classification loses nothing either: every error it raises is keyed by
      the status it was given and carries the httpx error text. */
  lemma ClassifyDistinguishes(s1: int, u1: string, s2: int, u2: string)
    requires s1 != 200 && s2 != 200
    ensures Message(ClassifyStatus(s1, u1).value) == Message(ClassifyStatus(s2, u2).value)
      <==> s1 == s2 && u1 == u2
  {
    MessageInjective(ClassifyStatus(s1, u1).value, ClassifyStatus(s2, u2).value);
  }

  /** Every exception a tool body can meet. */
  datatype Exception =
    | ClientFailure(error: ClientError)
      /** The transport could not complete the request. */
    | TransportFailure(reason: string)
      /** A successful status whose body is not JSON of the expected shape. */
    | DecodeFailure(reason: string)
      /** A record's constraints failed at the listed locations. */
    | ValidationFailure(model: string, locations: seq<Path>)
      /** A bare `assert` that did not hold; its message is empty. */
    | AssertionFailure

  function ShowPath(p: Path): string {
    if |p| == 0 then ""
    else
      var part := match p[0] case Key(f) => f.Name() case Index(i) => ShowNat(i);
      if |p| == 1 then part else part + "." + ShowPath(p[1..])
  }

  function ShowPaths(ps: seq<Path>): string {
    if |ps| == 0 then "" else "\n" + ShowPath(ps[0]) + ShowPaths(ps[1..])
  }

  /** `str(ex)`: a client error's message, the reason of a transport or
      decoding failure, the validation summary, or nothing for a bare assert. */
  function ExceptionText(ex: Exception): (t: string)
    ensures ex.ClientFailure? ==> t == Message(ex.error)
    ensures ex.TransportFailure? || ex.DecodeFailure? ==> t == ex.reason
    ensures ex.ValidationFailure? ==> ShowNat(|ex.locations|) <= t
    ensures ex.AssertionFailure? ==> t == ""
  {
    match ex
    case ClientFailure(e) => Message(e)
    case TransportFailure(reason) => reason
    case DecodeFailure(reason) => reason
    case ValidationFailure(model, locations) =>
      ShowNat(|locations|) + " validation errors for " + model + ShowPaths(locations)
    case AssertionFailure => ""
  }
}
