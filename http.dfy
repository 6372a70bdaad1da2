/** The part of net/http the library touches: a response writer reduced to the
    record it builds up, and the table of status codes behind the per-status
    convenience operations. */
module Http {
  import opened Wrappers

  /** The header the library supplies a default for. */
  const ContentTypeKey := "Content-Type"

  /** A response writer: the header map, the status line written (0 before
      WriteHeader) and the bytes written to the body so far. Header keys are
      exact strings (no canonicalisation). */
  class Writer {
    var header: map<string, string>
    var status: int
    var body: string

    constructor ()
      ensures header == map[] && status == 0 && body == ""
    {
      header, status, body := map[], 0, "";
    }

    /** Header().Set(key, value): replaces any value under that key. */
    method Set(key: string, value: string)
      modifies this
      ensures header == old(header)[key := value]
      ensures status == old(status) && body == old(body)
    {
      header := header[key := value];
    }

    method WriteHeader(code: int)
      modifies this
      ensures status == code
      ensures header == old(header) && body == old(body)
    {
      status := code;
    }

    /** fmt.Fprint onto the writer: appends to the body. */
    method Write(s: string)
      modifies this
      ensures body == old(body) + s
      ensures header == old(header) && status == old(status)
    {
      body := body + s;
    }
  }

  /** The statuses that have a convenience operation, on both emit paths. */
  datatype Status =
    | Continue | SwitchingProtocols
    | OK | Created | Accepted | NonAuthoritativeInfo | NoContent | ResetContent | PartialContent
    | MultipleChoices | MovedPermanently | Found | SeeOther | NotModified | UseProxy | TemporaryRedirect
    | BadRequest | Unauthorized | PaymentRequired | Forbidden | NotFound | MethodNotAllowed
    | NotAcceptable | ProxyAuthRequired | RequestTimeout | Conflict | Gone | LengthRequired
    | PreconditionFailed | RequestEntityTooLarge | RequestURITooLong | UnsupportedMediaType
    | RequestedRangeNotSatisfiable | ExpectationFailed | Teapot
    | InternalServerError | NotImplemented | BadGateway | ServiceUnavailable | GatewayTimeout
    | HTTPVersionNotSupported

  /** The fixed code each convenience operation passes on. */
  function Code(s: Status): (c: int)
    ensures 100 <= c <= 505
  {
    match s
    case Continue => 100
    case SwitchingProtocols => 101
    case OK => 200
    case Created => 201
    case Accepted => 202
    case NonAuthoritativeInfo => 203
    case NoContent => 204
    case ResetContent => 205
    case PartialContent => 206
    case MultipleChoices => 300
    case MovedPermanently => 301
    case Found => 302
    case SeeOther => 303
    case NotModified => 304
    case UseProxy => 305
    case TemporaryRedirect => 307
    case BadRequest => 400
    case Unauthorized => 401
    case PaymentRequired => 402
    case Forbidden => 403
    case NotFound => 404
    case MethodNotAllowed => 405
    case NotAcceptable => 406
    case ProxyAuthRequired => 407
    case RequestTimeout => 408
    case Conflict => 409
    case Gone => 410
    case LengthRequired => 411
    case PreconditionFailed => 412
    case RequestEntityTooLarge => 413
    case RequestURITooLong => 414
    case UnsupportedMediaType => 415
    case RequestedRangeNotSatisfiable => 416
    case ExpectationFailed => 417
    case Teapot => 418
    case InternalServerError => 500
    case NotImplemented => 501
    case BadGateway => 502
    case ServiceUnavailable => 503
    case GatewayTimeout => 504
    case HTTPVersionNotSupported => 505
  }

  /** The inverse of the table: which convenience operation emits code `c`, if any. */
  function FromCode(c: int): Option<Status>
  {
    match c
    case 100 => Some(Continue)
    case 101 => Some(SwitchingProtocols)
    case 200 => Some(OK)
    case 201 => Some(Created)
    case 202 => Some(Accepted)
    case 203 => Some(NonAuthoritativeInfo)
    case 204 => Some(NoContent)
    case 205 => Some(ResetContent)
    case 206 => Some(PartialContent)
    case 300 => Some(MultipleChoices)
    case 301 => Some(MovedPermanently)
    case 302 => Some(Found)
    case 303 => Some(SeeOther)
    case 304 => Some(NotModified)
    case 305 => Some(UseProxy)
    case 307 => Some(TemporaryRedirect)
    case 400 => Some(BadRequest)
    case 401 => Some(Unauthorized)
    case 402 => Some(PaymentRequired)
    case 403 => Some(Forbidden)
    case 404 => Some(NotFound)
    case 405 => Some(MethodNotAllowed)
    case 406 => Some(NotAcceptable)
    case 407 => Some(ProxyAuthRequired)
    case 408 => Some(RequestTimeout)
    case 409 => Some(Conflict)
    case 410 => Some(Gone)
    case 411 => Some(LengthRequired)
    case 412 => Some(PreconditionFailed)
    case 413 => Some(RequestEntityTooLarge)
    case 414 => Some(RequestURITooLong)
    case 415 => Some(UnsupportedMediaType)
    case 416 => Some(RequestedRangeNotSatisfiable)
    case 417 => Some(ExpectationFailed)
    case 418 => Some(Teapot)
    case 500 => Some(InternalServerError)
    case 501 => Some(NotImplemented)
    case 502 => Some(BadGateway)
    case 503 => Some(ServiceUnavailable)
    case 504 => Some(GatewayTimeout)
    case 505 => Some(HTTPVersionNotSupported)
    case _ => None
  }

  /** Every convenience operation is found again from its code. */
  lemma CodeRoundTrip(s: Status)
    ensures FromCode(Code(s)) == Some(s)
  {
  }

  /** A code that names a convenience operation is that operation's code. */
  lemma FromCodeSound(c: int)
    ensures FromCode(c).Some? ==> Code(FromCode(c).value) == c
  {
  }

  /** No two convenience operations share a code. */
  lemma CodeInjective(s: Status, t: Status)
    requires Code(s) == Code(t)
    ensures s == t
  {
    CodeRoundTrip(s);
    CodeRoundTrip(t);
  }
}
