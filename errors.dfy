/**
 * The unified error model of the Firefox Accounts client: a closed set of
 * error kinds, each with its display template, the `Error` value that wraps
 * one kind, and the conversions that turn each recognised library error into
 * the one adapter kind meant for it.
 */
module Errors {
  import opened Wrappers
  import opened Fmt
  import Foreign
  import Failure

  newtype u64 = x: int | 0 <= x < 0x1_0000_0000_0000_0000

  /**
   * `usize` is given the range of `u64`, which contains its range on every
   * target; nothing here does arithmetic on these fields, and their decimal
   * rendering does not depend on the width.
   */
  newtype usize = x: int | 0 <= x < 0x1_0000_0000_0000_0000

  // The messages of the kinds that carry nothing, each a template without a hole.
  const UnknownOAuthStateText := "Unknown OAuth State"
  const TokenWithoutKeysText := "The client requested keys alongside the token but they were not included"
  const NotMarriedText := "Login state needs to be Married for the current operation"
  const UnrecoverableServerErrorText := "Unrecoverable server error"
  const EmptyOAuthScopeNamesText := "Empty names"
  const HmacMismatchText := "SHA256 HMAC Mismatch error"
  const AudienceURLWithoutHostText := "Audience URL without a host"
  const JWTSignatureValidationFailedText := "JWT signature validation failed"

  /** A cause that an adapter kind exposes: the library error it wraps. */
  datatype AdapterCause =
    | HexCause(hex: Foreign.FromHexError)
    | OpensslCause(openssl: Foreign.ErrorStack)
    | Base64Cause(base64: Foreign.DecodeError)
    | JsonCause(json: Foreign.SerdeJsonError)
    | Utf8Cause(utf8: Foreign.FromUtf8Error)
    | RequestCause(request: Foreign.ReqwestError)
    | UrlCause(url: Foreign.UrlError)
    | HawkCause(hawk: Failure.SyncFailure<Foreign.HawkError>)
    | JoseCause(jose: Failure.SyncFailure<Foreign.JoseError>)
  {
    /** The cause's own rendering. */
    function Msg(): string {
      match this
      case HexCause(e) => e.Msg()
      case OpensslCause(e) => e.Msg()
      case Base64Cause(e) => e.Msg()
      case JsonCause(e) => e.Msg()
      case Utf8Cause(e) => e.Msg()
      case RequestCause(e) => e.Msg()
      case UrlCause(e) => e.Msg()
      case HawkCause(s) => s.Msg((h: Foreign.HawkError) => h.Msg())
      case JoseCause(s) => s.Msg((j: Foreign.JoseError) => j.Msg())
    }

    /** Whether the cause is a library error boxed in a `SyncFailure`. */
    predicate IsSync() {
      HawkCause? || JoseCause?
    }
  }

  datatype ErrorKind =
    | UnknownOAuthState
    | TokenWithoutKeys
    | NotMarried
    | NoCachedToken(scope: string)
    | UnrecoverableServerError
    | InvalidOAuthScopeValue(value: string)
    | EmptyOAuthScopeNames
    | HmacMismatch
    | BadKeyLength(name: string, got: usize, expected: usize)
    | XorLengthMismatch(left: usize, right: usize)
    | AudienceURLWithoutHost
    | JWTSignatureValidationFailed
    | RemoteError(code: u64, errno: u64, error: string, message: string, info: string)
    | HexDecodeError(hex: Foreign.FromHexError)
    | OpensslError(openssl: Foreign.ErrorStack)
    | Base64Decode(base64: Foreign.DecodeError)
    | JsonError(json: Foreign.SerdeJsonError)
    | UTF8DecodeError(utf8: Foreign.FromUtf8Error)
    | RequestError(request: Foreign.ReqwestError)
    | MalformedUrl(url: Foreign.UrlError)
    | HawkError(hawk: Failure.SyncFailure<Foreign.HawkError>)
    | JoseError(jose: Failure.SyncFailure<Foreign.JoseError>)
  {
    /** The adapter kinds: those that exist to carry one library error. */
    predicate IsAdapter() {
      HexDecodeError? || OpensslError? || Base64Decode? || JsonError? || UTF8DecodeError?
      || RequestError? || MalformedUrl? || HawkError? || JoseError?
    }

    /** The kinds whose template has no hole. */
    predicate IsConstant() {
      UnknownOAuthState? || TokenWithoutKeys? || NotMarried? || UnrecoverableServerError?
      || EmptyOAuthScopeNames? || HmacMismatch? || AudienceURLWithoutHost? || JWTSignatureValidationFailed?
    }

    /**
     * The kind's display template, cut at its holes, with its arguments
     * rendered in the order the declaration lists them.
     */
    function DisplayArgs(): (f: Arguments)
      ensures f.WellFormed()
    {
      match this
      case UnknownOAuthState => Arguments([UnknownOAuthStateText], [])
      case TokenWithoutKeys => Arguments([TokenWithoutKeysText], [])
      case NotMarried => Arguments([NotMarriedText], [])
      case NoCachedToken(scope) => Arguments(["No cached token for scope ", ""], [scope])
      case UnrecoverableServerError => Arguments([UnrecoverableServerErrorText], [])
      case InvalidOAuthScopeValue(value) => Arguments(["Invalid OAuth scope value ", ""], [value])
      case EmptyOAuthScopeNames => Arguments([EmptyOAuthScopeNamesText], [])
      case HmacMismatch => Arguments([HmacMismatchText], [])
      case BadKeyLength(name, got, expected) =>
        Arguments(["Key ", " had wrong length, got ", ", expected ", ""],
                  [name, Dec(got as int), Dec(expected as int)])
      case XorLengthMismatch(a, b) =>
        Arguments(["Cannot xor arrays with different lengths: ", " and ", ""], [Dec(a as int), Dec(b as int)])
      case AudienceURLWithoutHost => Arguments([AudienceURLWithoutHostText], [])
      case JWTSignatureValidationFailed => Arguments([JWTSignatureValidationFailedText], [])
      case RemoteError(code, errno, error, message, info) =>
        Arguments(["Remote server error: '", "' '", "' '", "' '", "' '", "'"],
                  [Dec(code as int), Dec(errno as int), error, message, info])
      // Every adapter kind's template is its label, ": " and one hole for the
      // error it wraps.
      case _ => Arguments([Label() + ": ", ""], [Cause().value.Msg()])
    }

    /**
     * The kind's `Display` rendering: its template with the arguments in its
     * holes. It always begins with the template's leading text, and a kind
     * without a hole renders exactly that text.
     */
    function Display(): (s: string)
      ensures DisplayArgs().pieces[0] <= s
      ensures |DisplayArgs().args| == 0 ==> s == DisplayArgs().pieces[0]
    {
      DisplayArgs().Render()
    }

    /** The label an adapter kind puts before the rendering of the error it wraps. */
    function Label(): string
      requires IsAdapter()
    {
      match this
      case HexDecodeError(_) => "Hex decode error"
      case OpensslError(_) => "OpenSSL error"
      case Base64Decode(_) => "Base64 decode error"
      case JsonError(_) => "JSON parse error"
      case UTF8DecodeError(_) => "UTF8 decode error"
      case RequestError(_) => "Network error"
      case MalformedUrl(_) => "Malformed URL error"
      case HawkError(_) => "HAWK error"
      case JoseError(_) => "JOSE error"
    }

    /**
     * The kind's own cause: the wrapped library error of an adapter kind, and
     * nothing for a domain kind.
     */
    function Cause(): (c: Option<AdapterCause>)
      ensures c.Some? <==> IsAdapter()
      ensures c.Some? ==> (c.value.IsSync() <==> HawkError? || JoseError?)
      ensures HexDecodeError? ==> c == Some(HexCause(hex))
      ensures OpensslError? ==> c == Some(OpensslCause(openssl))
      ensures Base64Decode? ==> c == Some(Base64Cause(base64))
      ensures JsonError? ==> c == Some(JsonCause(json))
      ensures UTF8DecodeError? ==> c == Some(Utf8Cause(utf8))
      ensures RequestError? ==> c == Some(RequestCause(request))
      ensures MalformedUrl? ==> c == Some(UrlCause(url))
      ensures HawkError? ==> c == Some(HawkCause(hawk))
      ensures JoseError? ==> c == Some(JoseCause(jose))
    {
      match this
      case HexDecodeError(e) => Some(HexCause(e))
      case OpensslError(e) => Some(OpensslCause(e))
      case Base64Decode(e) => Some(Base64Cause(e))
      case JsonError(e) => Some(JsonCause(e))
      case UTF8DecodeError(e) => Some(Utf8Cause(e))
      case RequestError(e) => Some(RequestCause(e))
      case MalformedUrl(e) => Some(UrlCause(e))
      case HawkError(s) => Some(HawkCause(s))
      case JoseError(s) => Some(JoseCause(s))
      case _ => None
    }
  }

  /** The error value the client propagates: one kind inside a `failure` context. */
  datatype Error = Error(inner: Failure.Context<ErrorKind>) {

    function Kind(): ErrorKind {
      inner.GetContext()
    }

    /** The context's own cause (not the kind's). */
    function Cause(): Option<Failure.Fail> {
      inner.Cause()
    }

    /** An error renders exactly as its kind. */
    function Display(): (s: string)
      ensures s == Kind().Display()
    {
      inner.Msg((k: ErrorKind) => k.Display())
    }

    /** `From<ErrorKind>`: a fresh context around the kind, chained onto nothing. */
    static function FromKind(kind: ErrorKind): (e: Error)
      ensures e.Kind() == kind
      ensures e.Cause().None?
      ensures e.Display() == kind.Display()
    {
      Error(Failure.Context.New(kind))
    }

    /** `From<Context<ErrorKind>>`: the context is kept as it is. */
    static function FromContext(c: Failure.Context<ErrorKind>): (e: Error)
      ensures e.Kind() == c.GetContext()
      ensures e.Cause() == c.Cause()
    {
      Error(c)
    }
  }

  // The `From` conversions of each library error, first to its adapter kind,
  // then to an `Error` through that kind.

  function HexToKind(e: Foreign.FromHexError): (k: ErrorKind)
    ensures k.HexDecodeError? && k.Cause() == Some(HexCause(e))
  {
    HexDecodeError(e)
  }

  function HexToError(e: Foreign.FromHexError): (r: Error)
    ensures r.Kind() == HexToKind(e)
    ensures r.Cause().None?
    ensures r.Display() == "Hex decode error: " + e.Msg()
  {
    AdapterDisplay(HexToKind(e));
    Error.FromKind(HexToKind(e))
  }

  function OpensslToKind(e: Foreign.ErrorStack): (k: ErrorKind)
    ensures k.OpensslError? && k.Cause() == Some(OpensslCause(e))
  {
    OpensslError(e)
  }

  function OpensslToError(e: Foreign.ErrorStack): (r: Error)
    ensures r.Kind() == OpensslToKind(e)
    ensures r.Cause().None?
    ensures r.Display() == "OpenSSL error: " + e.Msg()
  {
    AdapterDisplay(OpensslToKind(e));
    Error.FromKind(OpensslToKind(e))
  }

  function Base64ToKind(e: Foreign.DecodeError): (k: ErrorKind)
    ensures k.Base64Decode? && k.Cause() == Some(Base64Cause(e))
  {
    Base64Decode(e)
  }

  function Base64ToError(e: Foreign.DecodeError): (r: Error)
    ensures r.Kind() == Base64ToKind(e)
    ensures r.Cause().None?
    ensures r.Display() == "Base64 decode error: " + e.Msg()
  {
    AdapterDisplay(Base64ToKind(e));
    Error.FromKind(Base64ToKind(e))
  }

  function JsonToKind(e: Foreign.SerdeJsonError): (k: ErrorKind)
    ensures k.JsonError? && k.Cause() == Some(JsonCause(e))
  {
    JsonError(e)
  }

  function JsonToError(e: Foreign.SerdeJsonError): (r: Error)
    ensures r.Kind() == JsonToKind(e)
    ensures r.Cause().None?
    ensures r.Display() == "JSON parse error: " + e.Msg()
  {
    AdapterDisplay(JsonToKind(e));
    Error.FromKind(JsonToKind(e))
  }

  function Utf8ToKind(e: Foreign.FromUtf8Error): (k: ErrorKind)
    ensures k.UTF8DecodeError? && k.Cause() == Some(Utf8Cause(e))
  {
    UTF8DecodeError(e)
  }

  function Utf8ToError(e: Foreign.FromUtf8Error): (r: Error)
    ensures r.Kind() == Utf8ToKind(e)
    ensures r.Cause().None?
    ensures r.Display() == "UTF8 decode error: " + e.Msg()
  {
    AdapterDisplay(Utf8ToKind(e));
    Error.FromKind(Utf8ToKind(e))
  }

  function RequestToKind(e: Foreign.ReqwestError): (k: ErrorKind)
    ensures k.RequestError? && k.Cause() == Some(RequestCause(e))
  {
    RequestError(e)
  }

  function RequestToError(e: Foreign.ReqwestError): (r: Error)
    ensures r.Kind() == RequestToKind(e)
    ensures r.Cause().None?
    ensures r.Display() == "Network error: " + e.Msg()
  {
    AdapterDisplay(RequestToKind(e));
    Error.FromKind(RequestToKind(e))
  }

  function UrlToKind(e: Foreign.UrlError): (k: ErrorKind)
    ensures k.MalformedUrl? && k.Cause() == Some(UrlCause(e))
  {
    MalformedUrl(e)
  }

  function UrlToError(e: Foreign.UrlError): (r: Error)
    ensures r.Kind() == UrlToKind(e)
    ensures r.Cause().None?
    ensures r.Display() == "Malformed URL error: " + e.Msg()
  {
    AdapterDisplay(UrlToKind(e));
    Error.FromKind(UrlToKind(e))
  }

  /** A `hawk::Error` is boxed in a `SyncFailure` before it is stored. */
  function HawkToKind(e: Foreign.HawkError): (k: ErrorKind)
    ensures k.HawkError? && k.hawk.inner == e
    ensures k.Cause() == Some(HawkCause(k.hawk)) && k.Cause().value.IsSync()
  {
    HawkError(Failure.SyncFailure.New(e))
  }

  function HawkToError(e: Foreign.HawkError): (r: Error)
    ensures r.Kind() == HawkToKind(e)
    ensures r.Cause().None?
    ensures r.Display() == "HAWK error: " + e.Msg()
  {
    AdapterDisplay(HawkToKind(e));
    Error.FromKind(HawkToKind(e))
  }

  /** A `jose::error::Error` is boxed in a `SyncFailure` before it is stored. */
  function JoseToKind(e: Foreign.JoseError): (k: ErrorKind)
    ensures k.JoseError? && k.jose.inner == e
    ensures k.Cause() == Some(JoseCause(k.jose)) && k.Cause().value.IsSync()
  {
    JoseError(Failure.SyncFailure.New(e))
  }

  function JoseToError(e: Foreign.JoseError): (r: Error)
    ensures r.Kind() == JoseToKind(e)
    ensures r.Cause().None?
    ensures r.Display() == "JOSE error: " + e.Msg()
  {
    AdapterDisplay(JoseToKind(e));
    Error.FromKind(JoseToKind(e))
  }

  // What the display templates render.

  /** An adapter kind renders as its label, `": "`, and the rendering of the error it wraps. */
  lemma AdapterDisplay(k: ErrorKind)
    requires k.IsAdapter()
    ensures k.Display() == k.Label() + ": " + k.Cause().value.Msg()
  {
    Render1(k.Label() + ": ", "", k.Cause().value.Msg());
  }

  /** The message of every kind without arguments is its single piece of text. */
  lemma ConstantMessages()
    ensures UnknownOAuthState.Display() == "Unknown OAuth State"
    ensures TokenWithoutKeys.Display() == "The client requested keys alongside the token but they were not included"
    ensures NotMarried.Display() == "Login state needs to be Married for the current operation"
    ensures UnrecoverableServerError.Display() == "Unrecoverable server error"
    ensures EmptyOAuthScopeNames.Display() == "Empty names"
    ensures HmacMismatch.Display() == "SHA256 HMAC Mismatch error"
    ensures AudienceURLWithoutHost.Display() == "Audience URL without a host"
    ensures JWTSignatureValidationFailed.Display() == "JWT signature validation failed"
  {
  }

  /** Exactly the constant kinds have a template without a hole. */
  lemma ConstantKindsHaveNoHoles(k: ErrorKind)
    ensures k.IsConstant() <==> |k.DisplayArgs().args| == 0
  {
  }

  lemma NoCachedTokenDisplay(scope: string)
    ensures NoCachedToken(scope).Display() == "No cached token for scope " + scope
  {
    Render1("No cached token for scope ", "", scope);
  }

  lemma InvalidOAuthScopeValueDisplay(value: string)
    ensures InvalidOAuthScopeValue(value).Display() == "Invalid OAuth scope value " + value
  {
    Render1("Invalid OAuth scope value ", "", value);
  }

  /** The key's name comes first, then the length it had, then the length it should have had. */
  lemma BadKeyLengthDisplay(name: string, got: usize, expected: usize)
    ensures BadKeyLength(name, got, expected).Display()
      == "Key " + name + " had wrong length, got " + Dec(got as int) + ", expected " + Dec(expected as int)
  {
    Render3("Key ", " had wrong length, got ", ", expected ", "", name, Dec(got as int), Dec(expected as int));
  }

  lemma XorLengthMismatchDisplay(a: usize, b: usize)
    ensures XorLengthMismatch(a, b).Display()
      == "Cannot xor arrays with different lengths: " + Dec(a as int) + " and " + Dec(b as int)
  {
    Render2("Cannot xor arrays with different lengths: ", " and ", "", Dec(a as int), Dec(b as int));
  }

  /** The five fields of a remote error appear quoted, in declaration order. */
  lemma RemoteErrorDisplay(code: u64, errno: u64, error: string, message: string, info: string)
    ensures RemoteError(code, errno, error, message, info).Display()
      == "Remote server error: '" + Dec(code as int) + "' '" + Dec(errno as int) + "' '"
         + error + "' '" + message + "' '" + info + "'"
  {
    Render5("Remote server error: '", "' '", "' '", "' '", "' '", "'",
      Dec(code as int), Dec(errno as int), error, message, info);
  }

  lemma BadKeyLengthExample()
    ensures BadKeyLength("enc_key", 16, 32).Display()
      == "Key " + "enc_key" + " had wrong length, got " + "16" + ", expected " + "32"
  {
  }

  lemma RemoteErrorExample()
    ensures RemoteError(200, 0, "", "", "").Display()
      == "Remote server error: '" + "200" + "' '" + "0" + "' '" + "" + "' '" + "" + "' '" + "" + "'"
  {
    assert Dec(2) == "2" && Dec(20) == "20" && Dec(200) == "200";
    assert Dec(0) == "0";
    RemoteErrorDisplay(200, 0, "", "", "");
  }

  lemma RemoteErrorWithTextExample()
    ensures RemoteError(400, 102, "Bad Request", "Unknown account", "").Display()
      == "Remote server error: '" + "400" + "' '" + "102" + "' '"
         + "Bad Request" + "' '" + "Unknown account" + "' '" + "" + "'"
  {
    assert Dec(4) == "4" && Dec(40) == "40" && Dec(400) == "400";
    assert Dec(1) == "1" && Dec(10) == "10" && Dec(102) == "102";
    RemoteErrorDisplay(400, 102, "Bad Request", "Unknown account", "");
  }

  // How an `Error` is put together.

  /** An `Error` is determined by its kind and its context's cause. */
  lemma ErrorDeterminedByKindAndCause(a: Error, b: Error)
    requires a.Kind() == b.Kind() && a.Cause() == b.Cause()
    ensures a == b
  {
  }

  /**
   * Converting a library error straight to an `Error` is the same as
   * converting it to its kind and lifting that kind.
   */
  lemma ConversionsFactorThroughKind(
    hex: Foreign.FromHexError, openssl: Foreign.ErrorStack, base64: Foreign.DecodeError,
    json: Foreign.SerdeJsonError, utf8: Foreign.FromUtf8Error, request: Foreign.ReqwestError,
    url: Foreign.UrlError, hawk: Foreign.HawkError, jose: Foreign.JoseError)
    ensures HexToError(hex) == Error.FromKind(HexToKind(hex))
    ensures OpensslToError(openssl) == Error.FromKind(OpensslToKind(openssl))
    ensures Base64ToError(base64) == Error.FromKind(Base64ToKind(base64))
    ensures JsonToError(json) == Error.FromKind(JsonToKind(json))
    ensures Utf8ToError(utf8) == Error.FromKind(Utf8ToKind(utf8))
    ensures RequestToError(request) == Error.FromKind(RequestToKind(request))
    ensures UrlToError(url) == Error.FromKind(UrlToKind(url))
    ensures HawkToError(hawk) == Error.FromKind(HawkToKind(hawk))
    ensures JoseToError(jose) == Error.FromKind(JoseToKind(jose))
  {
  }

  /** Lifting a kind through a fresh context is the same as `From<ErrorKind>`. */
  lemma FromContextOfNew(k: ErrorKind)
    ensures Error.FromContext(Failure.Context.New(k)) == Error.FromKind(k)
  {
  }
}
