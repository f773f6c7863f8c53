/**
 * The error types of the libraries the client calls into. Their contents are
 * not part of the model: each is known only by its rendering (its `Display`
 * output), which `Msg` gives.
 */
module Foreign {

  /** `hex::FromHexError` */
  datatype FromHexError = FromHexError(rendering: string) {
    function Msg(): string { rendering }
  }

  /** `openssl::error::ErrorStack` */
  datatype ErrorStack = ErrorStack(rendering: string) {
    function Msg(): string { rendering }
  }

  /** `base64::DecodeError` */
  datatype DecodeError = DecodeError(rendering: string) {
    function Msg(): string { rendering }
  }

  /** `serde_json::Error` */
  datatype SerdeJsonError = SerdeJsonError(rendering: string) {
    function Msg(): string { rendering }
  }

  /** `std::string::FromUtf8Error` */
  datatype FromUtf8Error = FromUtf8Error(rendering: string) {
    function Msg(): string { rendering }
  }

  /** `reqwest::Error` */
  datatype ReqwestError = ReqwestError(rendering: string) {
    function Msg(): string { rendering }
  }

  /** `reqwest::UrlError` */
  datatype UrlError = UrlError(rendering: string) {
    function Msg(): string { rendering }
  }

  /** `hawk::Error`, which may not be shared between threads */
  datatype HawkError = HawkError(rendering: string) {
    function Msg(): string { rendering }
  }

  /** `jose::error::Error`, which may not be shared between threads */
  datatype JoseError = JoseError(rendering: string) {
    function Msg(): string { rendering }
  }
}
