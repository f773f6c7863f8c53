# Unified error model of the Firefox Accounts Rust client

This project models the error model of the Firefox Accounts client
(`fxa-rust-client/src/errors.rs`) and proves properties of it. The model has
four parts:

- `ErrorKind` is modelled as a closed datatype of 22 kinds:
  - 13 domain kinds, some carrying a scope, a key name, lengths or the five
    fields of a remote error;
  - 9 adapter kinds, each wrapping exactly one library error.
- Each kind's `#[fail(display = …)]` template is modelled in a normal form:
  - the template is cut at its `{}` holes into `n + 1` pieces of literal
    text, the last possibly empty;
  - the `n` arguments are rendered in the order the template lists them;
  - `u64` and `usize` fields are rendered in decimal by `Fmt.Dec`;
  - `Fmt.Arguments.Render` fills each hole with its argument.
- `Error` is one kind inside a `failure::Context`. It has:
  - `kind()`;
  - its `Display`;
  - `cause()`;
  - the two `From` conversions, from a kind and from a context.
- For each library error there is a conversion to its adapter kind and one to
  `Error`. The `hawk` and `jose` errors are first boxed in a `SyncFailure`.

Modules:

- `Wrappers`: `Option`.
- `Fmt`: decimal rendering and its inverse, and template rendering.
- `Failure`: `Context` and `SyncFailure`, reduced to what the error model
  observes of them.
- `Foreign`: the nine library error types, each known only by its rendering.
- `Errors`: the kinds, `Error`, the conversions and the lemmas about them.

An `Error` built from a kind or from a library error (`From<ErrorKind>` and
the nine library `From` conversions) has no cause of its own. `Error::cause()`
(errors.rs:24-26) forwards to its `Context`, and `Context::new` (errors.rs:51)
chains that context onto nothing. The library error is reachable only as the
cause of its kind (`Errors.ErrorKind.Cause`, from `#[fail(cause)]`).

## Model

| member | source | states |
|---|---|---|
| Errors.Error.FromKind | fxa-rust-client/src/errors.rs:48-53 | `From<ErrorKind>` gives an error whose `kind()` is the kind it was built from, whose context has no cause, and that renders exactly as the kind |
| Errors.Error.Display | fxa-rust-client/src/errors.rs:34-39 | an error renders the same string as its kind, with nothing added |
| Errors.Error.Kind | fxa-rust-client/src/errors.rs:42-45 | `kind()`: no ensures of its own; `Errors.Error.FromKind` and `Errors.Error.FromContext` fix what it returns |
| Errors.Error.Cause | fxa-rust-client/src/errors.rs:24-26 | `Fail::cause` for `Error`, the context's own cause: no ensures of its own; `Errors.Error.FromKind` states that it is empty for an error built from a kind, and `Errors.Error.FromContext` that it is the context's |
| Errors.Error.FromContext | fxa-rust-client/src/errors.rs:55-60 | `From<Context<ErrorKind>>` keeps the context: the kind and the cause are those of the context |
| Errors.ErrorDeterminedByKindAndCause | fxa-rust-client/src/errors.rs:20 | an error holds nothing besides its context's kind and cause, so two errors that agree on both are equal |
| Errors.FromContextOfNew | fxa-rust-client/src/errors.rs:48-60 | wrapping a fresh context gives the same error as `From<ErrorKind>` |
| Failure.Context.GetContext | fxa-rust-client/src/errors.rs:44 | `get_context()`: no ensures of its own; `Failure.Context.New` states that it returns the value the context was made with |
| Failure.Context.Cause | fxa-rust-client/src/errors.rs:25 | the context's own `Fail::cause`, the failure it was chained onto: no ensures of its own; `Failure.Context.New` states that it is empty for a fresh context, and `Errors.Error.FromContext` that an error built from a context reports it |
| Failure.Context.Msg | fxa-rust-client/src/errors.rs:37 | the context's `Display`, which renders its context value: no ensures of its own; `Errors.Error.Display` states the consequence for an error |
| Failure.SyncFailure.Msg | fxa-rust-client/src/errors.rs:133-137 | the `{}` of the HAWK and JOSE templates applied to the `SyncFailure` box, which renders the error it holds: no ensures of its own; an assumption about the `failure` crate, and `Errors.HawkToError` and `Errors.JoseToError` state the consequence |
| Failure.SyncFailure.New | fxa-rust-client/src/errors.rs:174 | `SyncFailure::new` holds the given error unchanged (also used at errors.rs:187) |
| Failure.Context.New | fxa-rust-client/src/errors.rs:51 | `Context::new` holds the given kind and is chained onto no earlier failure |
| Errors.ErrorKind.Cause | fxa-rust-client/src/errors.rs:111-137 | exactly the adapter kinds have a cause (`#[fail(cause)]`); for each of the nine it is the field the kind wraps, unchanged; the cause is a `SyncFailure` box exactly for the HAWK and JOSE kinds |
| Errors.AdapterCause.Msg | fxa-rust-client/src/errors.rs:112-137 | the `{}` rendering of the field `_0` an adapter kind wraps: no ensures of its own; `Errors.AdapterDisplay` places it after the label, and the nine `*ToError` contracts state it is the library error's rendering |
| Errors.ErrorKind.Label | fxa-rust-client/src/errors.rs:112-136 | the fixed label of each adapter template: no ensures of its own; `Errors.AdapterDisplay` places it before `": "` and the wrapped error, and the nine `*ToError` contracts give each label as a literal |
| Errors.ErrorKind.Display | fxa-rust-client/src/errors.rs:62-138 | the derived `Display` of a kind always begins with the template's leading text, and a template without a hole renders as exactly that text |
| Errors.ConstantKindsHaveNoHoles | fxa-rust-client/src/errors.rs:64-98 | exactly the eight payload-free kinds have a template without a hole |
| Errors.ErrorKind.DisplayArgs | fxa-rust-client/src/errors.rs:62-138 | every kind's template has exactly one more piece of text than it has arguments, as Rust's compile-time check demands |
| Errors.HexToKind | fxa-rust-client/src/errors.rs:140-166 | a `FromHexError` becomes `HexDecodeError`, which holds it unchanged as its cause |
| Errors.OpensslToKind | fxa-rust-client/src/errors.rs:140-166 | an `ErrorStack` becomes `OpensslError`, which holds it unchanged as its cause |
| Errors.Base64ToKind | fxa-rust-client/src/errors.rs:140-166 | a `base64::DecodeError` becomes `Base64Decode`, which holds it unchanged as its cause |
| Errors.JsonToKind | fxa-rust-client/src/errors.rs:140-166 | a `serde_json::Error` becomes `JsonError`, which holds it unchanged as its cause |
| Errors.Utf8ToKind | fxa-rust-client/src/errors.rs:140-166 | a `FromUtf8Error` becomes `UTF8DecodeError`, which holds it unchanged as its cause |
| Errors.RequestToKind | fxa-rust-client/src/errors.rs:140-166 | a `reqwest::Error` becomes `RequestError`, which holds it unchanged as its cause |
| Errors.UrlToKind | fxa-rust-client/src/errors.rs:140-166 | a `reqwest::UrlError` becomes `MalformedUrl`, which holds it unchanged as its cause |
| Errors.HexToError | fxa-rust-client/src/errors.rs:149-166 | converting a `FromHexError` to an error goes through its kind, leaves the context without a cause, and renders `"Hex decode error: "` followed by the library error's rendering |
| Errors.OpensslToError | fxa-rust-client/src/errors.rs:149-166 | the same for `ErrorStack`, rendering `"OpenSSL error: "` first |
| Errors.Base64ToError | fxa-rust-client/src/errors.rs:149-166 | the same for `base64::DecodeError`, rendering `"Base64 decode error: "` first |
| Errors.JsonToError | fxa-rust-client/src/errors.rs:149-166 | the same for `serde_json::Error`, rendering `"JSON parse error: "` first |
| Errors.Utf8ToError | fxa-rust-client/src/errors.rs:149-166 | the same for `FromUtf8Error`, rendering `"UTF8 decode error: "` first |
| Errors.RequestToError | fxa-rust-client/src/errors.rs:149-166 | the same for `reqwest::Error`, rendering `"Network error: "` first |
| Errors.UrlToError | fxa-rust-client/src/errors.rs:149-166 | the same for `reqwest::UrlError`, rendering `"Malformed URL error: "` first |
| Errors.HawkToKind | fxa-rust-client/src/errors.rs:171-176 | a `hawk::Error` becomes `HawkError`, boxed unchanged in a `SyncFailure`, and that box is the kind's cause |
| Errors.HawkToError | fxa-rust-client/src/errors.rs:177-182 | converting a `hawk::Error` to an error goes through its kind, leaves the context without a cause, and renders `"HAWK error: "` followed by the library error's rendering |
| Errors.JoseToKind | fxa-rust-client/src/errors.rs:184-189 | a `jose::error::Error` becomes `JoseError`, boxed unchanged in a `SyncFailure`, and that box is the kind's cause |
| Errors.JoseToError | fxa-rust-client/src/errors.rs:190-195 | converting a `jose::error::Error` to an error goes through its kind, leaves the context without a cause, and renders `"JOSE error: "` followed by the library error's rendering |
| Errors.ConversionsFactorThroughKind | fxa-rust-client/src/errors.rs:149-195 | for each of the nine library error types, converting straight to `Error` equals converting to the kind and then lifting the kind |
| Errors.AdapterDisplay | fxa-rust-client/src/errors.rs:112-137 | every adapter kind renders as its fixed label, then `": "`, then the rendering of the error it wraps |
| Errors.ConstantMessages | fxa-rust-client/src/errors.rs:64-98 | each of the eight kinds without a payload renders its constant message |
| Errors.NoCachedTokenDisplay | fxa-rust-client/src/errors.rs:73-74 | `NoCachedToken(scope)` renders `"No cached token for scope "` followed by the scope |
| Errors.InvalidOAuthScopeValueDisplay | fxa-rust-client/src/errors.rs:79-80 | `InvalidOAuthScopeValue(v)` renders `"Invalid OAuth scope value "` followed by the value |
| Errors.BadKeyLengthDisplay | fxa-rust-client/src/errors.rs:88-89 | `BadKeyLength(name, got, expected)` renders the name, then the decimal length it had, then the decimal length it should have had, in that order |
| Errors.XorLengthMismatchDisplay | fxa-rust-client/src/errors.rs:91-92 | `XorLengthMismatch(a, b)` renders both lengths in decimal, `a` first |
| Errors.RemoteErrorDisplay | fxa-rust-client/src/errors.rs:100-109 | a remote error renders its five fields in declaration order, each in single quotes: code and errno in decimal, then error, message and info |
| Errors.BadKeyLengthExample | fxa-rust-client/src/errors.rs:88-89 | `BadKeyLength("enc_key", 16, 32)` renders `Key enc_key had wrong length, got 16, expected 32` |
| Errors.RemoteErrorExample | fxa-rust-client/src/errors.rs:100-109 | code 200, errno 0 and three empty strings render `Remote server error: '200' '0' '' '' ''` |
| Errors.RemoteErrorWithTextExample | fxa-rust-client/src/errors.rs:100-109 | code 400, errno 102, `Bad Request`, `Unknown account` and an empty info render `Remote server error: '400' '102' 'Bad Request' 'Unknown account' ''` |
| Fmt.Dec | fxa-rust-client/src/errors.rs:88-105 | the decimal rendering of a `usize` or `u64` field is a canonical numeral: at least one digit and no leading zero, and it starts with `0` only for zero |
| Fmt.DecRoundTrip | fxa-rust-client/src/errors.rs:88-105 | reading the rendered digits back gives the number, so the rendering loses nothing |
| Fmt.ParseRoundTrip | fxa-rust-client/src/errors.rs:88-105 | every canonical numeral is the rendering of its own value, so the renderings are exactly the canonical numerals |
| Fmt.Arguments.Render | fxa-rust-client/src/errors.rs:62-138 | how the derived `Display` fills each template hole with its argument: no ensures of its own; `Fmt.Render1` to `Fmt.Render5` state the rendering for one to five holes, and `Errors.ErrorKind.Display` that it begins with the leading text |
| Fmt.Render5 | fxa-rust-client/src/errors.rs:100-102 | a five-hole template renders as its six pieces with the five arguments between them, in order (`Render1` to `Render4` are the same for fewer holes) |

## Left out

- `components/support/ffi/src/http_facade.rs` is not part of this model. It is a pass-through to `reqwest`, whose behaviour is not visible here.
- `Error::backtrace` (errors.rs:28-31) is left out: backtrace capture belongs to the `failure` crate and depends on the runtime.
- The walk along a `failure` cause chain is left out. `Error::cause` (errors.rs:24-26) is modelled only as the context's own cause.
- `SyncFailure`'s internal lock is left out. It is a concurrency concern, and all the model keeps is the boxed value.
- The library error types are modelled only by their rendering (`Msg`). Their contents and how they render themselves belong to other crates.
- Failure.SyncFailure.Msg and Failure.Context.Msg: the model assumes that a `SyncFailure` renders as the error it holds, and that a `Context` renders as its context value with nothing added. These are assumptions about the `failure` crate, whose source is not part of this model. They are stated only in these two functions; `Errors.AdapterCause.Msg`, `Errors.ErrorKind.DisplayArgs` and `Errors.Error.Display` depend on them.
- Errors.u64 and Errors.usize: `usize` is given the range of `u64`, which contains its range on every target. Nothing here does arithmetic on these fields, and their decimal rendering does not depend on the width, so every value the program can hold is covered and no wrap-around is modelled.
- `Debug` output (the derives at errors.rs:19 and 62) and the `Result<T>` alias (errors.rs:17) are left out: neither carries behaviour the model could state.
- Errors.ErrorKind.DisplayArgs: `Display` is modelled as writing the whole rendered string. The incremental writes into a `fmt::Formatter`, and its width, fill and precision flags, are left out because no template uses them.
