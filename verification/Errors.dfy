/** The error surface of the RPC layer and its conversions. */
module Errors {
  import opened Primitives
  import opened Envelopes

  /** `Wire` carries the rendered transport error; its inner structure never reaches a decision. */
  datatype PatinaError = Wire(text: Str) | Remote(code: u16, message: Str) | Closed | UnknownMethod(name: Str)

  datatype HandlerError = HandlerError(code: u16, message: Str)

  /** The `Display` text of an error. The decimal rendering of a remote code is never needed, because
      remote errors keep their own message. */
  function Render(e: PatinaError): Str
    requires !e.Remote?
  {
    match e
    case Wire(text) => Append(Ascii("wire error: "), text)
    case Closed => Ascii("connection closed")
    case UnknownMethod(name) => Append(Ascii("unknown method: "), name)
  }

  /** `From<PatinaError> for HandlerError`. */
  function ToHandlerError(e: PatinaError): HandlerError {
    match e
    case Remote(code, message) => HandlerError(code, message)
    case _ => HandlerError(500, Render(e))
  }

  /** Application errors keep code and message. */
  lemma RemoteKept(code: u16, message: Str)
    ensures ToHandlerError(Remote(code, message)) == HandlerError(code, message)
  {}

  /** Everything else is a 500 carrying the error's text. */
  lemma OthersAre500(e: PatinaError)
    requires !e.Remote?
    ensures var h := ToHandlerError(e);
      && h.code == 500
      && (e.Closed? ==> Spells(h.message, "connection closed"))
      && (e.Wire? ==> |h.message| >= 12 && Spells(h.message[..12], "wire error: ") && h.message[12..] == e.text)
      && (e.UnknownMethod? ==>
            |h.message| >= 16 && Spells(h.message[..16], "unknown method: ") && h.message[16..] == e.name)
  {}

  /** `From<ErrorData> for PatinaError`. */
  function FromErrorData(code: u16, message: Str): PatinaError { Remote(code, message) }

  /** The `match rx.await` arms of `Client::call`. */
  function CallResult(e: Envelope): Result<seq<byte>, PatinaError> {
    match e
    case Response(_, payload) => Ok(payload)
    case Error(_, code, message) => Err(FromErrorData(code, message))
    case _ => Err(Closed)
  }

  /** What crossing a connection does to a result: values and remote errors are kept, any other error
      becomes a remote 500 carrying its text. */
  function Normalise<T>(r: Result<T, PatinaError>): Result<T, PatinaError> {
    if r.Err? && !r.error.Remote? then Err(Remote(500, Render(r.error))) else r
  }

  /** Crossing twice is crossing once; a result that has crossed is `Ok` or `Remote`. */
  lemma NormaliseIdempotent<T>(r: Result<T, PatinaError>)
    ensures Normalise(Normalise(r)) == Normalise(r)
    ensures Normalise(r) == r <==> r.Ok? || r.error.Remote?
  {}
}
