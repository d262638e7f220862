/** Values shared by every page model: optional values and the outcome of a
    call into the backend API, whose transport is not modelled. */
module Common {

  /** A value that may be absent (`undefined` or `null` in the pages). */
  datatype Option<+T> = None | Some(value: T) {
    function GetOr(default: T): T {
      match this
      case Some(v) => v
      case None => default
    }
  }

  /** What a rejected API call carries, as the pages read it:
      `error.response.status` (0 when there is no response),
      `error.response.data.message` and `error.message`; an absent
      message is the empty string, since the pages only test messages
      for truthiness. */
  datatype HttpError = HttpError(status: int, dataMessage: string, message: string)

  /** The outcome of one awaited API call. */
  datatype Call<+T> = Ok(value: T) | Err(error: HttpError)

  /** `err?.response?.data?.message || err?.message || fallback`: the first
      message that is present, so a non-empty fallback is never blank. */
  function ServerMessage(e: HttpError, fallback: string): (r: string)
    ensures e.dataMessage != "" ==> r == e.dataMessage
    ensures e.dataMessage == "" && e.message != "" ==> r == e.message
    ensures e.dataMessage == "" && e.message == "" ==> r == fallback
    ensures fallback != "" ==> r != ""
  {
    if e.dataMessage != "" then e.dataMessage
    else if e.message != "" then e.message
    else fallback
  }

  /** `err?.message || fallback`: the server's own message is ignored. */
  function PlainMessage(e: HttpError, fallback: string): (r: string)
    ensures e.message != "" ==> r == e.message
    ensures e.message == "" ==> r == fallback
    ensures fallback != "" ==> r != ""
  {
    if e.message != "" then e.message else fallback
  }

  /** `err?.response?.data?.message || fallback`: the transport's message is ignored. */
  function DataMessage(e: HttpError, fallback: string): (r: string)
    ensures e.dataMessage != "" ==> r == e.dataMessage
    ensures e.dataMessage == "" ==> r == fallback
    ensures fallback != "" ==> r != ""
  {
    if e.dataMessage != "" then e.dataMessage else fallback
  }

  function Min(a: int, b: int): int {
    if a <= b then a else b
  }
}
