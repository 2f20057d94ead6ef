/** What a send call can end in, and the one-shot channel that carries the outcome to its handle. */
module Sending {
  import opened Options
  import opened Cloneless

  /** Why a connection stopped working, as reported by whatever was awaited on it. */
  datatype ConnectionError =
    | ApplicationClosed
    | ConnectionClosed
    | LocallyClosed
    | TimedOut
    | Reset
    | VersionMismatch
    | TransportError
    | CidsExhausted

  datatype WriteError =
    | WriteStopped
    | WriteConnectionLost(error: ConnectionError)
    | WriteClosedStream
    | WriteZeroRttRejected

  datatype StoppedError = StoppedConnectionLost(error: ConnectionError) | StoppedZeroRttRejected

  datatype SendingError = OpenUni(open: ConnectionError) | WriteAll(write: WriteError) | Stopped(stop: StoppedError)

  datatype SendingResult = Sent | WeClosed | PeerClosedOrDied | Error

  datatype SendingState = StillBeingSent | Result(result: SendingResult)

  /** One send call: which call it was, and what it puts on the wire. */
  datatype Parcel = Parcel(id: nat, body: Wire)

  function FromConnectionError(e: ConnectionError): SendingResult {
    match e
    case LocallyClosed => WeClosed
    case ApplicationClosed => PeerClosedOrDied
    case ConnectionClosed => PeerClosedOrDied
    case Reset => PeerClosedOrDied
    case TimedOut => PeerClosedOrDied
    case VersionMismatch => SendingResult.Error
    case TransportError => SendingResult.Error
    case CidsExhausted => SendingResult.Error
  }

  /** `None` is the success of the send. */
  function FromResult(result: Option<SendingError>): SendingResult {
    match result
    case None => Sent
    case Some(OpenUni(e)) => FromConnectionError(e)
    case Some(WriteAll(WriteConnectionLost(e))) => FromConnectionError(e)
    case Some(Stopped(StoppedConnectionLost(e))) => FromConnectionError(e)
    case Some(_) => SendingResult.Error
  }

  /** The error an awaited operation reported about the connection itself, if it did. */
  function ConnectionErrorIn(error: SendingError): Option<ConnectionError> {
    match error
    case OpenUni(e) => Some(e)
    case WriteAll(WriteConnectionLost(e)) => Some(e)
    case Stopped(StoppedConnectionLost(e)) => Some(e)
    case _ => None
  }

  /**
   The channel between a send task and the handle of its call, as the handle sees it: the sender
   still exists, has left a result, is gone without one, or the handle has had its answer.
   */
  datatype Oneshot = Waiting | Holding(result: SendingResult) | SenderGone | Taken(result: SendingResult)

  function AnswerOf(cell: Oneshot): SendingState
    requires !cell.Taken?
  {
    match cell
    case Waiting => StillBeingSent
    case Holding(r) => Result(r)
    case SenderGone => Result(SendingResult.Error)
  }

  function AfterAsking(cell: Oneshot): Oneshot
    requires !cell.Taken?
  {
    match AnswerOf(cell)
    case StillBeingSent => cell
    case Result(r) => Taken(r)
  }

  /** What one channel may become over time. */
  predicate Settles(before: Oneshot, after: Oneshot) {
    match before
    case Waiting => true
    case Holding(r) => after == before || after == Taken(r)
    case SenderGone => after == before || after == Taken(SendingResult.Error)
    case Taken(_) => after == before
  }
}
