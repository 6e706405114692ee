/**
 * The demo application's handler for its own "not found" signals: status 404 and an envelope
 * built from the signal's error id and message.
 */
module CustomExceptionHandling {
  import opened Wrappers
  import opened UniqueErrors
  import opened ProcessingErrors
  import opened ErrorMessages
  import opened Responses
  import opened NotFoundSignals

  /** What reaches the handler: one of the domain signals, or any other exception. */
  datatype Raised = Signal(signal: NotFoundSignal) | OtherException

  /** The `ClassCastException` raised when the input does not return an error id. */
  datatype CastFailure = NotAnErrorIdReturningException

  /**
   * `handleDataNotFoundException`: status 404 and one entry with the signal's error id and its
   * message; any other exception fails the cast instead of being coerced.
   */
  function HandleDataNotFoundException(cause: Raised): (r: Result<Response, CastFailure>)
    ensures r.Failure? <==> cause.OtherException?
    ensures r.Success? ==> r.value.status == NotFoundStatus
    ensures r.Success? ==>
      IsSingleErrorEnvelope(r.value.body, Build(cause.signal.ErrorId(), Some(cause.signal.LocalizedMessage())))
  {
    match cause
    case OtherException => Failure(NotAnErrorIdReturningException)
    case Signal(signal) =>
      Success(Response(NotFoundStatus, ToErrorMessage(Build(signal.ErrorId(), Some(signal.LocalizedMessage())))))
  }

  /** Every signal answers 404 with code 40400 and a description that has text. */
  lemma SignalsAnswerDataNotFound(signal: NotFoundSignal)
    ensures var r := HandleDataNotFoundException(Signal(signal));
      r.Success? && r.value.status == 404 &&
      forall p :: p in r.value.body.processingErrors ==>
        FromCode(p.code) == Some(DATA_NOT_FOUND) && p.description.Some? && |p.description.value| > 0
  {
    MessagesNonEmpty(signal);
  }

  /** A booking that was not found is described as such, with its id verbatim. */
  lemma BookingExample(id: string)
    requires id == "ABC"
    ensures HandleDataNotFoundException(Signal(BookingNotFound(id))).value.body.processingErrors
         == {Build(DATA_NOT_FOUND, Some("Booking for provided ABC was not found"))}
  {
    assert BookingNotFound(id).LocalizedMessage() == BookingPrefix + id + BookingSuffix;
    assert BookingPrefix + id + BookingSuffix == "Booking for provided ABC was not found";
  }

  /** `Ordered.HIGHEST_PRECEDENCE`, the smallest 32-bit integer. */
  const HighestPrecedence := -0x8000_0000

  /** Whether `x` fits a Java `int`. */
  predicate IsInt32(x: int) {
    -0x8000_0000 <= x < 0x8000_0000
  }

  /** `getOrder`: no Java `int` order value comes before this handler's. */
  function GetOrder(): (order: int)
    ensures IsInt32(order)
    ensures forall other :: IsInt32(other) ==> order <= other
  {
    HighestPrecedence
  }
}
