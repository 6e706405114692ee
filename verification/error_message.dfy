/**
 * The error envelope every handler returns: a type letter, a retry indicator and a set of
 * processing errors, plus the HTTP response that carries it.
 */
module ErrorMessages {
  import opened Wrappers
  import opened UniqueErrors
  import opened ProcessingErrors

  /** `ErrorMessage.TypeEnum`: E for error, W for warning. */
  datatype TypeEnum = E | W {
    /** The constant's Java name, which is also its JSON value. */
    function Name(): string {
      match this
      case E => "E"
      case W => "W"
    }
  }

  /** `TypeEnum.values()`, in declaration order. */
  const TypeValues: seq<TypeEnum> := [E, W]

  /** The message of the `IllegalArgumentException` that `fromValue` throws. */
  function UnexpectedValueMessage(value: string): string {
    "Unexpected value '" + value + "' for 'TypeEnum' enum."
  }

  /**
   * `TypeEnum.fromValue`: scans the constants in order and returns the first whose name equals
   * `value` exactly (case-sensitive); otherwise fails with the IllegalArgumentException message.
   */
  method FromValue(value: string) returns (r: Result<TypeEnum, string>)
    ensures forall t: TypeEnum :: r == Success(t) <==> t.Name() == value
    ensures r.Failure? ==> r.error == UnexpectedValueMessage(value)
  {
    for i := 0 to |TypeValues|
      invariant forall j :: 0 <= j < i ==> TypeValues[j].Name() != value
    {
      if TypeValues[i].Name() == value {
        return Success(TypeValues[i]);
      }
    }
    forall t: TypeEnum
      ensures t.Name() != value
    {
      assert t == TypeValues[if t == E then 0 else 1];
    }
    return Failure(UnexpectedValueMessage(value));
  }

  /** The envelope. `type` is a keyword here, so the field is `messageType`. */
  datatype ErrorMessage = ErrorMessage(messageType: TypeEnum, retryIndicator: bool, processingErrors: set<ProcessingError>)

  /** `ErrorMessage.builder().processingErrors(…).build()`: type E and retry false by default. */
  function Builder(processingErrors: set<ProcessingError>): (m: ErrorMessage)
    ensures m.messageType == E && !m.retryIndicator
    ensures m.processingErrors == processingErrors
  {
    ErrorMessage(E, false, processingErrors)
  }

  /** An envelope with type E, no retry, and exactly the one entry `p`. */
  predicate IsSingleErrorEnvelope(m: ErrorMessage, p: ProcessingError) {
    m.messageType == E && !m.retryIndicator && m.processingErrors == {p}
  }

  /** `ProcessingError.toErrorMessage`: the entry wrapped alone in a default envelope. */
  function ToErrorMessage(p: ProcessingError): (m: ErrorMessage)
    ensures IsSingleErrorEnvelope(m, p)
    ensures |m.processingErrors| == 1
  {
    Builder({p})
  }

  /** Wrapping loses nothing: the entry can be read back from its envelope. */
  lemma ToErrorMessageInjective(p: ProcessingError, q: ProcessingError)
    ensures ToErrorMessage(p) == ToErrorMessage(q) <==> p == q
  {
    if ToErrorMessage(p) == ToErrorMessage(q) {
      assert p in ToErrorMessage(q).processingErrors;
    }
  }

  /** An envelope built from a taxonomy entry reports that entry's code, and only that one. */
  lemma EnvelopeReportsCode(id: UniqueError, d: Option<string>, p: ProcessingError)
    requires p in ToErrorMessage(Build(id, d)).processingErrors
    ensures FromCode(p.code) == Some(id) && p.title == id.Title() && p.description == d
  {
  }

  /** The Java bean with its three setters; `handleIOException` flips the retry indicator with one. */
  class MutableErrorMessage {
    var messageType: TypeEnum
    var retryIndicator: bool
    var processingErrors: set<ProcessingError>

    function Value(): ErrorMessage
      reads this
    {
      ErrorMessage(messageType, retryIndicator, processingErrors)
    }

    constructor (m: ErrorMessage)
      ensures Value() == m
    {
      messageType := m.messageType;
      retryIndicator := m.retryIndicator;
      processingErrors := m.processingErrors;
    }

    method SetType(t: TypeEnum)
      modifies this
      ensures Value() == old(Value()).(messageType := t)
    {
      messageType := t;
    }

    method SetRetryIndicator(b: bool)
      modifies this
      ensures Value() == old(Value()).(retryIndicator := b)
    {
      retryIndicator := b;
    }

    method SetProcessingErrors(s: set<ProcessingError>)
      modifies this
      ensures Value() == old(Value()).(processingErrors := s)
    {
      processingErrors := s;
    }
  }
}

/** `ResponseEntity<ErrorMessage>` reduced to what the handlers decide: a status and a body. */
module Responses {
  import opened ErrorMessages

  const BadRequestStatus := 400
  const NotFoundStatus := 404
  const MethodNotAllowedStatus := 405
  const UnsupportedMediaTypeStatus := 415
  const InternalServerErrorStatus := 500

  datatype Response = Response(status: int, body: ErrorMessage)
}
