/**
 * The fallback handlers: method-level constraint violations, illegal state, I/O failures (a
 * client that hung up gets no response at all) and every other exception.
 */
module GenericExceptionHandling {
  import opened Wrappers
  import opened Text
  import opened UniqueErrors
  import opened ProcessingErrors
  import opened ErrorMessages
  import opened Responses

  /** Attribute names a constraint annotation may carry to override the defaults. */
  const CustomUniqueErrorKey := "customUniqueError"
  const CustomMessageKey := "customMessage"
  /** The root-cause text that marks a client disconnection. */
  const BrokenPipe := "Broken pipe"

  /** An annotation attribute value, as far as the handler casts it. */
  datatype AttributeValue = ErrorValue(error: UniqueError) | TextValue(text: string) | OtherValue

  /** The violated constraint: its annotation's simple name and its attribute map (possibly null). */
  datatype ConstraintDescriptor = ConstraintDescriptor(annotationName: string, attributes: Option<map<string, AttributeValue>>)

  /** `ErrorDetailsHolder`: the taxonomy entry and the optional description. */
  datatype ErrorDetails = ErrorDetails(uniqueError: UniqueError, details: Option<string>)

  /** The `ClassCastException` a wrongly typed override attribute raises. */
  datatype HandlerFailure = ClassCastFailure

  /** A missing attribute map counts as empty. */
  function Attributes(d: ConstraintDescriptor): map<string, AttributeValue> {
    d.attributes.GetOr(map[])
  }

  /** Whether the override attributes that are present have the types the casts expect. */
  predicate CastsSucceed(attrs: map<string, AttributeValue>) {
    (CustomUniqueErrorKey in attrs ==> attrs[CustomUniqueErrorKey].ErrorValue?) &&
    (CustomMessageKey in attrs ==> attrs[CustomMessageKey].TextValue?)
  }

  /**
   * `extractFrom(ConstraintDescriptor)`: a customUniqueError attribute overrides resolution of
   * the annotation's name; a customMessage attribute becomes the description.
   */
  function ExtractFrom(d: ConstraintDescriptor): (r: Result<ErrorDetails, HandlerFailure>)
    ensures r.Success? <==> CastsSucceed(Attributes(d))
    ensures r.Success? ==>
      r.value.uniqueError == (if CustomUniqueErrorKey in Attributes(d) then Attributes(d)[CustomUniqueErrorKey].error
                              else ParseFromConstraintName(Some(d.annotationName)))
    ensures r.Success? ==>
      r.value.details == (if CustomMessageKey in Attributes(d) then Some(Attributes(d)[CustomMessageKey].text) else None)
  {
    var attrs := Attributes(d);
    if !CastsSucceed(attrs) then Failure(ClassCastFailure)
    else
      var uniqueError := if CustomUniqueErrorKey in attrs then attrs[CustomUniqueErrorKey].error
                         else ParseFromConstraintName(Some(d.annotationName));
      var details := if CustomMessageKey in attrs then Some(attrs[CustomMessageKey].text) else None;
      Success(ErrorDetails(uniqueError, details))
  }

  /** `prepareErrorMessage`: one entry per violation, built from its details. */
  function PrepareErrorMessage(d: ConstraintDescriptor): (r: Result<ProcessingError, HandlerFailure>)
    ensures r.Success? <==> CastsSucceed(Attributes(d))
    ensures r.Success? ==>
      FromCode(r.value.code) == Some(if CustomUniqueErrorKey in Attributes(d) then Attributes(d)[CustomUniqueErrorKey].error
                                     else ParseFromConstraintName(Some(d.annotationName)))
    ensures r.Success? ==>
      r.value.description == (if CustomMessageKey in Attributes(d) then Some(Attributes(d)[CustomMessageKey].text) else None)
  {
    match ExtractFrom(d)
    case Success(holder) => Success(Build(holder.uniqueError, holder.details))
    case Failure(f) => Failure(f)
  }

  /**
   * `handleConstraintViolation`: status 400 and a default envelope with one entry per violation,
   * equal entries collapsing; a wrongly typed override attribute aborts the handler.
   */
  function HandleConstraintViolation(violations: seq<ConstraintDescriptor>): (r: Result<Response, HandlerFailure>)
    ensures r.Failure? <==> exists i :: 0 <= i < |violations| && PrepareErrorMessage(violations[i]).Failure?
    ensures r.Success? ==> r.value.status == BadRequestStatus
    ensures r.Success? ==> r.value.body.messageType == E && !r.value.body.retryIndicator
    ensures r.Success? ==> forall p :: p in r.value.body.processingErrors <==>
      exists i :: 0 <= i < |violations| && PrepareErrorMessage(violations[i]) == Success(p)
  {
    if exists i :: 0 <= i < |violations| && PrepareErrorMessage(violations[i]).Failure? then
      Failure(ClassCastFailure)
    else
      Success(Response(BadRequestStatus, Builder(set i | 0 <= i < |violations| :: PrepareErrorMessage(violations[i]).value)))
  }

  /** A customUniqueError attribute decides the entry whatever the annotation is called. */
  lemma CustomUniqueErrorOverrides(d: ConstraintDescriptor, e: UniqueError)
    requires Attributes(d) == map[CustomUniqueErrorKey := ErrorValue(e)]
    ensures PrepareErrorMessage(d) == Success(Build(e, None))
  {
  }

  /** Without override attributes, NotEmpty resolves to 40001 with no description. */
  lemma NotEmptyWithoutAttributes(d: ConstraintDescriptor, name: string)
    requires name == "NotEmpty" && d == ConstraintDescriptor(name, None)
    ensures PrepareErrorMessage(d) == Success(Build(PARAMETER_MISSING_VALUE, None))
  {
    assert ToUpper(name) == ConstraintViolations.StoredName(ConstraintViolations.NOT_EMPTY);
    ParseRecognised(name, ConstraintViolations.NOT_EMPTY);
  }

  /** Two violations with the same details leave a single entry. */
  lemma EqualDetailsCollapse(v1: ConstraintDescriptor, v2: ConstraintDescriptor)
    requires ExtractFrom(v1).Success? && ExtractFrom(v1) == ExtractFrom(v2)
    ensures var r := HandleConstraintViolation([v1, v2]);
      r.Success? && r.value.body.processingErrors == {PrepareErrorMessage(v1).value}
  {
    var r := HandleConstraintViolation([v1, v2]);
    var p := PrepareErrorMessage(v1).value;
    forall q ensures q in r.value.body.processingErrors <==> q == p {
      if q == p { assert PrepareErrorMessage([v1, v2][0]) == Success(q); }
    }
  }

  /** `handleIllegalState`: status 400, one 40099 entry with no description. */
  function HandleIllegalState(): (r: Response)
    ensures r.status == BadRequestStatus
    ensures IsSingleErrorEnvelope(r.body, Build(PARAMETER_UNSPECIFIED_PROBLEM, None))
  {
    Response(BadRequestStatus, ToErrorMessage(Build(PARAMETER_UNSPECIFIED_PROBLEM, None)))
  }

  /**
   * `handleGenericError`: status 500, one 50000 entry, no retry. The 50099 entry is only logged,
   * so no entry of the body carries its code.
   */
  function HandleGenericError(): (r: Response)
    ensures r.status == InternalServerErrorStatus
    ensures IsSingleErrorEnvelope(r.body, Build(INTERNAL_ERROR, None))
    ensures forall p :: p in r.body.processingErrors ==> p.code != UNDEFINED_INTERNAL_ERROR.Code()
  {
    CodesDistinct(INTERNAL_ERROR, UNDEFINED_INTERNAL_ERROR);
    Response(InternalServerErrorStatus, ToErrorMessage(Build(INTERNAL_ERROR, None)))
  }

  /** A throwable: its class's short name, its message (possibly null) and its cause. */
  datatype Throwable = Throwable(shortClassName: string, message: Option<string>, cause: Option<Throwable>)

  /** Apache's `ExceptionUtils.getRootCause`: the last throwable of the cause chain. */
  function RootCause(t: Throwable): (root: Throwable)
    ensures root.cause.None?
    ensures t.cause.None? ==> root == t
  {
    match t.cause
    case None => t
    case Some(c) => RootCause(c)
  }

  /** Apache's `ExceptionUtils.getRootCauseMessage`: "ShortClassName: message" of the root cause. */
  function RootCauseMessage(t: Throwable): (m: string)
    ensures t.cause.Some? ==> m == RootCauseMessage(t.cause.value)
    ensures t.cause.None? ==> m == t.shortClassName + ": " + t.message.GetOr("")
  {
    var root := RootCause(t);
    root.shortClassName + ": " + root.message.GetOr("")
  }

  /** Whether the failure is a client disconnection. */
  function IsBrokenPipe(exception: Throwable): (b: bool)
    ensures var m := RootCauseMessage(exception);
      b <==> exists i :: 0 <= i <= |m| - |BrokenPipe| && MatchesAt(m, BrokenPipe, i)
  {
    ContainsIgnoreCase(RootCauseMessage(exception), BrokenPipe)
  }

  /**
   * `handleIOException`: no response at all for a broken pipe; otherwise status 500 and a
   * 50000 envelope whose retry indicator is then switched on.
   */
  method HandleIOException(exception: Throwable) returns (r: Option<Response>)
    ensures r.None? <==> IsBrokenPipe(exception)
    ensures r.Some? ==> r.value.status == InternalServerErrorStatus
    ensures r.Some? ==> r.value.body == ErrorMessage(E, true, {Build(INTERNAL_ERROR, None)})
  {
    if IsBrokenPipe(exception) {
      return None;
    }
    var errorMessage := new MutableErrorMessage(ToErrorMessage(Build(INTERNAL_ERROR, None)));
    errorMessage.SetRetryIndicator(true);
    return Some(Response(InternalServerErrorStatus, errorMessage.Value()));
  }

  /** Only the root cause matters: wrapping a throwable in another does not change the verdict. */
  lemma {:induction false} WrappingKeepsVerdict(t: Throwable, wrapperName: string, wrapperMessage: Option<string>)
    ensures IsBrokenPipe(Throwable(wrapperName, wrapperMessage, Some(t))) == IsBrokenPipe(t)
  {
  }

  /**
   * A root-cause message holding "broken pipe" in any letter case, anywhere, marks a
   * disconnection.
   */
  lemma BrokenPipeAnywhere(exception: Throwable, before: string, word: string, after: string)
    requires EqualsIgnoreCase(word, BrokenPipe)
    requires RootCause(exception).message == Some(before + word + after)
    ensures IsBrokenPipe(exception)
  {
    var root := RootCause(exception);
    var s := RootCauseMessage(exception);
    var i := |root.shortClassName| + 2 + |before|;
    assert s == (root.shortClassName + ": " + before) + word + after;
    assert |word| == |BrokenPipe|;
    assert s[i..i + |BrokenPipe|] == word;
    assert MatchesAt(s, BrokenPipe, i);
  }

  /** A root-cause message, and class name, too short to hold "broken pipe" never marks a disconnection. */
  lemma ShortRootCauseIsNotBrokenPipe(exception: Throwable)
    requires |RootCauseMessage(exception)| < |BrokenPipe|
    ensures !IsBrokenPipe(exception)
  {
  }
}
