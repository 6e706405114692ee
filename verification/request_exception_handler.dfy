/**
 * The request-level classifiers: an unreadable body, bean-validation failures on a request
 * object, a missing parameter or header, a type mismatch, an unsupported method and an
 * unsupported media type. Every one answers with a status and an error envelope.
 */
module RequestExceptionHandling {
  import opened Wrappers
  import opened Text
  import opened UniqueErrors
  import opened ProcessingErrors
  import opened ErrorMessages
  import opened Responses
  import opened ConstraintViolations
  import HttpMessageNotReadableHandling

  /** A `TypeMismatchException`: the argument-level kind carries the parameter's name. */
  datatype TypeMismatch = MethodArgumentTypeMismatch(name: string) | OtherTypeMismatch

  /** `errorOf`: an argument-level mismatch is 40003 named by the parameter, anything else 40099. */
  function ErrorOf(ex: TypeMismatch): (m: ErrorMessage)
    ensures ex.MethodArgumentTypeMismatch? ==>
      IsSingleErrorEnvelope(m, Build(PARAMETER_INCORRECT_FORMAT, Some(ex.name)))
    ensures ex.OtherTypeMismatch? ==>
      IsSingleErrorEnvelope(m, Build(PARAMETER_UNSPECIFIED_PROBLEM, None))
  {
    match ex
    case MethodArgumentTypeMismatch(name) => ToErrorMessage(Build(PARAMETER_INCORRECT_FORMAT, Some(name)))
    case OtherTypeMismatch => ToErrorMessage(Build(PARAMETER_UNSPECIFIED_PROBLEM, None))
  }

  /** One message argument of a validation error: a taxonomy entry, or anything else. */
  datatype Argument = ErrorArgument(error: UniqueError) | OtherArgument

  /** Whether a validation error is bound to a field (`FieldError`) or to the whole object. */
  datatype ErrorScope = FieldScope(field: string) | ObjectScope

  /**
   * A Spring `ObjectError`: its scope, the name of the validated object, the constraint code
   * (possibly null) and the message arguments (possibly null).
   */
  datatype ObjectError = ObjectError(scope: ErrorScope, objectName: string, code: Option<string>,
                                     arguments: Option<seq<Argument>>)

  /** The first taxonomy entry among the arguments, if there is one. */
  function FirstUniqueError(args: seq<Argument>): (r: Option<UniqueError>)
    ensures r.None? <==> forall i :: 0 <= i < |args| ==> args[i].OtherArgument?
    ensures r.Some? ==> ErrorArgument(r.value) in args
  {
    if args == [] then None
    else if args[0].ErrorArgument? then Some(args[0].error)
    else FirstUniqueError(args[1..])
  }

  /** The entry found is the one at the first position holding an entry. */
  lemma {:induction false} FirstUniqueErrorAt(args: seq<Argument>, i: nat)
    requires i < |args| && args[i].ErrorArgument?
    requires forall j :: 0 <= j < i ==> args[j].OtherArgument?
    ensures FirstUniqueError(args) == Some(args[i].error)
  {
    if i > 0 {
      FirstUniqueErrorAt(args[1..], i - 1);
    }
  }

  /**
   * `extractFrom(ObjectError)`: a taxonomy entry among the arguments wins; without one (or
   * without arguments) the constraint code is resolved by name.
   */
  function ExtractFrom(error: ObjectError): (e: UniqueError)
    ensures error.arguments.Some? && FirstUniqueError(error.arguments.value).Some? ==>
      e == FirstUniqueError(error.arguments.value).value
    ensures error.arguments.None? || FirstUniqueError(error.arguments.value).None? ==>
      e == ParseFromConstraintName(error.code)
  {
    if error.arguments.Some? && FirstUniqueError(error.arguments.value).Some?
    then FirstUniqueError(error.arguments.value).value
    else ParseFromConstraintName(error.code)
  }

  /** The entry one validation error becomes: described by its field, or by its object's name. */
  function ValidationEntry(error: ObjectError): (p: ProcessingError)
    ensures FromCode(p.code) == Some(ExtractFrom(error)) && p.title == ExtractFrom(error).Title()
    ensures error.scope.FieldScope? ==> p.description == Some(error.scope.field)
    ensures error.scope.ObjectScope? ==> p.description == Some(error.objectName)
  {
    var b := ExtractFrom(error);
    match error.scope
    case FieldScope(field) => Build(b, Some(field))
    case ObjectScope => Build(b, Some(error.objectName))
  }

  /** The entry each validation error becomes, in the order the errors come. */
  function ValidationEntries(errors: seq<ObjectError>): (entries: seq<ProcessingError>)
    ensures |entries| == |errors|
    ensures forall i :: 0 <= i < |errors| ==> entries[i] == ValidationEntry(errors[i])
  {
    seq(|errors|, i requires 0 <= i < |errors| => ValidationEntry(errors[i]))
  }

  /**
   * `handleValidationErrors`: status 400 and a default envelope holding one entry per
   * validation error, equal entries collapsing.
   */
  function HandleValidationErrors(errors: seq<ObjectError>): (r: Response)
    ensures r.status == BadRequestStatus
    ensures r.body.messageType == E && !r.body.retryIndicator
    ensures forall p :: p in r.body.processingErrors <==>
      exists i :: 0 <= i < |errors| && p == ValidationEntry(errors[i])
    ensures |r.body.processingErrors| <= |errors|
  {
    var entries := ValidationEntries(errors);
    ElementsNoMoreThanLength(entries);
    Response(BadRequestStatus, Builder(set p | p in entries))
  }

  /** Collecting a sequence into a set never adds elements. */
  lemma {:induction false} ElementsNoMoreThanLength<T>(s: seq<T>)
    ensures |set x | x in s| <= |s|
  {
    if s != [] {
      var n := |s| - 1;
      ElementsNoMoreThanLength(s[..n]);
      assert s == s[..n] + [s[n]];
      assert (set x | x in s) == (set x | x in s[..n]) + {s[n]};
    }
  }

  /** `handleMethodArgumentNotValid`: all errors of the binding result, classified together. */
  function HandleMethodArgumentNotValid(allErrors: seq<ObjectError>): (r: Response)
    ensures r.status == BadRequestStatus
    ensures r.body.messageType == E && !r.body.retryIndicator
    ensures forall p :: p in r.body.processingErrors <==>
      exists i :: 0 <= i < |allErrors| && p == ValidationEntry(allErrors[i])
    ensures |r.body.processingErrors| <= |allErrors|
  {
    HandleValidationErrors(allErrors)
  }

  /** Three errors whose last two become the same entry leave two entries (or one, if all agree). */
  lemma ThreeErrorsTwoEntries(errors: seq<ObjectError>, a: ProcessingError, b: ProcessingError)
    requires |errors| == 3
    requires ValidationEntry(errors[0]) == a && ValidationEntry(errors[1]) == b && ValidationEntry(errors[2]) == b
    ensures HandleValidationErrors(errors).body.processingErrors == {a, b}
  {
    var r := HandleValidationErrors(errors);
    forall p ensures p in r.body.processingErrors <==> p in {a, b} {
      if p in r.body.processingErrors {
        var i :| 0 <= i < |errors| && p == ValidationEntry(errors[i]);
        assert i == 0 || i == 1 || i == 2;
      }
      if p == a { assert p == ValidationEntry(errors[0]); }
      if p == b { assert p == ValidationEntry(errors[1]); }
    }
  }

  /** The three field errors a field violating a length and two presence constraints produces. */
  function ThreeFieldErrors(field: string, objectName: string, c1: string, c2: string, c3: string): seq<ObjectError> {
    [ObjectError(FieldScope(field), objectName, Some(c1), None),
     ObjectError(FieldScope(field), objectName, Some(c2), None),
     ObjectError(FieldScope(field), objectName, Some(c3), None)]
  }

  /**
   * One length constraint and two presence constraints failing on the same field give exactly
   * two entries: the two presence failures collapse into one.
   */
  lemma LengthAndPresenceOnOneField(field: string, objectName: string, c1: string, c2: string, c3: string)
    requires ParseFromConstraintName(Some(c1)) == PARAMETER_INVALID_LENGTH
    requires ParseFromConstraintName(Some(c2)) == PARAMETER_MISSING_VALUE
    requires ParseFromConstraintName(Some(c3)) == PARAMETER_MISSING_VALUE
    ensures var r := HandleValidationErrors(ThreeFieldErrors(field, objectName, c1, c2, c3));
      r.status == BadRequestStatus &&
      r.body.processingErrors == {Build(PARAMETER_INVALID_LENGTH, Some(field)), Build(PARAMETER_MISSING_VALUE, Some(field))} &&
      |r.body.processingErrors| == 2
  {
    var errors := ThreeFieldErrors(field, objectName, c1, c2, c3);
    var a, b := Build(PARAMETER_INVALID_LENGTH, Some(field)), Build(PARAMETER_MISSING_VALUE, Some(field));
    assert ValidationEntry(errors[0]) == a;
    assert ValidationEntry(errors[1]) == b;
    assert ValidationEntry(errors[2]) == b;
    ThreeErrorsTwoEntries(errors, a, b);
    BuiltEntriesCollapse(PARAMETER_INVALID_LENGTH, Some(field), PARAMETER_MISSING_VALUE, Some(field));
  }

  /** Size, NotEmpty and NotNull failing on one field give exactly 40002 and 40001. */
  lemma SizeNotEmptyNotNullTwoEntries(field: string, objectName: string, size: string, notEmpty: string, notNull: string)
    requires size == "Size" && notEmpty == "NotEmpty" && notNull == "NotNull"
    ensures HandleValidationErrors(ThreeFieldErrors(field, objectName, size, notEmpty, notNull)).body.processingErrors
         == {Build(PARAMETER_INVALID_LENGTH, Some(field)), Build(PARAMETER_MISSING_VALUE, Some(field))}
  {
    assert ToUpper(size) == StoredName(ConstraintViolations.SIZE);
    assert ToUpper(notEmpty) == StoredName(ConstraintViolations.NOT_EMPTY);
    assert ToUpper(notNull) == StoredName(ConstraintViolations.NOT_NULL);
    ParseRecognised(size, ConstraintViolations.SIZE);
    ParseRecognised(notEmpty, ConstraintViolations.NOT_EMPTY);
    ParseRecognised(notNull, ConstraintViolations.NOT_NULL);
    LengthAndPresenceOnOneField(field, objectName, size, notEmpty, notNull);
  }

  /** An entry carried among the arguments overrides the constraint code. */
  lemma ArgumentOverridesCode(error: ObjectError, e: UniqueError, i: nat)
    requires error.arguments.Some? && i < |error.arguments.value|
    requires error.arguments.value[i] == ErrorArgument(e)
    requires forall j :: 0 <= j < i ==> error.arguments.value[j].OtherArgument?
    ensures ExtractFrom(error) == e
  {
    FirstUniqueErrorAt(error.arguments.value, i);
  }

  /** `handleHttpMessageNotReadable`: status 400 and the malformed-body classification, alone. */
  function HandleHttpMessageNotReadable(cause: Option<HttpMessageNotReadableHandling.Cause>): (r: Response)
    ensures r.status == BadRequestStatus
    ensures IsSingleErrorEnvelope(r.body, HttpMessageNotReadableHandling.TransformExceptionToProcessingError(cause))
  {
    Response(BadRequestStatus, ToErrorMessage(HttpMessageNotReadableHandling.TransformExceptionToProcessingError(cause)))
  }

  /** `handleMissingServletRequestParameter`: status 400, one 40001 entry named by the parameter. */
  function HandleMissingServletRequestParameter(parameterName: string): (r: Response)
    ensures r.status == BadRequestStatus
    ensures IsSingleErrorEnvelope(r.body, Build(PARAMETER_MISSING_VALUE, Some(parameterName)))
  {
    Response(BadRequestStatus, ToErrorMessage(Build(PARAMETER_MISSING_VALUE, Some(parameterName))))
  }

  /** A `ServletRequestBindingException`: a missing header carries its name, any other its message. */
  datatype BindingFailure = MissingRequestHeader(headerName: string) | OtherBindingFailure(localizedMessage: Option<string>)

  /** `handleServletRequestBindingException`: status 400; 40001 for a missing header, else 40099. */
  function HandleServletRequestBindingException(ex: BindingFailure): (r: Response)
    ensures r.status == BadRequestStatus
    ensures ex.MissingRequestHeader? ==>
      IsSingleErrorEnvelope(r.body, Build(PARAMETER_MISSING_VALUE, Some(ex.headerName)))
    ensures ex.OtherBindingFailure? ==>
      IsSingleErrorEnvelope(r.body, Build(PARAMETER_UNSPECIFIED_PROBLEM, ex.localizedMessage))
  {
    var m := match ex
      case MissingRequestHeader(headerName) => ToErrorMessage(Build(PARAMETER_MISSING_VALUE, Some(headerName)))
      case OtherBindingFailure(message) => ToErrorMessage(Build(PARAMETER_UNSPECIFIED_PROBLEM, message));
    Response(BadRequestStatus, m)
  }

  /** `handleTypeMismatch`: status 400 and the envelope `errorOf` builds. */
  function HandleTypeMismatch(ex: TypeMismatch): (r: Response)
    ensures r.status == BadRequestStatus
    ensures ex.MethodArgumentTypeMismatch? ==>
      IsSingleErrorEnvelope(r.body, Build(PARAMETER_INCORRECT_FORMAT, Some(ex.name)))
    ensures ex.OtherTypeMismatch? ==>
      IsSingleErrorEnvelope(r.body, Build(PARAMETER_UNSPECIFIED_PROBLEM, None))
  {
    Response(BadRequestStatus, ErrorOf(ex))
  }

  const SupportedMethodsPrefix := "Supported methods: "
  const SupportedMediaTypesPrefix := "Supported media types: "

  /**
   * `handleHttpRequestMethodNotSupported`: status 405, one 40500 entry listing the supported
   * methods joined by ", "; an unknown list counts as empty.
   */
  function HandleHttpRequestMethodNotSupported(supportedMethods: Option<seq<string>>): (r: Response)
    ensures r.status == MethodNotAllowedStatus
    ensures IsSingleErrorEnvelope(r.body,
      Build(UniqueErrors.METHOD_NOT_ALLOWED, Some(SupportedMethodsPrefix + Join(", ", supportedMethods.GetOr([])))))
  {
    var listed := Join(", ", supportedMethods.GetOr([]));
    Response(MethodNotAllowedStatus, ToErrorMessage(Build(UniqueErrors.METHOD_NOT_ALLOWED, Some(SupportedMethodsPrefix + listed))))
  }

  /**
   * `handleHttpMediaTypeNotSupported`: status 415, one 41500 entry listing the supported media
   * types (each in its text form) joined by ", ".
   */
  function HandleHttpMediaTypeNotSupported(supportedMediaTypes: seq<string>): (r: Response)
    ensures r.status == UnsupportedMediaTypeStatus
    ensures IsSingleErrorEnvelope(r.body,
      Build(UniqueErrors.UNSUPPORTED_MEDIA_TYPE, Some(SupportedMediaTypesPrefix + Join(", ", supportedMediaTypes))))
  {
    var listed := Join(", ", supportedMediaTypes);
    Response(UnsupportedMediaTypeStatus, ToErrorMessage(Build(UniqueErrors.UNSUPPORTED_MEDIA_TYPE, Some(SupportedMediaTypesPrefix + listed))))
  }

  /** With no known methods the description is the bare prefix. */
  lemma NoSupportedMethods(methods: Option<seq<string>>)
    requires methods.None? || methods.value == []
    ensures HandleHttpRequestMethodNotSupported(methods).body.processingErrors
         == {Build(UniqueErrors.METHOD_NOT_ALLOWED, Some(SupportedMethodsPrefix))}
  {
    assert SupportedMethodsPrefix + "" == SupportedMethodsPrefix;
  }

  /** Listing grows by the separator and one item: the description names every method, in order. */
  lemma {:induction false} JoinAppend(sep: string, parts: seq<string>, last: string)
    requires parts != []
    ensures Join(sep, parts + [last]) == Join(sep, parts) + sep + last
  {
    if |parts| == 1 {
      assert parts + [last] == [parts[0], last];
      assert [parts[0], last][1..] == [last];
    } else {
      assert (parts + [last])[1..] == parts[1..] + [last];
      JoinAppend(sep, parts[1..], last);
    }
  }
}
