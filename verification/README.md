# flightsearch-app error handling, modelled in Dafny

The flight-search service answers every failure with the same JSON envelope, an `ErrorMessage`:
a type (`E` or `W`), a retry indicator and a set of `ProcessingError` entries. Each entry
carries the code and title of one `UniqueError` from a fixed taxonomy (40001 missing value,
40002 invalid length, 40003 incorrect format, 40400 data not found, 50000 internal error, and so on)
and an optional description.

This project models how the service normalises failures into that envelope:

- the taxonomy itself, and the mapping from a Bean Validation constraint's simple name to an entry
  (`UniqueError`, `ConstraintViolation`);
- the envelope and its entries as values, with the setters as classes;
- the request handler (`RequestExceptionHandler`) for validation errors, unreadable bodies,
  missing parameters and headers, type mismatches, and unsupported methods and media types;
- the body-parsing translator (`HttpMessageNotReadableHandler`);
- the fallback handler (`GenericExceptionHandler`) for constraint violations, illegal state,
  I/O failures and everything else;
- the error page (`DefaultErrorController`);
- the demo handler for the three "not found" exceptions (`CustomExceptionHandler`);
- the two mock services that raise them;
- the `FlightType` request-parameter converter.

Java strings are `seq<char>`, and `null` becomes `Option`. A thrown exception is a `Failure`
of a `Result`. Each handler becomes a function from the exception's relevant parts to a
`Response` (status and body).

Files, one module each unless noted:

- `wrappers.dfy`: `Option` and `Result`.
- `text.dfy`: the Java and library string operations the handlers use.
- `constraint_violation.dfy`, `unique_error.dfy`: the taxonomy. `unique_error.dfy` also holds
  module `ConstraintNameResolution`, which states the name-to-entry table.
- `processing_error.dfy`, `error_message.dfy`: the envelope. `error_message.dfy` also holds
  module `Responses`, the HTTP statuses used.
- `http_message_not_readable_handler.dfy`, `request_exception_handler.dfy`,
  `generic_exception_handler.dfy`, `default_error_controller.dfy`,
  `custom_exception_handler.dfy`: the handlers.
- `not_found_signals.dfy`: the three not-found exceptions.
- `mock_demo_service.dfy`, `flights.dfy`, `mock_flight_search_service.dfy`,
  `flight_type_converter.dfy`: the demo services.

## Model

| member | source | states |
|---|---|---|
| ConstraintViolations.ValuesListsEveryConstant | flightsearch-app/src/main/java/aero/digitalhangar/flightsearch_app/commons/error/model/ConstraintViolation.java:15-28 | `values()` lists every constant |
| ConstraintViolations.StoredNamesDistinct | flightsearch-app/src/main/java/aero/digitalhangar/flightsearch_app/commons/error/model/ConstraintViolation.java:15-28 | no two constants share a stored name, so a name lookup has at most one answer |
| ConstraintViolations.FindFirstNamed | flightsearch-app/src/main/java/aero/digitalhangar/flightsearch_app/commons/error/model/ConstraintViolation.java:32-38 | the stream's `findFirst`: a hit is a listed constant with that stored name; a miss means no listed constant has it |
| ConstraintViolations.FindByName | flightsearch-app/src/main/java/aero/digitalhangar/flightsearch_app/commons/error/model/ConstraintViolation.java:32-38 | a hit carries the name asked for; a miss means no listed constant has it (FindByNameIff gives both directions) |
| ConstraintViolations.FindByNameIff | flightsearch-app/src/main/java/aero/digitalhangar/flightsearch_app/commons/error/model/ConstraintViolation.java:32-38 | `findByName(n)` yields `v` exactly when `v`'s stored name is `n` (both directions) |
| ConstraintViolations.FindByNameSpec | flightsearch-app/src/main/java/aero/digitalhangar/flightsearch_app/commons/error/model/ConstraintViolation.java:32-38 | the same for all constants at once |
| ConstraintViolations.FindByStoredName | flightsearch-app/src/main/java/aero/digitalhangar/flightsearch_app/commons/error/model/ConstraintViolation.java:32-38 | looking up a constant's stored name finds that constant (round trip) |
| ConstraintViolations.FindByNameMiss | flightsearch-app/src/main/java/aero/digitalhangar/flightsearch_app/commons/error/model/ConstraintViolation.java:32-38 | a name that is no stored name gives an empty Optional |
| ConstraintViolations.ConstantNamesAreNotStoredNames | flightsearch-app/src/main/java/aero/digitalhangar/flightsearch_app/commons/error/model/ConstraintViolation.java:15-38 | the lookup is by stored name (`NOTNULL`, `DIGITS`), not by constant name (`NOT_NULL`, `DIGITS_ONLY`) |
| UniqueErrors.FromCode | flightsearch-app/src/main/java/aero/digitalhangar/flightsearch_app/commons/error/model/UniqueError.java:18-49 | a code found in the table belongs to the entry returned |
| UniqueErrors.FromCodeOfCode | flightsearch-app/src/main/java/aero/digitalhangar/flightsearch_app/commons/error/model/UniqueError.java:18-49 | every entry is recovered from its code (round trip) |
| UniqueErrors.CodesDistinct | flightsearch-app/src/main/java/aero/digitalhangar/flightsearch_app/commons/error/model/UniqueError.java:18-49 | codes are unique across the taxonomy |
| UniqueErrors.ConstraintViolationIfMatched | flightsearch-app/src/main/java/aero/digitalhangar/flightsearch_app/commons/error/model/UniqueError.java:77-87 | a null name matches nothing; otherwise the result is the lookup of the upper-cased name |
| UniqueErrors.ForViolation | flightsearch-app/src/main/java/aero/digitalhangar/flightsearch_app/commons/error/model/UniqueError.java:61-72 | every recognised constraint kind maps to one of the five validation entries, never to 40099 |
| UniqueErrors.ParseFromConstraintName | flightsearch-app/src/main/java/aero/digitalhangar/flightsearch_app/commons/error/model/UniqueError.java:58-75 | the result is always one of the six validation entries |
| UniqueErrors.ParseRecognised | flightsearch-app/src/main/java/aero/digitalhangar/flightsearch_app/commons/error/model/UniqueError.java:58-87 | a name whose upper case is a stored name resolves through the switch for that constant |
| UniqueErrors.ParseUnrecognised | flightsearch-app/src/main/java/aero/digitalhangar/flightsearch_app/commons/error/model/UniqueError.java:58-75 | any other name falls back to 40099 |
| UniqueErrors.ParseNull | flightsearch-app/src/main/java/aero/digitalhangar/flightsearch_app/commons/error/model/UniqueError.java:77-80 | a null name gives 40099 |
| UniqueErrors.ParseStoredName | flightsearch-app/src/main/java/aero/digitalhangar/flightsearch_app/commons/error/model/UniqueError.java:58-87 | each stored name resolves to its constant's entry |
| UniqueErrors.ToUpperOfUpper | flightsearch-app/src/main/java/aero/digitalhangar/flightsearch_app/commons/error/model/UniqueError.java:80 | upper-casing text without lower-case letters changes nothing |
| UniqueErrors.UpperOfStoredName | flightsearch-app/src/main/java/aero/digitalhangar/flightsearch_app/commons/error/model/ConstraintViolation.java:15-28 | stored names are already upper case |
| ConstraintNameResolution.ParseExact | flightsearch-app/src/main/java/aero/digitalhangar/flightsearch_app/commons/error/model/UniqueError.java:58-75 | an exact stored name resolves to its constant's entry |
| ConstraintNameResolution.ParseLength | flightsearch-app/src/main/java/aero/digitalhangar/flightsearch_app/commons/error/model/UniqueError.java:62 | SIZE gives 40002 |
| ConstraintNameResolution.ParseMissing | flightsearch-app/src/main/java/aero/digitalhangar/flightsearch_app/commons/error/model/UniqueError.java:63 | NOTBLANK, NOTEMPTY and NOTNULL give 40001 |
| ConstraintNameResolution.ParseFormat | flightsearch-app/src/main/java/aero/digitalhangar/flightsearch_app/commons/error/model/UniqueError.java:64 | PATTERN and DIGITS give 40003 |
| ConstraintNameResolution.ParseRange | flightsearch-app/src/main/java/aero/digitalhangar/flightsearch_app/commons/error/model/UniqueError.java:65-70 | the six range constraints give the out-of-range entry |
| ConstraintNameResolution.ParseConditional | flightsearch-app/src/main/java/aero/digitalhangar/flightsearch_app/commons/error/model/UniqueError.java:71 | CONDITIONALVALUES gives the conditional-values entry |
| ConstraintNameResolution.ParseIgnoresCase | flightsearch-app/src/main/java/aero/digitalhangar/flightsearch_app/commons/error/model/UniqueError.java:80 | "size", "sIzE" and "NotEmpty" resolve like their upper-case forms |
| ConstraintNameResolution.UnmatchedByLength | flightsearch-app/src/main/java/aero/digitalhangar/flightsearch_app/commons/error/model/UniqueError.java:58-87 | a name whose length fits no stored name gives 40099 |
| ConstraintNameResolution.ParseNearMisses | flightsearch-app/src/main/java/aero/digitalhangar/flightsearch_app/commons/error/model/UniqueError.java:58-87 | a trailing space, an underscore, a constant name, an unknown annotation and the empty name all give 40099 |
| ProcessingErrors.Build | flightsearch-app/src/main/java/aero/digitalhangar/flightsearch_app/commons/error/model/ProcessingError.java:39-41 | the builder sets the code and title of the entry given, and the description as given |
| ProcessingErrors.BuildInjective | flightsearch-app/src/main/java/aero/digitalhangar/flightsearch_app/commons/error/model/ProcessingError.java:24 | with value equality, two built entries are equal exactly when taxonomy entry and description agree |
| ProcessingErrors.BuiltEntriesCollapse | flightsearch-app/src/main/java/aero/digitalhangar/flightsearch_app/commons/error/model/ErrorMessage.java:39 | in the entry set, two builds count once when equal and twice otherwise |
| ProcessingErrors.MutableProcessingError.constructor | flightsearch-app/src/main/java/aero/digitalhangar/flightsearch_app/commons/error/model/ProcessingError.java:35-37 | the object holds the given code, title and description |
| ProcessingErrors.MutableProcessingError.SetCode | flightsearch-app/src/main/java/aero/digitalhangar/flightsearch_app/commons/error/model/ProcessingError.java:54-57 | only the code changes |
| ProcessingErrors.MutableProcessingError.SetTitle | flightsearch-app/src/main/java/aero/digitalhangar/flightsearch_app/commons/error/model/ProcessingError.java:66-69 | only the title changes |
| ProcessingErrors.MutableProcessingError.SetDescription | flightsearch-app/src/main/java/aero/digitalhangar/flightsearch_app/commons/error/model/ProcessingError.java:77-80 | only the description changes |
| ErrorMessages.FromValue | flightsearch-app/src/main/java/aero/digitalhangar/flightsearch_app/commons/error/model/ErrorMessage.java:92-99 | success with `t` exactly when `t`'s name equals the value (case-sensitive); otherwise the "Unexpected value" error |
| ErrorMessages.Builder | flightsearch-app/src/main/java/aero/digitalhangar/flightsearch_app/commons/error/model/ErrorMessage.java:41-43 | the default envelope: type E, no retry, the entries given |
| ErrorMessages.ToErrorMessage | flightsearch-app/src/main/java/aero/digitalhangar/flightsearch_app/commons/error/model/ProcessingError.java:82-89 | a default envelope holding exactly this one entry |
| ErrorMessages.ToErrorMessageInjective | flightsearch-app/src/main/java/aero/digitalhangar/flightsearch_app/commons/error/model/ProcessingError.java:82-89 | the envelope determines its entry and the reverse |
| ErrorMessages.EnvelopeReportsCode | flightsearch-app/src/main/java/aero/digitalhangar/flightsearch_app/commons/error/model/ProcessingError.java:39-41 | the only entry of a built envelope carries the taxonomy entry's code and title and the description |
| ErrorMessages.MutableErrorMessage.constructor | flightsearch-app/src/main/java/aero/digitalhangar/flightsearch_app/commons/error/model/ErrorMessage.java:37-39 | the object holds the given envelope |
| ErrorMessages.MutableErrorMessage.SetType | flightsearch-app/src/main/java/aero/digitalhangar/flightsearch_app/commons/error/model/ErrorMessage.java:56-59 | only the type changes |
| ErrorMessages.MutableErrorMessage.SetRetryIndicator | flightsearch-app/src/main/java/aero/digitalhangar/flightsearch_app/commons/error/model/ErrorMessage.java:68-71 | only the retry indicator changes |
| ErrorMessages.MutableErrorMessage.SetProcessingErrors | flightsearch-app/src/main/java/aero/digitalhangar/flightsearch_app/commons/error/model/ErrorMessage.java:81-84 | only the entry set changes |
| HttpMessageNotReadableHandling.NullifyWhenBlank | flightsearch-app/src/main/java/aero/digitalhangar/flightsearch_app/commons/error/handler/HttpMessageNotReadableHandler.java:55-57 | present exactly when the input is present and has a non-whitespace character; if present, unchanged |
| HttpMessageNotReadableHandling.FieldNames | flightsearch-app/src/main/java/aero/digitalhangar/flightsearch_app/commons/error/handler/HttpMessageNotReadableHandler.java:45-48 | the non-null field names of the path, each one from the path; none when all are null |
| HttpMessageNotReadableHandling.FieldNamesOfAppend | flightsearch-app/src/main/java/aero/digitalhangar/flightsearch_app/commons/error/handler/HttpMessageNotReadableHandler.java:45-48 | dropping null names distributes over concatenation of paths |
| HttpMessageNotReadableHandling.FieldNamesAllNamed | flightsearch-app/src/main/java/aero/digitalhangar/flightsearch_app/commons/error/handler/HttpMessageNotReadableHandler.java:45-48 | a path without nulls keeps every name, in order |
| HttpMessageNotReadableHandling.HandleJsonParse | flightsearch-app/src/main/java/aero/digitalhangar/flightsearch_app/commons/error/handler/HttpMessageNotReadableHandler.java:32-37 | the entry carries 40003's code and title; it has a description exactly when the current field name is present and has text, and then the description is that name |
| HttpMessageNotReadableHandling.HandleJsonMapping | flightsearch-app/src/main/java/aero/digitalhangar/flightsearch_app/commons/error/handler/HttpMessageNotReadableHandler.java:39-53 | the entry carries 40003's code and title; it has a description exactly when the dot-joined field path has text, and then the description is that path |
| HttpMessageNotReadableHandling.TransformExceptionToProcessingError | flightsearch-app/src/main/java/aero/digitalhangar/flightsearch_app/commons/error/handler/HttpMessageNotReadableHandler.java:59-86 | the entry is 40003 or 40099, and a description present always has text |
| HttpMessageNotReadableHandling.ParseErrorNamesField | flightsearch-app/src/main/java/aero/digitalhangar/flightsearch_app/commons/error/handler/HttpMessageNotReadableHandler.java:63-65 | a parse error at a named field gives 40003 described by that name |
| HttpMessageNotReadableHandling.ParseErrorWithoutName | flightsearch-app/src/main/java/aero/digitalhangar/flightsearch_app/commons/error/handler/HttpMessageNotReadableHandler.java:55-65 | a parse error with a null or blank name gives 40003 without description |
| HttpMessageNotReadableHandling.ParseErrorNameUnreadable | flightsearch-app/src/main/java/aero/digitalhangar/flightsearch_app/commons/error/handler/HttpMessageNotReadableHandler.java:61-73 | when reading the name fails, the default 40099 entry stays |
| HttpMessageNotReadableHandling.OtherCausesUnspecified | flightsearch-app/src/main/java/aero/digitalhangar/flightsearch_app/commons/error/handler/HttpMessageNotReadableHandler.java:60-61 | no cause or another cause gives 40099 without description |
| HttpMessageNotReadableHandling.MappingDescriptionSplitsIntoPath | flightsearch-app/src/main/java/aero/digitalhangar/flightsearch_app/commons/error/handler/HttpMessageNotReadableHandler.java:39-53 | splitting a mapping error's description on dots gives back the path's field names |
| HttpMessageNotReadableHandling.MappingWithoutNames | flightsearch-app/src/main/java/aero/digitalhangar/flightsearch_app/commons/error/handler/HttpMessageNotReadableHandler.java:39-57 | a path of only unnamed references gives 40003 without description |
| HttpMessageNotReadableHandling.MappingPathExamples | flightsearch-app/src/main/java/aero/digitalhangar/flightsearch_app/commons/error/handler/HttpMessageNotReadableHandler.java:39-53 | path C, B, A is described as "C.B.A"; with the middle unnamed, as "B.A" |
| RequestExceptionHandling.ErrorOf | flightsearch-app/src/main/java/aero/digitalhangar/flightsearch_app/commons/error/handler/RequestExceptionHandler.java:55-65 | a method-argument mismatch gives 40003 described by the parameter name; any other gives 40099 |
| RequestExceptionHandling.FirstUniqueError | flightsearch-app/src/main/java/aero/digitalhangar/flightsearch_app/commons/error/handler/RequestExceptionHandler.java:67-79 | none exactly when no argument is a UniqueError; otherwise one of the arguments |
| RequestExceptionHandling.FirstUniqueErrorAt | flightsearch-app/src/main/java/aero/digitalhangar/flightsearch_app/commons/error/handler/RequestExceptionHandler.java:67-79 | the first UniqueError argument is the one chosen |
| RequestExceptionHandling.ExtractFrom | flightsearch-app/src/main/java/aero/digitalhangar/flightsearch_app/commons/error/handler/RequestExceptionHandler.java:67-79 | a UniqueError argument wins; otherwise the error's code resolves as a constraint name |
| RequestExceptionHandling.ValidationEntry | flightsearch-app/src/main/java/aero/digitalhangar/flightsearch_app/commons/error/handler/RequestExceptionHandler.java:270-278 | the entry's code is that of the extracted taxonomy entry; a field error is described by its field, any other error by its object name |
| RequestExceptionHandling.ValidationEntries | flightsearch-app/src/main/java/aero/digitalhangar/flightsearch_app/commons/error/handler/RequestExceptionHandler.java:268-278 | one entry per error, in order |
| RequestExceptionHandling.HandleValidationErrors | flightsearch-app/src/main/java/aero/digitalhangar/flightsearch_app/commons/error/handler/RequestExceptionHandler.java:262-288 | 400, type E, no retry; an entry is present exactly when some error yields it; no more entries than errors |
| RequestExceptionHandling.ElementsNoMoreThanLength | flightsearch-app/src/main/java/aero/digitalhangar/flightsearch_app/commons/error/handler/RequestExceptionHandler.java:268-279 | collecting into a set never adds elements |
| RequestExceptionHandling.HandleMethodArgumentNotValid | flightsearch-app/src/main/java/aero/digitalhangar/flightsearch_app/commons/error/handler/RequestExceptionHandler.java:104-122 | 400, type E, no retry; an entry is present exactly when some binding error yields it; no more entries than errors |
| RequestExceptionHandling.ThreeErrorsTwoEntries | flightsearch-app/src/main/java/aero/digitalhangar/flightsearch_app/commons/error/handler/RequestExceptionHandler.java:262-288 | three errors whose last two give equal entries leave two entries |
| RequestExceptionHandling.LengthAndPresenceOnOneField | flightsearch-app/src/main/java/aero/digitalhangar/flightsearch_app/commons/error/handler/RequestExceptionHandler.java:262-288 | a length and two presence violations on one field give exactly a 40002 and a 40001 entry |
| RequestExceptionHandling.SizeNotEmptyNotNullTwoEntries | flightsearch-app/src/main/java/aero/digitalhangar/flightsearch_app/commons/error/handler/RequestExceptionHandler.java:262-288 | Size, NotEmpty and NotNull on one field give exactly those two entries |
| RequestExceptionHandling.ArgumentOverridesCode | flightsearch-app/src/main/java/aero/digitalhangar/flightsearch_app/commons/error/handler/RequestExceptionHandler.java:67-79 | a UniqueError argument decides the entry whatever the error's code |
| RequestExceptionHandling.HandleHttpMessageNotReadable | flightsearch-app/src/main/java/aero/digitalhangar/flightsearch_app/commons/error/handler/RequestExceptionHandler.java:81-102 | 400 with the single entry the body-parsing translator gives |
| RequestExceptionHandling.HandleMissingServletRequestParameter | flightsearch-app/src/main/java/aero/digitalhangar/flightsearch_app/commons/error/handler/RequestExceptionHandler.java:124-149 | 400 with a 40001 entry described by the parameter name |
| RequestExceptionHandling.HandleServletRequestBindingException | flightsearch-app/src/main/java/aero/digitalhangar/flightsearch_app/commons/error/handler/RequestExceptionHandler.java:151-184 | a missing header gives 40001 named after it; any other binding failure gives 40099 with its message |
| RequestExceptionHandling.HandleTypeMismatch | flightsearch-app/src/main/java/aero/digitalhangar/flightsearch_app/commons/error/handler/RequestExceptionHandler.java:186-200 | 400; an argument-level mismatch gives one 40003 entry named by the parameter; any other mismatch gives one 40099 entry without description |
| RequestExceptionHandling.HandleHttpRequestMethodNotSupported | flightsearch-app/src/main/java/aero/digitalhangar/flightsearch_app/commons/error/handler/RequestExceptionHandler.java:202-230 | 405 with one entry listing the supported methods after the fixed prefix |
| RequestExceptionHandling.HandleHttpMediaTypeNotSupported | flightsearch-app/src/main/java/aero/digitalhangar/flightsearch_app/commons/error/handler/RequestExceptionHandler.java:232-260 | 415 with one entry listing the supported media types after the fixed prefix |
| RequestExceptionHandling.NoSupportedMethods | flightsearch-app/src/main/java/aero/digitalhangar/flightsearch_app/commons/error/handler/RequestExceptionHandler.java:220-223 | a null or empty method set leaves the bare prefix |
| RequestExceptionHandling.JoinAppend | flightsearch-app/src/main/java/aero/digitalhangar/flightsearch_app/commons/error/handler/RequestExceptionHandler.java:222 | joining one more part appends the separator and that part |
| GenericExceptionHandling.ExtractFrom | flightsearch-app/src/main/java/aero/digitalhangar/flightsearch_app/commons/error/handler/GenericExceptionHandler.java:45-59 | succeeds exactly when the override attributes have the cast types; a customUniqueError wins over the annotation name; a customMessage becomes the description |
| GenericExceptionHandling.PrepareErrorMessage | flightsearch-app/src/main/java/aero/digitalhangar/flightsearch_app/commons/error/handler/GenericExceptionHandler.java:135-143 | succeeds exactly when the override attributes have the cast types; the entry's code is the customUniqueError attribute's, or else the annotation name's resolution; its description is the customMessage attribute, or none |
| GenericExceptionHandling.HandleConstraintViolation | flightsearch-app/src/main/java/aero/digitalhangar/flightsearch_app/commons/error/handler/GenericExceptionHandler.java:61-79 | fails exactly when some violation fails; otherwise 400 and exactly the violations' entries |
| GenericExceptionHandling.CustomUniqueErrorOverrides | flightsearch-app/src/main/java/aero/digitalhangar/flightsearch_app/commons/error/handler/GenericExceptionHandler.java:45-59 | a customUniqueError attribute alone gives that entry without description |
| GenericExceptionHandling.NotEmptyWithoutAttributes | flightsearch-app/src/main/java/aero/digitalhangar/flightsearch_app/commons/error/handler/GenericExceptionHandler.java:45-59 | NotEmpty without attributes gives 40001 without description |
| GenericExceptionHandling.EqualDetailsCollapse | flightsearch-app/src/main/java/aero/digitalhangar/flightsearch_app/commons/error/handler/GenericExceptionHandler.java:61-79 | two violations with equal details leave one entry |
| GenericExceptionHandling.HandleIllegalState | flightsearch-app/src/main/java/aero/digitalhangar/flightsearch_app/commons/error/handler/GenericExceptionHandler.java:81-93 | 400 with a single 40099 entry |
| GenericExceptionHandling.HandleGenericError | flightsearch-app/src/main/java/aero/digitalhangar/flightsearch_app/commons/error/handler/GenericExceptionHandler.java:121-133 | 500 with a single 50000 entry; no entry carries the logged 50099 code |
| GenericExceptionHandling.RootCause | flightsearch-app/src/main/java/aero/digitalhangar/flightsearch_app/commons/error/handler/GenericExceptionHandler.java:98 | the root cause has no cause; a throwable without a cause is its own root |
| GenericExceptionHandling.RootCauseMessage | flightsearch-app/src/main/java/aero/digitalhangar/flightsearch_app/commons/error/handler/GenericExceptionHandler.java:98 | a wrapped throwable has its cause's root-cause message; a throwable without a cause gives its short class name, ": " and its message or nothing |
| GenericExceptionHandling.IsBrokenPipe | flightsearch-app/src/main/java/aero/digitalhangar/flightsearch_app/commons/error/handler/GenericExceptionHandler.java:98 | true exactly when some window of the root-cause message equals "Broken pipe" ignoring case |
| GenericExceptionHandling.HandleIOException | flightsearch-app/src/main/java/aero/digitalhangar/flightsearch_app/commons/error/handler/GenericExceptionHandler.java:95-119 | no response exactly when the root-cause message mentions a broken pipe; otherwise 500 and a 50000 envelope with retry on |
| GenericExceptionHandling.WrappingKeepsVerdict | flightsearch-app/src/main/java/aero/digitalhangar/flightsearch_app/commons/error/handler/GenericExceptionHandler.java:98 | wrapping a throwable does not change whether it is a broken pipe |
| GenericExceptionHandling.BrokenPipeAnywhere | flightsearch-app/src/main/java/aero/digitalhangar/flightsearch_app/commons/error/handler/GenericExceptionHandler.java:98 | "broken pipe" in any case, anywhere in the root message, is a disconnection |
| GenericExceptionHandling.ShortRootCauseIsNotBrokenPipe | flightsearch-app/src/main/java/aero/digitalhangar/flightsearch_app/commons/error/handler/GenericExceptionHandler.java:98 | a root-cause text shorter than "Broken pipe" never is |
| DefaultErrorControl.ResolveErrorIdFrom | flightsearch-app/src/main/java/aero/digitalhangar/flightsearch_app/commons/error/handler/DefaultErrorController.java:28-34 | 404 exactly gives 40400, 400 exactly gives 40099, every other status gives 50000 |
| DefaultErrorControl.ResolveStatusFrom | flightsearch-app/src/main/java/aero/digitalhangar/flightsearch_app/commons/error/handler/DefaultErrorController.java:36-49 | always a known status; a known recorded status is kept; a missing or unknown one becomes 500 |
| DefaultErrorControl.HandleError | flightsearch-app/src/main/java/aero/digitalhangar/flightsearch_app/commons/error/handler/DefaultErrorController.java:51-67 | the resolved status with one entry chosen from it, described by "Requested URI: " and the URI |
| DefaultErrorControl.NotFoundAndBadRequest | flightsearch-app/src/main/java/aero/digitalhangar/flightsearch_app/commons/error/handler/DefaultErrorController.java:28-34 | recorded 404 answers 404/40400; recorded 400 answers 400/40099 |
| DefaultErrorControl.OtherKnownStatusEchoed | flightsearch-app/src/main/java/aero/digitalhangar/flightsearch_app/commons/error/handler/DefaultErrorController.java:51-67 | any other known status is echoed with 50000 |
| DefaultErrorControl.MissingOrUnknownStatus | flightsearch-app/src/main/java/aero/digitalhangar/flightsearch_app/commons/error/handler/DefaultErrorController.java:36-49 | a missing or unknown status answers 500/50000 |
| DefaultErrorControl.StatusExamples | flightsearch-app/src/main/java/aero/digitalhangar/flightsearch_app/commons/error/handler/DefaultErrorController.java:43-47 | 0, 999 and 419 are unknown; 200, 401 and 500 are known |
| NotFoundSignals.NotFoundSignal.ErrorId | flightsearch-app/src/main/java/aero/digitalhangar/flightsearch_app/demo/model/BookingNotFoundException.java:18-21 | every not-found exception reports 40400 |
| NotFoundSignals.NotFoundSignal.LocalizedMessage | flightsearch-app/src/main/java/aero/digitalhangar/flightsearch_app/demo/model/ServiceNotFoundException.java:24-27 | every message is non-empty; a booking message starts with the fixed booking text and is exactly as long as the texts and the id; a service message likewise with both ids |
| NotFoundSignals.BookingMessageEmbedsId | flightsearch-app/src/main/java/aero/digitalhangar/flightsearch_app/demo/model/BookingNotFoundException.java:23-26 | the booking id sits verbatim between the fixed texts |
| NotFoundSignals.BookingMessageInjective | flightsearch-app/src/main/java/aero/digitalhangar/flightsearch_app/demo/model/BookingNotFoundException.java:23-26 | the message determines the booking id |
| NotFoundSignals.ServiceMessageEmbedsIds | flightsearch-app/src/main/java/aero/digitalhangar/flightsearch_app/demo/model/ServiceNotFoundException.java:24-27 | the service id comes first and the booking id last, both verbatim |
| NotFoundSignals.MessagesNonEmpty | flightsearch-app/src/main/java/aero/digitalhangar/flightsearch_app/demo/model/FlightsNotFoundException.java:21-24 | every not-found message is non-empty |
| CustomExceptionHandling.HandleDataNotFoundException | flightsearch-app/src/main/java/aero/digitalhangar/flightsearch_app/demo/controller/CustomExceptionHandler.java:29-50 | a not-found exception answers 404 with its entry and message; anything else is a cast failure |
| CustomExceptionHandling.SignalsAnswerDataNotFound | flightsearch-app/src/main/java/aero/digitalhangar/flightsearch_app/demo/controller/CustomExceptionHandler.java:29-50 | each of the three answers 404 with a 40400 entry described by its message |
| CustomExceptionHandling.BookingExample | flightsearch-app/src/main/java/aero/digitalhangar/flightsearch_app/demo/controller/CustomExceptionHandler.java:29-50 | booking ABC is described as "Booking for provided ABC was not found" |
| CustomExceptionHandling.GetOrder | flightsearch-app/src/main/java/aero/digitalhangar/flightsearch_app/demo/controller/CustomExceptionHandler.java:52-55 | the order is the least 32-bit int, so no handler takes precedence over it |
| MockDemoServices.MockDataKeyedById | flightsearch-app/src/main/java/aero/digitalhangar/flightsearch_app/demo/service/impl/MockDemoService.java:26-33 | each service is stored under its own id |
| MockDemoServices.MockDataServices | flightsearch-app/src/main/java/aero/digitalhangar/flightsearch_app/demo/service/impl/MockDemoService.java:26-33 | the four services OT01 HK, OT02 HL, OT03 HX, OT04 HK |
| MockDemoServices.GetServicesFromBooking | flightsearch-app/src/main/java/aero/digitalhangar/flightsearch_app/demo/service/impl/MockDemoService.java:35-40 | every service exactly for the dummy booking in any case; otherwise booking not found |
| MockDemoServices.GetServiceFromBooking | flightsearch-app/src/main/java/aero/digitalhangar/flightsearch_app/demo/service/impl/MockDemoService.java:42-49 | unknown booking beats unknown service; for the known booking a stored id always answers that service, and any success is the service with that id |
| MockDemoServices.BookingIdIgnoresCase | flightsearch-app/src/main/java/aero/digitalhangar/flightsearch_app/demo/service/impl/MockDemoService.java:37 | "abcdef" and "AbCdEf" name the dummy booking |
| MockDemoServices.EmptyBookingUnknown | flightsearch-app/src/main/java/aero/digitalhangar/flightsearch_app/demo/service/impl/MockDemoService.java:35-40 | the empty booking id is not found |
| MockDemoServices.ServiceIdCaseSensitive | flightsearch-app/src/main/java/aero/digitalhangar/flightsearch_app/demo/service/impl/MockDemoService.java:46 | "ot01" is not service OT01 |
| FlightSearch.Filter | flightsearch-app/src/main/java/aero/digitalhangar/flightsearch_app/demo/service/impl/MockFlightSearchService.java:804-813 | every kept flight matches; each matching flight keeps its multiplicity and no other flight remains |
| FlightSearch.Matches | flightsearch-app/src/main/java/aero/digitalhangar/flightsearch_app/demo/service/impl/MockFlightSearchService.java:804-813 | the four filters: route ignoring case, departure and arrival time ignoring case when given, flight type when given |
| FlightSearch.MatchesIgnoresRouteCase | flightsearch-app/src/main/java/aero/digitalhangar/flightsearch_app/demo/service/impl/MockFlightSearchService.java:804-806 | origin and destination criteria differing only in letter case select the same flights |
| FlightSearch.InsertSpec | flightsearch-app/src/main/java/aero/digitalhangar/flightsearch_app/demo/service/impl/MockFlightSearchService.java:814 | inserting keeps departure order and adds exactly one flight |
| FlightSearch.SortByDeparture | flightsearch-app/src/main/java/aero/digitalhangar/flightsearch_app/demo/service/impl/MockFlightSearchService.java:814 | the result is ordered by departure time and is a permutation of the input |
| FlightSearch.Limit | flightsearch-app/src/main/java/aero/digitalhangar/flightsearch_app/demo/service/impl/MockFlightSearchService.java:815 | a prefix of exactly min(10, n) flights: everything when there are ten or fewer, the first ten otherwise |
| FlightSearch.DroppedDepartNoEarlier | flightsearch-app/src/main/java/aero/digitalhangar/flightsearch_app/demo/service/impl/MockFlightSearchService.java:814-815 | a flight cut off by the limit departs no earlier than any kept one |
| FlightSearch.FilterEmptyIff | flightsearch-app/src/main/java/aero/digitalhangar/flightsearch_app/demo/service/impl/MockFlightSearchService.java:804-813 | nothing is kept exactly when no catalogue flight matches |
| FlightSearch.LimitOfSorted | flightsearch-app/src/main/java/aero/digitalhangar/flightsearch_app/demo/service/impl/MockFlightSearchService.java:814-815 | limiting a sorted sequence keeps it sorted and takes only its own elements |
| FlightSearch.LimitOfSortedMatches | flightsearch-app/src/main/java/aero/digitalhangar/flightsearch_app/demo/service/impl/MockFlightSearchService.java:804-816 | the answer is in departure order and drawn from the catalogue |
| FlightSearch.LimitKeepsEarliestMatches | flightsearch-app/src/main/java/aero/digitalhangar/flightsearch_app/demo/service/impl/MockFlightSearchService.java:804-816 | a matching flight left out departs no earlier than any returned one; when at most ten match, all are returned |
| FlightSearch.FoundMatch | flightsearch-app/src/main/java/aero/digitalhangar/flightsearch_app/demo/service/impl/MockFlightSearchService.java:804-816 | every flight returned matches, and exactly min(10, number of matches) are returned |
| FlightSearch.GetFlightsFromSearch | flightsearch-app/src/main/java/aero/digitalhangar/flightsearch_app/demo/service/impl/MockFlightSearchService.java:792-819 | not found exactly when nothing matches; otherwise exactly min(10, number of matches) matching flights in departure order, drawn from the catalogue, the earliest ones, all of them when at most ten match |
| FlightTypeConversion.Convert | flightsearch-app/src/main/java/aero/digitalhangar/flightsearch_app/demo/model/FlightTypeConverter.java:14-21 | success with `t` exactly when the lower-cased source is `t`'s JSON name; otherwise "Unknown FlightType: " and the source |
| FlightTypeConversion.LowerOfJsonName | flightsearch-app/src/main/java/aero/digitalhangar/flightsearch_app/demo/model/FlightType.java:12-17 | the JSON names are lower case |
| FlightTypeConversion.ConvertJsonName | flightsearch-app/src/main/java/aero/digitalhangar/flightsearch_app/demo/model/FlightTypeConverter.java:16-18 | each JSON name converts to its type (round trip) |
| FlightTypeConversion.ConvertIgnoresCase | flightsearch-app/src/main/java/aero/digitalhangar/flightsearch_app/demo/model/FlightTypeConverter.java:16-18 | conversion succeeds exactly for the JSON name in any letter case |
| FlightTypeConversion.ConvertExamples | flightsearch-app/src/main/java/aero/digitalhangar/flightsearch_app/demo/model/FlightTypeConverter.java:16-19 | "DIRECT" and "Segmented" convert; " direct" is rejected |
| Text.UpperChar | flightsearch-app/src/main/java/aero/digitalhangar/flightsearch_app/commons/error/model/UniqueError.java:80 | ASCII lower-case letters shift to upper case, everything else stays |
| Text.LowerChar | flightsearch-app/src/main/java/aero/digitalhangar/flightsearch_app/demo/model/FlightTypeConverter.java:16 | ASCII upper-case letters shift to lower case, everything else stays |
| Text.CharFoldsAgree | flightsearch-app/src/main/java/aero/digitalhangar/flightsearch_app/demo/service/impl/MockDemoService.java:37 | two characters agree lower-cased exactly when they agree upper-cased |
| Text.LowerEqualIffEqualsIgnoreCase | flightsearch-app/src/main/java/aero/digitalhangar/flightsearch_app/demo/model/FlightTypeConverter.java:16 | lower-case equality and `equalsIgnoreCase` coincide |
| Text.HasText | flightsearch-app/src/main/java/aero/digitalhangar/flightsearch_app/commons/error/handler/HttpMessageNotReadableHandler.java:56 | true exactly when some character is not whitespace |
| Text.Split | flightsearch-app/src/main/java/aero/digitalhangar/flightsearch_app/commons/error/handler/HttpMessageNotReadableHandler.java:49 | the pieces are non-empty in number and free of the separator |
| Text.SplitPrefix | flightsearch-app/src/main/java/aero/digitalhangar/flightsearch_app/commons/error/handler/HttpMessageNotReadableHandler.java:49 | a separator-free prefix joins the first piece |
| Text.SplitJoin | flightsearch-app/src/main/java/aero/digitalhangar/flightsearch_app/commons/error/handler/HttpMessageNotReadableHandler.java:49 | joining separator-free parts and splitting gives the parts back |
| Text.StrLeReflexive | flightsearch-app/src/main/java/aero/digitalhangar/flightsearch_app/demo/service/impl/MockFlightSearchService.java:814 | `compareTo` order is reflexive |
| Text.StrLeTotal | flightsearch-app/src/main/java/aero/digitalhangar/flightsearch_app/demo/service/impl/MockFlightSearchService.java:814 | `compareTo` order is total |
| Text.StrLeAntisymmetric | flightsearch-app/src/main/java/aero/digitalhangar/flightsearch_app/demo/service/impl/MockFlightSearchService.java:814 | `compareTo` order is antisymmetric |
| Text.StrLeTransitive | flightsearch-app/src/main/java/aero/digitalhangar/flightsearch_app/demo/service/impl/MockFlightSearchService.java:814 | `compareTo` order is transitive |
| Text.MatchesShift | flightsearch-app/src/main/java/aero/digitalhangar/flightsearch_app/commons/error/handler/GenericExceptionHandler.java:98 | matches past the first position are the matches in the tail |
| Text.ContainsIgnoreCase | flightsearch-app/src/main/java/aero/digitalhangar/flightsearch_app/commons/error/handler/GenericExceptionHandler.java:98 | true exactly when the needle matches ignoring case at some position |

## Left out

- Logging (every `log.warn`/`log.error` call, the severity and error-id arguments, stack traces) is not modelled: it does not reach the response.
- The response headers and the `handleExceptionInternal` machinery of Spring's `ResponseEntityExceptionHandler` are not modelled. A handler's result is its status and body.
- Spring's exception dispatch and `@Order` / `Ordered` resolution are not modelled: each handler is applied directly to the exception it handles.
- Java's full Unicode case mapping is not modelled. `toUpperCase`, `toLowerCase` and `equalsIgnoreCase` map only the ASCII letters, and so do the case-insensitive comparisons built on them.
- `Text.StrLeTransitive` and the other `StrLe` lemmas: `compareTo` is modelled on Unicode scalar values, not on UTF-16 code units. The two orders differ only for characters above U+FFFF.
- `DefaultErrorControl.ResolveStatusFrom`: the set of statuses `HttpStatus.valueOf` accepts is written out as ranges of Spring 6's `HttpStatus` constants. A recorded status attribute that is not an `Integer` (a `ClassCastException`) is not modelled.
- `DefaultErrorControl.HandleError`: the request URI attribute is assumed present; a missing URI is not modelled.
- The `WebRequest`, `HttpHeaders` and `HttpStatusCode` arguments the request handlers receive are not modelled, except where a handler reads them.
- `MockDemoServices.GetServicesFromBooking` returns a set: `HashMap.values()` order is unspecified.
- `FlightSearch.GetFlightsFromSearch` takes the catalogue, in the map's iteration order, as a parameter. The 40 flights of `MOCK_DATA` are not transcribed, so the properties hold for every catalogue.
- `FlightSearch.SortByDeparture`: Java promises no order among flights with equal departure times, because the stream comes from an unordered `HashMap.values()`. The model picks the stable order of its catalogue parameter, and its contract promises only sortedness and permutation.
- `ProcessingError.REQUEST_OBJECT_NAME` and the JSON property-name constants only feed serialisation and are not modelled.
- Null `String` arguments are modelled as `Option` only where the source checks for null. Elsewhere an argument is a plain string, and the `NullPointerException` a null would raise is not modelled.
