/**
 * The servlet container's error page: whatever reached it without a handler is answered with
 * the status recorded on the request and an envelope chosen from that status.
 */
module DefaultErrorControl {
  import opened Wrappers
  import opened UniqueErrors
  import opened ProcessingErrors
  import opened ErrorMessages
  import opened Responses

  /**
   * Whether `code` is the value of one of Spring 6's `HttpStatus` constants, the codes on which
   * `HttpStatus.valueOf` succeeds.
   */
  predicate IsKnownStatus(code: int) {
    100 <= code <= 103 ||
    200 <= code <= 208 || code == 226 ||
    300 <= code <= 305 || code == 307 || code == 308 ||
    400 <= code <= 418 || 422 <= code <= 426 || code == 428 || code == 429 || code == 431 || code == 451 ||
    500 <= code <= 511
  }

  /** `resolveErrorIdFrom`: 404 is "data not found", 400 "unspecified problem", anything else internal. */
  function ResolveErrorIdFrom(status: int): (e: UniqueError)
    ensures e == DATA_NOT_FOUND <==> status == NotFoundStatus
    ensures e == PARAMETER_UNSPECIFIED_PROBLEM <==> status == BadRequestStatus
    ensures e == INTERNAL_ERROR <==> status != NotFoundStatus && status != BadRequestStatus
  {
    if status == NotFoundStatus then DATA_NOT_FOUND
    else if status == BadRequestStatus then PARAMETER_UNSPECIFIED_PROBLEM
    else INTERNAL_ERROR
  }

  /**
   * `resolveStatusFrom`: the status recorded on the request if it is a known HTTP status,
   * otherwise (missing or unknown) 500.
   */
  function ResolveStatusFrom(statusAttribute: Option<int>): (status: int)
    ensures IsKnownStatus(status)
    ensures statusAttribute.Some? && IsKnownStatus(statusAttribute.value) ==> status == statusAttribute.value
    ensures statusAttribute.None? || !IsKnownStatus(statusAttribute.value) ==> status == InternalServerErrorStatus
  {
    if statusAttribute.Some? && IsKnownStatus(statusAttribute.value) then statusAttribute.value
    else InternalServerErrorStatus
  }

  const RequestedUriPrefix := "Requested URI: "

  /**
   * `handleError`: the resolved status, and one entry chosen from it, described by the
   * requested URI.
   */
  function HandleError(statusAttribute: Option<int>, requestUri: string): (r: Response)
    ensures IsKnownStatus(r.status)
    ensures IsSingleErrorEnvelope(r.body, Build(ResolveErrorIdFrom(r.status), Some(RequestedUriPrefix + requestUri)))
    ensures r.status == ResolveStatusFrom(statusAttribute)
  {
    var status := ResolveStatusFrom(statusAttribute);
    Response(status, ToErrorMessage(Build(ResolveErrorIdFrom(status), Some(RequestedUriPrefix + requestUri))))
  }

  /** A recorded 404 gives status 404 and code 40400; a recorded 400 gives 400 and 40099. */
  lemma NotFoundAndBadRequest(uri: string)
    ensures HandleError(Some(404), uri).status == 404
    ensures HandleError(Some(404), uri).body.processingErrors == {Build(DATA_NOT_FOUND, Some(RequestedUriPrefix + uri))}
    ensures HandleError(Some(400), uri).status == 400
    ensures HandleError(Some(400), uri).body.processingErrors == {Build(PARAMETER_UNSPECIFIED_PROBLEM, Some(RequestedUriPrefix + uri))}
  {
  }

  /** Any other known status, 200 and 401 included, is echoed but reported as 50000. */
  lemma OtherKnownStatusEchoed(code: int, uri: string)
    requires IsKnownStatus(code) && code != 404 && code != 400
    ensures HandleError(Some(code), uri).status == code
    ensures HandleError(Some(code), uri).body.processingErrors == {Build(INTERNAL_ERROR, Some(RequestedUriPrefix + uri))}
  {
  }

  /** A missing status, or one that is no HTTP status such as 0, gives 500 and 50000. */
  lemma MissingOrUnknownStatus(statusAttribute: Option<int>, uri: string)
    requires statusAttribute.None? || !IsKnownStatus(statusAttribute.value)
    ensures HandleError(statusAttribute, uri).status == 500
    ensures HandleError(statusAttribute, uri).body.processingErrors == {Build(INTERNAL_ERROR, Some(RequestedUriPrefix + uri))}
  {
  }

  /** 0, 999 and 419 (dropped from Spring 6) are not HTTP statuses; 200, 401 and 500 are. */
  lemma StatusExamples()
    ensures !IsKnownStatus(0) && !IsKnownStatus(999) && !IsKnownStatus(419)
    ensures IsKnownStatus(200) && IsKnownStatus(401) && IsKnownStatus(500)
  {
  }
}
