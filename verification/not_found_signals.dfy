/**
 * The three domain "not found" exceptions: each reports the "data not found" taxonomy entry
 * and a message built from the identifiers it was raised with.
 */
module NotFoundSignals {
  import opened UniqueErrors

  datatype NotFoundSignal =
    | BookingNotFound(bookingId: string)
    | ServiceNotFound(bookingId: string, serviceId: string)
    | FlightsNotFound
  {
    /** `getErrorId`: the same entry for all three. */
    function ErrorId(): (e: UniqueError)
      ensures e == DATA_NOT_FOUND && e.Code() == "40400"
    {
      DATA_NOT_FOUND
    }

    /** `getLocalizedMessage`: the identifiers concatenated verbatim into fixed text. */
    function LocalizedMessage(): (m: string)
      ensures |m| > 0
      ensures BookingNotFound? ==>
        |m| == |BookingPrefix| + |bookingId| + |BookingSuffix| && m[..|BookingPrefix|] == BookingPrefix
      ensures ServiceNotFound? ==>
        |m| == |ServicePrefix| + |serviceId| + |ServiceMiddle| + |bookingId| + |ServiceSuffix| &&
        m[..|ServicePrefix|] == ServicePrefix
    {
      match this
      case BookingNotFound(bookingId) => BookingPrefix + bookingId + BookingSuffix
      case ServiceNotFound(bookingId, serviceId) => ServicePrefix + serviceId + ServiceMiddle + bookingId + ServiceSuffix
      case FlightsNotFound => FlightsMessage
    }
  }

  const BookingPrefix := "Booking for provided "
  const BookingSuffix := " was not found"
  const ServicePrefix := "Service for provided "
  const ServiceMiddle := " was not found in the "
  const ServiceSuffix := " booking"
  const FlightsMessage := "Flight for provided parameters was not found"

  /**
   * A booking message holds the id verbatim between fixed text, so distinct ids give distinct
   * messages; an empty id leaves two spaces side by side.
   */
  lemma BookingMessageEmbedsId(bookingId: string)
    ensures var m := BookingNotFound(bookingId).LocalizedMessage();
      |m| == |BookingPrefix| + |bookingId| + |BookingSuffix| &&
      m[..|BookingPrefix|] == BookingPrefix &&
      m[|BookingPrefix|..|BookingPrefix| + |bookingId|] == bookingId &&
      m[|BookingPrefix| + |bookingId|..] == BookingSuffix
    ensures bookingId == "" ==> BookingNotFound(bookingId).LocalizedMessage() == "Booking for provided  was not found"
  {
    var m := BookingNotFound(bookingId).LocalizedMessage();
    assert m == BookingPrefix + bookingId + BookingSuffix;
    assert m[..|BookingPrefix|] == BookingPrefix;
    assert m[|BookingPrefix|..|BookingPrefix| + |bookingId|] == bookingId;
    assert m[|BookingPrefix| + |bookingId|..] == BookingSuffix;
  }

  /** The message determines the booking id. */
  lemma BookingMessageInjective(a: string, b: string)
    requires BookingNotFound(a).LocalizedMessage() == BookingNotFound(b).LocalizedMessage()
    ensures a == b
  {
    BookingMessageEmbedsId(a);
    BookingMessageEmbedsId(b);
  }

  /**
   * A service message names the service id first and the booking id last, each verbatim,
   * although the exception is raised with the booking id first.
   */
  lemma ServiceMessageEmbedsIds(bookingId: string, serviceId: string)
    ensures var m := ServiceNotFound(bookingId, serviceId).LocalizedMessage();
      var k := |ServicePrefix| + |serviceId|;
      |m| == k + |ServiceMiddle| + |bookingId| + |ServiceSuffix| &&
      m[|ServicePrefix|..k] == serviceId &&
      m[k + |ServiceMiddle|..k + |ServiceMiddle| + |bookingId|] == bookingId
  {
    var m := ServiceNotFound(bookingId, serviceId).LocalizedMessage();
    var k := |ServicePrefix| + |serviceId|;
    assert m == ServicePrefix + serviceId + ServiceMiddle + bookingId + ServiceSuffix;
    assert m[|ServicePrefix|..k] == serviceId;
    assert m[k + |ServiceMiddle|..k + |ServiceMiddle| + |bookingId|] == bookingId;
  }

  /** Every signal has a non-empty message, so the 404 it leads to always carries a description. */
  lemma MessagesNonEmpty(s: NotFoundSignal)
    ensures |s.LocalizedMessage()| > 0
  {
  }
}
