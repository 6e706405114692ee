/**
 * The mock booking service: one known booking, "ABCDEF" in any letter case, holding four
 * ancillary services keyed by their ids.
 */
module MockDemoServices {
  import opened Wrappers
  import opened Text
  import opened NotFoundSignals

  /** A booked ancillary service: its id and its operational status code. */
  datatype ServiceItem = ServiceItem(id: string, statusCode: string)

  const DummyBookingId := "ABCDEF"

  /** The services of the known booking, keyed by id. */
  const MockData: map<string, ServiceItem> := map[
    "OT01" := ServiceItem("OT01", "HK"),
    "OT02" := ServiceItem("OT02", "HL"),
    "OT03" := ServiceItem("OT03", "HX"),
    "OT04" := ServiceItem("OT04", "HK")
  ]

  /** Each service is filed under its own id. */
  lemma MockDataKeyedById(key: string)
    requires key in MockData
    ensures MockData[key].id == key
  {
  }

  /** The known booking holds exactly the four services. */
  lemma MockDataServices()
    ensures MockData.Values == {ServiceItem("OT01", "HK"), ServiceItem("OT02", "HL"),
                                ServiceItem("OT03", "HX"), ServiceItem("OT04", "HK")}
  {
    assert MockData["OT01"] == ServiceItem("OT01", "HK");
    assert MockData["OT02"] == ServiceItem("OT02", "HL");
    assert MockData["OT03"] == ServiceItem("OT03", "HX");
    assert MockData["OT04"] == ServiceItem("OT04", "HK");
  }

  predicate IsKnownBooking(bookingId: string) {
    EqualsIgnoreCase(DummyBookingId, bookingId)
  }

  /**
   * `getServicesFromBooking`: all services of the known booking, or a booking-not-found signal
   * carrying the id as given.
   */
  function GetServicesFromBooking(bookingId: string): (r: Result<set<ServiceItem>, NotFoundSignal>)
    ensures r.Success? <==> IsKnownBooking(bookingId)
    ensures r.Success? ==> r.value == MockData.Values
    ensures r.Failure? ==> r.error == BookingNotFound(bookingId)
  {
    if IsKnownBooking(bookingId) then Success(MockData.Values) else Failure(BookingNotFound(bookingId))
  }

  /**
   * `getServiceFromBooking`: the booking is checked first; then the service id is looked up by
   * exact key, a miss giving a service-not-found signal with both ids.
   */
  function GetServiceFromBooking(bookingId: string, serviceId: string): (r: Result<ServiceItem, NotFoundSignal>)
    ensures !IsKnownBooking(bookingId) ==> r == Failure(BookingNotFound(bookingId))
    ensures IsKnownBooking(bookingId) && serviceId !in MockData ==> r == Failure(ServiceNotFound(bookingId, serviceId))
    ensures IsKnownBooking(bookingId) && serviceId in MockData ==> r == Success(MockData[serviceId])
    ensures r.Success? ==> serviceId in MockData && r.value == MockData[serviceId] && r.value.id == serviceId
  {
    if !IsKnownBooking(bookingId) then Failure(BookingNotFound(bookingId))
    else if serviceId in MockData then Success(MockData[serviceId])
    else Failure(ServiceNotFound(bookingId, serviceId))
  }

  /** The booking id matches in any letter case: "abcdef" and "AbCdEf" are the known booking. */
  lemma BookingIdIgnoresCase(lower: string, mixed: string)
    requires lower == "abcdef" && mixed == "AbCdEf"
    ensures IsKnownBooking(lower) && IsKnownBooking(mixed)
  {
  }

  /** The empty id is not the known booking. */
  lemma EmptyBookingUnknown()
    ensures GetServicesFromBooking("") == Failure(BookingNotFound(""))
  {
    assert |ToUpper(DummyBookingId)| != |ToUpper("")|;
  }

  /** Service ids are matched case-sensitively: "ot01" is not a service of the known booking. */
  lemma ServiceIdCaseSensitive(bookingId: string, serviceId: string)
    requires IsKnownBooking(bookingId) && serviceId == "ot01"
    ensures GetServiceFromBooking(bookingId, serviceId) == Failure(ServiceNotFound(bookingId, serviceId))
  {
  }
}
