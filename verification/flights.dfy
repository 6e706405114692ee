/** The flight catalogue's records. */
module Flights {
  datatype FareClass = Economy | PremiumEconomy | Business | First

  datatype FlightType = Direct | Segmented {
    /** The JSON name of the constant, which is also the lower-cased Java name. */
    function JsonName(): string {
      match this
      case Direct => "direct"
      case Segmented => "segmented"
    }
  }

  /**
   * One catalogue flight; a segmented flight lists its legs in `viaFlightItems`. Times are
   * ISO 8601 text and the price is in cents.
   */
  datatype FlightItem = FlightItem(
    id: string,
    departureDateTime: string,
    arrivalDateTime: string,
    origin: string,
    destination: string,
    airlineCode: string,
    price: int,
    currency: string,
    fareClass: FareClass,
    flightType: FlightType,
    viaFlightItems: seq<FlightItem>)
}
