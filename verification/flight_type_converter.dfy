/** Conversion of a request parameter to a flight type, ignoring letter case. */
module FlightTypeConversion {
  import opened Wrappers
  import opened Text
  import opened Flights

  function UnknownFlightTypeMessage(source: string): string {
    "Unknown FlightType: " + source
  }

  /**
   * `FlightTypeConverter.convert`: the lower-cased input must be "direct" or "segmented";
   * anything else, surrounding spaces included, fails with the IllegalArgumentException message.
   */
  function Convert(source: string): (r: Result<FlightType, string>)
    ensures forall t: FlightType :: r == Success(t) <==> ToLower(source) == t.JsonName()
    ensures r.Failure? ==> r.error == UnknownFlightTypeMessage(source)
  {
    var lowered := ToLower(source);
    if lowered == "direct" then Success(Direct)
    else if lowered == "segmented" then Success(Segmented)
    else Failure(UnknownFlightTypeMessage(source))
  }

  /** JSON names are already lower case. */
  lemma LowerOfJsonName(t: FlightType)
    ensures ToLower(t.JsonName()) == t.JsonName()
  {
  }

  /** A type's name converts back to that type. */
  lemma ConvertJsonName(t: FlightType)
    ensures Convert(t.JsonName()) == Success(t)
  {
    LowerOfJsonName(t);
  }

  /** A string converts to a type exactly when it equals the type's name ignoring case. */
  lemma ConvertIgnoresCase(source: string, t: FlightType)
    ensures Convert(source) == Success(t) <==> EqualsIgnoreCase(source, t.JsonName())
  {
    LowerOfJsonName(t);
    LowerEqualIffEqualsIgnoreCase(source, t.JsonName());
  }

  /** "DIRECT" and "Segmented" convert; " direct" with a leading space does not. */
  lemma ConvertExamples(upper: string, capitalised: string, padded: string)
    requires upper == "DIRECT" && capitalised == "Segmented" && padded == " direct"
    ensures Convert(upper) == Success(Direct)
    ensures Convert(capitalised) == Success(Segmented)
    ensures Convert(padded) == Failure(UnknownFlightTypeMessage(padded))
  {
    assert ToLower(upper) == "direct";
    assert ToLower(capitalised) == "segmented";
    assert |ToLower(padded)| == 7;
  }
}
