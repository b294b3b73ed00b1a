/**
 * The per-kind conversion of attribute values into the strings the
 * Starhive API expects (the `values.map(...)` of each visitor callback in
 * StarhiveClient.ts).
 */
module Encoding {
  import opened Domain

  /**
   * The conversions the client borrows from the JavaScript runtime: number
   * `toString`, the `Intl.DateTimeFormat('se', ...)` calendar-date format,
   * `toISOString`, `URL.toString` and `JSON.stringify` of a location. They
   * are parameters, so that everything proved below holds for any of them.
   */
  datatype Encoders = Encoders(
    numberToString: real -> string,
    formatCalendarDate: Date -> string,
    toIsoString: Date -> string,
    urlToString: Url -> string,
    stringifyLocation: Location -> string)

  /** `xs.map(f)`: same length, same order, each element converted by `f`. */
  function MapSeq<T>(f: T -> string, xs: seq<T>): (r: seq<string>)
    ensures |r| == |xs|
    ensures forall i :: 0 <= i < |xs| ==> r[i] == f(xs[i])
  {
    if xs == [] then [] else [f(xs[0])] + MapSeq(f, xs[1..])
  }

  /** `Boolean.prototype.toString`. */
  function BooleanToString(b: bool): string {
    if b then "true" else "false"
  }

  /** The string list sent for a visit of a non-workflow kind whose values are present. */
  function EncodedValues(enc: Encoders, v: Visit): (r: seq<string>)
    requires !v.VisitWorkflow? && !IsAbsent(v)
    ensures v.VisitText? ==> r == v.texts.value
    ensures v.VisitReference? ==> r == v.references.value
    ensures v.VisitIpAddress? ==> r == v.ipAddresses.value
    ensures v.VisitEmail? ==> r == v.emails.value
    ensures v.VisitBoolean? ==> (|r| == |v.booleans.value| &&
      forall i :: 0 <= i < |r| ==> r[i] == (if v.booleans.value[i] then "true" else "false"))
    ensures v.VisitUser? ==> (|r| == |v.users.value| &&
      forall i :: 0 <= i < |r| ==> r[i] == v.users.value[i].id)
    ensures v.VisitOption? ==> (|r| == |v.options.value| &&
      forall i :: 0 <= i < |r| ==> r[i] == v.options.value[i].value)
    ensures v.VisitInteger? ==> (|r| == |v.integers.value| &&
      forall i :: 0 <= i < |r| ==> r[i] == enc.numberToString(v.integers.value[i]))
    ensures v.VisitDecimal? ==> (|r| == |v.decimals.value| &&
      forall i :: 0 <= i < |r| ==> r[i] == enc.numberToString(v.decimals.value[i]))
    ensures v.VisitDate? ==> (|r| == |v.dates.value| &&
      forall i :: 0 <= i < |r| ==> r[i] == enc.formatCalendarDate(v.dates.value[i]))
    ensures v.VisitDatetime? ==> (|r| == |v.datetimes.value| &&
      forall i :: 0 <= i < |r| ==> r[i] == enc.toIsoString(v.datetimes.value[i]))
    ensures v.VisitUrl? ==> (|r| == |v.urls.value| &&
      forall i :: 0 <= i < |r| ==> r[i] == enc.urlToString(v.urls.value[i]))
    ensures v.VisitLocation? ==> (|r| == |v.locations.value| &&
      forall i :: 0 <= i < |r| ==> r[i] == enc.stringifyLocation(v.locations.value[i]))
  {
    match v
    case VisitText(_, xs) => xs.value
    case VisitInteger(_, xs) => MapSeq(enc.numberToString, xs.value)
    case VisitDecimal(_, xs) => MapSeq(enc.numberToString, xs.value)
    case VisitBoolean(_, xs) => MapSeq(BooleanToString, xs.value)
    case VisitDatetime(_, xs) => MapSeq(enc.toIsoString, xs.value)
    case VisitDate(_, xs) => MapSeq(enc.formatCalendarDate, xs.value)
    case VisitOption(_, xs) => MapSeq((o: OptionValue) => o.value, xs.value)
    case VisitUrl(_, xs) => MapSeq(enc.urlToString, xs.value)
    case VisitReference(_, xs) => xs.value
    case VisitLocation(_, xs) => MapSeq(enc.stringifyLocation, xs.value)
    case VisitIpAddress(_, xs) => xs.value
    case VisitEmail(_, xs) => xs.value
    case VisitUser(_, xs) => MapSeq((u: User) => u.id, xs.value)
  }
}
