/**
 * The values a Starhive object hands to an attribute visitor, and the object
 * capability itself (AttributeVisitor.ts, StarhiveObject.ts, Workflow.ts,
 * User.ts, Location.ts).
 */
module Domain {
  import opened Wrappers

  /** A state of a workflow attribute; only `id` is sent to the server. */
  datatype WorkflowState = WorkflowState(id: string, name: string, description: Option<string>)

  /** A transition of a workflow attribute, leading to the state `to`. */
  datatype WorkflowTransition = WorkflowTransition(
    id: string, description: Option<string>, from: Option<WorkflowState>, to: WorkflowState)

  /** A Starhive user; a user-reference attribute is sent as the user's `id`. */
  datatype User = User(id: string, name: string, email: string)

  /** A geolocation value. */
  datatype Location = Location(address: string, latitude: real, longitude: real)

  /** An option of an option attribute; `value` is what `getValue()` returns. */
  datatype OptionValue = OptionValue(value: string)

  /** A JavaScript `Date`, by its time value in milliseconds since the epoch. */
  datatype Date = Date(epochMillis: int)

  /** A JavaScript `URL`, by the text it was parsed from. */
  datatype Url = Url(input: string)

  /**
   * One call an object's `accept` makes on the visitor: the closed set of
   * attribute kinds. `None` is a call with `values` (or state and
   * transition) `undefined`.
   */
  datatype Visit =
    | VisitText(attributeId: string, texts: Option<seq<string>>)
    | VisitInteger(attributeId: string, integers: Option<seq<real>>)
    | VisitDecimal(attributeId: string, decimals: Option<seq<real>>)
    | VisitBoolean(attributeId: string, booleans: Option<seq<bool>>)
    | VisitDatetime(attributeId: string, datetimes: Option<seq<Date>>)
    | VisitDate(attributeId: string, dates: Option<seq<Date>>)
    | VisitOption(attributeId: string, options: Option<seq<OptionValue>>)
    | VisitUrl(attributeId: string, urls: Option<seq<Url>>)
    | VisitReference(attributeId: string, references: Option<seq<string>>)
    | VisitLocation(attributeId: string, locations: Option<seq<Location>>)
    | VisitIpAddress(attributeId: string, ipAddresses: Option<seq<string>>)
    | VisitEmail(attributeId: string, emails: Option<seq<string>>)
    | VisitUser(attributeId: string, users: Option<seq<User>>)
    | VisitWorkflow(attributeId: string, state: Option<WorkflowState>, transition: Option<WorkflowTransition>)

  /** A visit of every kind but workflow whose `values` is `undefined`. */
  predicate IsAbsent(v: Visit)
    requires !v.VisitWorkflow?
  {
    match v
    case VisitText(_, xs) => xs.None?
    case VisitInteger(_, xs) => xs.None?
    case VisitDecimal(_, xs) => xs.None?
    case VisitBoolean(_, xs) => xs.None?
    case VisitDatetime(_, xs) => xs.None?
    case VisitDate(_, xs) => xs.None?
    case VisitOption(_, xs) => xs.None?
    case VisitUrl(_, xs) => xs.None?
    case VisitReference(_, xs) => xs.None?
    case VisitLocation(_, xs) => xs.None?
    case VisitIpAddress(_, xs) => xs.None?
    case VisitEmail(_, xs) => xs.None?
    case VisitUser(_, xs) => xs.None?
  }

  /**
   * A Starhive object as the client sees it: `getId()`, `getTypeId()` and
   * the visits its `accept` issues, in order.
   */
  datatype StarhiveObject = StarhiveObject(id: Option<string>, typeId: string, visits: seq<Visit>)

  /** JavaScript truthiness of an optional string: absent and "" are falsy. */
  predicate IsTruthy(s: Option<string>) {
    s.Some? && s.value != ""
  }
}
