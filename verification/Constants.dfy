/**
 * The frozen lookup tables of the ticket service: the purchase limit, the
 * ticket types, their unit prices and the error codes. None of them is ever
 * changed, so each is a `const` or a total function over a closed enum.
 */
module Constants {
  import opened Wrappers

  /** `Defaults.MAX_TICKETS_ALLOWED`: the most seated tickets one purchase may hold. */
  const MAX_TICKETS_ALLOWED: nat := 20

  /** `TicketTypes`: the closed set of ticket kinds. */
  datatype TicketType = ADULT | CHILD | INFANT

  const AllTicketTypes: set<TicketType> := {ADULT, CHILD, INFANT}

  /** The string each ticket type is represented by at run time (key and value coincide). */
  function TypeName(t: TicketType): string
  {
    match t
    case ADULT => "ADULT"
    case CHILD => "CHILD"
    case INFANT => "INFANT"
  }

  /** Reads a ticket-type string back; anything outside the table has no type. */
  function ParseTicketType(s: string): (r: Option<TicketType>)
    ensures r.Some? ==> TypeName(r.value) == s
    ensures r.None? ==> forall t :: TypeName(t) != s
  {
    if s == "ADULT" then Some(ADULT)
    else if s == "CHILD" then Some(CHILD)
    else if s == "INFANT" then Some(INFANT)
    else None
  }

  /** Every ticket type appears in the table, and no two share a name. */
  lemma TypeNameRoundTrip(t: TicketType)
    ensures t in AllTicketTypes
    ensures ParseTicketType(TypeName(t)) == Some(t)
  {
  }

  lemma TypeNameInjective(a: TicketType, b: TicketType)
    ensures TypeName(a) == TypeName(b) ==> a == b
  {
    TypeNameRoundTrip(a);
    TypeNameRoundTrip(b);
  }

  /** `TicketPrices`: the unit price of each ticket type, a whole amount. */
  function Price(t: TicketType): (p: nat)
    ensures p == 0 <==> t == INFANT
    ensures p <= 20 && (t != ADULT ==> p < 20)
    ensures t == ADULT ==> p == 20
    ensures t == CHILD ==> p == 10
  {
    match t
    case ADULT => 20
    case CHILD => 10
    case INFANT => 0
  }

  /** `ErrorCodes`: the five codes an exception of the service can carry. */
  datatype ErrorCode = ERRORCT01 | ERRORCT02 | ERRORCT03 | ERRORCT04 | ERRORCT05

  const AllErrorCodes: set<ErrorCode> := {ERRORCT01, ERRORCT02, ERRORCT03, ERRORCT04, ERRORCT05}

  /**
   * The string a code stands for; it is what an exception's `error` property
   * holds, so the code is only recoverable because these strings are distinct.
   */
  function Description(c: ErrorCode): string
  {
    match c
    case ERRORCT01 => "Unknown application error"
    case ERRORCT02 => "Account Id Invalid"
    case ERRORCT03 => "Max ticket count purchase exceeded"
    case ERRORCT04 => "Adult ticket is not present"
    case ERRORCT05 => "Purchase data is null"
  }

  /** Recovers the code from an exception's `error` string. */
  function CodeOfDescription(s: string): (r: Option<ErrorCode>)
    ensures r.Some? ==> Description(r.value) == s
    ensures r.None? ==> forall c :: Description(c) != s
  {
    if s == Description(ERRORCT01) then Some(ERRORCT01)
    else if s == Description(ERRORCT02) then Some(ERRORCT02)
    else if s == Description(ERRORCT03) then Some(ERRORCT03)
    else if s == Description(ERRORCT04) then Some(ERRORCT04)
    else if s == Description(ERRORCT05) then Some(ERRORCT05)
    else None
  }

  lemma DescriptionRoundTrip(c: ErrorCode)
    ensures c in AllErrorCodes && |AllErrorCodes| == 5
    ensures CodeOfDescription(Description(c)) == Some(c)
  {
  }
}
