/**
 * The exceptions the ticket service throws, as one tagged value: which
 * exception class, which `ErrorCodes` entry, and the values its message
 * interpolates.
 */
module Exceptions {
  import opened Wrappers
  import opened Constants

  /**
   * The three exception classes. Payment and seat-reservation exceptions
   * extend `InvalidPurchaseException`, so every value here is also an
   * invalid-purchase exception to an `instanceof` test; the tag says which
   * constructor was called.
   */
  datatype ExceptionClass =
    | InvalidPurchaseException
    | PaymentGatewayException
    | SeatReservationException

  /** What the exception's message reports, with the values it interpolates. */
  datatype Reason =
    | InvalidAccountId(given: Option<int>)
    | MaxTicketCountExceeded(limit: nat)
    | NoAdultTicket(accountId: int)
    | MoreInfantsThanAdults(accountId: int)
    | PaymentFailed(accountId: int)
    | SeatReservationFailed(accountId: int)

  datatype PurchaseError = PurchaseError(exception: ExceptionClass, code: ErrorCode, reason: Reason)
  {
    /** The exception's `error` property: the string the code stands for. */
    function ErrorField(): (s: string)
      ensures CodeOfDescription(s) == Some(code)
    {
      DescriptionRoundTrip(code);
      Description(code)
    }
  }
}
