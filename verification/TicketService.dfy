/**
 * The ticket service: validation of a purchase request, the totals to pay
 * and to seat, and the ordered calls to the payment and seat-reservation
 * collaborators.
 */
module TicketService {
  import opened Wrappers
  import opened Constants
  import opened Exceptions

  /** One line of a purchase: a ticket type and how many of it. */
  datatype TicketRequest = TicketRequest(ticketType: TicketType, count: int)

  /**
   * A third-party service call: it returns normally (`Pass`) or throws an
   * error whose description is `Fail(cause)`.
   */
  type Collaborator = (int, int) -> Outcome<string>

  /** A call the service made on a collaborator, with its arguments. */
  datatype Call =
    | MakePayment(accountId: int, amount: int)
    | ReserveSeat(accountId: int, seats: int)

  const SeatedTypes: set<TicketType> := AllTicketTypes - {INFANT}

  /** `requests.filter(...)` keeping the requests whose type is in `types`, in order. */
  function Filter(requests: seq<TicketRequest>, types: set<TicketType>): (kept: seq<TicketRequest>)
    ensures |kept| <= |requests|
    ensures forall x :: x in kept <==> x in requests && x.ticketType in types
    decreases |requests|
  {
    if requests == [] then []
    else
      var last := requests[|requests| - 1];
      Filter(requests[..|requests| - 1], types) + (if last.ticketType in types then [last] else [])
  }

  /** `requests.reduce((sum, i) => sum + i.getNoOfTickets(), 0)`, folded from the left. */
  function SumCounts(requests: seq<TicketRequest>): int
    decreases |requests|
  {
    if requests == [] then 0
    else SumCounts(requests[..|requests| - 1]) + requests[|requests| - 1].count
  }

  /** The number of tickets of type `t`. */
  function TypeTotal(requests: seq<TicketRequest>, t: TicketType): int
  {
    SumCounts(Filter(requests, {t}))
  }

  /** The number of tickets that occupy a seat: every type but INFANT. */
  function NonInfantTotal(requests: seq<TicketRequest>): int
  {
    SumCounts(Filter(requests, SeatedTypes))
  }

  /** The price of the whole purchase: each line's unit price times its count. */
  function TotalAmountToPay(requests: seq<TicketRequest>): int
    decreases |requests|
  {
    if requests == [] then 0
    else
      var last := requests[|requests| - 1];
      TotalAmountToPay(requests[..|requests| - 1]) + Price(last.ticketType) * last.count
  }

  /** `requests.find(...)`: the position of the element `find` returns, the first request of type `t`, if any. */
  function Find(requests: seq<TicketRequest>, t: TicketType): (found: Option<nat>)
    ensures found.Some? ==>
      && found.value < |requests|
      && requests[found.value].ticketType == t
      && forall j :: 0 <= j < found.value ==> requests[j].ticketType != t
    ensures found.None? ==> forall j :: 0 <= j < |requests| ==> requests[j].ticketType != t
    decreases |requests|
  {
    if requests == [] then None
    else if requests[0].ticketType == t then Some(0)
    else
      match Find(requests[1..], t)
      case None => None
      case Some(k) => Some(k + 1)
  }

  predicate IsValidAccountId(accountId: Option<int>)
  {
    !(accountId.None? || accountId.value <= 0)
  }

  predicate IsMaxTicketCountExceeded(requests: seq<TicketRequest>)
  {
    NonInfantTotal(requests) > MAX_TICKETS_ALLOWED
  }

  /** True when some LINE is of type ADULT, whatever its count. */
  predicate IsAdultTicketPresent(requests: seq<TicketRequest>)
    ensures IsAdultTicketPresent(requests) <==> exists i :: 0 <= i < |requests| && requests[i].ticketType == ADULT
  {
    Find(requests, ADULT).Some?
  }

  predicate IsInfantTicketEqualAdultTicket(requests: seq<TicketRequest>)
  {
    !(TypeTotal(requests, ADULT) < TypeTotal(requests, INFANT))
  }

  /**
   * The four business rules, checked in order; the first one that fails
   * decides the exception and no later rule is looked at.
   */
  function ValidateRequest(accountId: Option<int>, requests: seq<TicketRequest>): (r: Outcome<PurchaseError>)
    ensures r.Pass? <==>
      && accountId.Some? && accountId.value > 0
      && NonInfantTotal(requests) <= MAX_TICKETS_ALLOWED
      && (exists i :: 0 <= i < |requests| && requests[i].ticketType == ADULT)
      && TypeTotal(requests, INFANT) <= TypeTotal(requests, ADULT)
    ensures r.Fail? ==>
      && r.error.exception == InvalidPurchaseException
      && r.error.code in {ERRORCT02, ERRORCT03, ERRORCT04}
    ensures (accountId.None? || accountId.value <= 0) ==>
      r == Fail(PurchaseError(InvalidPurchaseException, ERRORCT02, InvalidAccountId(accountId)))
    ensures accountId.Some? && accountId.value > 0 && NonInfantTotal(requests) > MAX_TICKETS_ALLOWED ==>
      r == Fail(PurchaseError(InvalidPurchaseException, ERRORCT03, MaxTicketCountExceeded(MAX_TICKETS_ALLOWED)))
    ensures accountId.Some? && accountId.value > 0 && NonInfantTotal(requests) <= MAX_TICKETS_ALLOWED
            && (forall i :: 0 <= i < |requests| ==> requests[i].ticketType != ADULT) ==>
      r == Fail(PurchaseError(InvalidPurchaseException, ERRORCT04, NoAdultTicket(accountId.value)))
    ensures accountId.Some? && accountId.value > 0 && NonInfantTotal(requests) <= MAX_TICKETS_ALLOWED
            && (exists i :: 0 <= i < |requests| && requests[i].ticketType == ADULT)
            && TypeTotal(requests, INFANT) > TypeTotal(requests, ADULT) ==>
      r == Fail(PurchaseError(InvalidPurchaseException, ERRORCT04, MoreInfantsThanAdults(accountId.value)))
  {
    if !IsValidAccountId(accountId) then
      Fail(PurchaseError(InvalidPurchaseException, ERRORCT02, InvalidAccountId(accountId)))
    else if IsMaxTicketCountExceeded(requests) then
      Fail(PurchaseError(InvalidPurchaseException, ERRORCT03, MaxTicketCountExceeded(MAX_TICKETS_ALLOWED)))
    else if !IsAdultTicketPresent(requests) then
      Fail(PurchaseError(InvalidPurchaseException, ERRORCT04, NoAdultTicket(accountId.value)))
    else if !IsInfantTicketEqualAdultTicket(requests) then
      Fail(PurchaseError(InvalidPurchaseException, ERRORCT04, MoreInfantsThanAdults(accountId.value)))
    else
      Pass
  }

  /** The total of a set of types filtered over the last request splits off that request. */
  lemma FilteredSumStep(requests: seq<TicketRequest>, types: set<TicketType>)
    requires requests != []
    ensures var last := requests[|requests| - 1];
      SumCounts(Filter(requests, types))
      == SumCounts(Filter(requests[..|requests| - 1], types)) + if last.ticketType in types then last.count else 0
  {
    var prefix, last := requests[..|requests| - 1], requests[|requests| - 1];
    var f := Filter(prefix, types);
    if last.ticketType in types {
      assert (f + [last])[..|f|] == f;
    } else {
      assert f + [] == f;
    }
  }

  /** Extending a prefix by one request adds that request's price and, unless an infant, its seats. */
  lemma TotalsStep(requests: seq<TicketRequest>, i: nat)
    requires i < |requests|
    ensures TotalAmountToPay(requests[..i + 1])
            == TotalAmountToPay(requests[..i]) + Price(requests[i].ticketType) * requests[i].count
    ensures NonInfantTotal(requests[..i + 1])
            == NonInfantTotal(requests[..i]) + if requests[i].ticketType != INFANT then requests[i].count else 0
  {
    assert requests[..i + 1][..i] == requests[..i];
    FilteredSumStep(requests[..i + 1], SeatedTypes);
  }

  /**
   * The `forEach` pass of `purchaseTickets` that accumulates the amount to
   * pay and the seats to allocate, one request at a time.
   */
  method CalculateTotals(ticketTypeRequests: seq<TicketRequest>)
    returns (totalAmountToPay: int, totalSeatsToAllocate: int)
    ensures totalAmountToPay == TotalAmountToPay(ticketTypeRequests)
    ensures totalSeatsToAllocate == NonInfantTotal(ticketTypeRequests)
  {
    totalAmountToPay, totalSeatsToAllocate := 0, 0;
    for i := 0 to |ticketTypeRequests|
      invariant totalAmountToPay == TotalAmountToPay(ticketTypeRequests[..i])
      invariant totalSeatsToAllocate == NonInfantTotal(ticketTypeRequests[..i])
    {
      var ticketRequest := ticketTypeRequests[i];
      TotalsStep(ticketTypeRequests, i);
      totalAmountToPay := totalAmountToPay + Price(ticketRequest.ticketType) * ticketRequest.count;
      totalSeatsToAllocate := totalSeatsToAllocate +
        if ticketRequest.ticketType != INFANT then ticketRequest.count else 0;
    }
    assert ticketTypeRequests[..|ticketTypeRequests|] == ticketTypeRequests;
  }

  /**
   * `purchaseTickets`: validate, total the request in one pass, pay, then
   * reserve. `calls` is the sequence of collaborator calls made, in order;
   * a collaborator's own error is replaced by the service's exception.
   */
  method PurchaseTickets(accountId: Option<int>, ticketTypeRequests: seq<TicketRequest>,
                         makePayment: Collaborator, reserveSeat: Collaborator)
    returns (outcome: Outcome<PurchaseError>, calls: seq<Call>)
    // a rejected request reaches neither collaborator and keeps its validation error
    ensures ValidateRequest(accountId, ticketTypeRequests).Fail? ==>
      outcome == ValidateRequest(accountId, ticketTypeRequests) && calls == []
    // an accepted request is paid for first, with the total price
    ensures ValidateRequest(accountId, ticketTypeRequests).Pass? ==>
      && accountId.Some?
      && |calls| >= 1
      && calls[0] == MakePayment(accountId.value, TotalAmountToPay(ticketTypeRequests))
    // a failed payment ends the purchase before any reservation
    ensures ValidateRequest(accountId, ticketTypeRequests).Pass?
            && makePayment(accountId.value, TotalAmountToPay(ticketTypeRequests)).Fail? ==>
      && calls == [MakePayment(accountId.value, TotalAmountToPay(ticketTypeRequests))]
      && outcome == Fail(PurchaseError(PaymentGatewayException, ERRORCT01, PaymentFailed(accountId.value)))
    // after a successful payment the seated tickets are reserved
    ensures ValidateRequest(accountId, ticketTypeRequests).Pass?
            && makePayment(accountId.value, TotalAmountToPay(ticketTypeRequests)).Pass? ==>
      && calls == [MakePayment(accountId.value, TotalAmountToPay(ticketTypeRequests)),
                   ReserveSeat(accountId.value, NonInfantTotal(ticketTypeRequests))]
      && outcome == if reserveSeat(accountId.value, NonInfantTotal(ticketTypeRequests)).Pass? then Pass
                    else Fail(PurchaseError(SeatReservationException, ERRORCT01, SeatReservationFailed(accountId.value)))
    // collaborator failures, and only they, carry ERRORCT01; ERRORCT05 is never raised
    ensures outcome.Fail? ==>
      && (outcome.error.code == ERRORCT01 <==> outcome.error.exception != InvalidPurchaseException)
      && outcome.error.code != ERRORCT05
    // a reservation is only ever made second, after a payment, within the limit
    ensures forall k :: 0 <= k < |calls| && calls[k].ReserveSeat? ==>
      k == 1 && calls[0].MakePayment? && calls[k].seats <= MAX_TICKETS_ALLOWED
  {
    var totalAmountToPay, totalSeatsToAllocate := 0, 0;
    calls := [];

    var validation := ValidateRequest(accountId, ticketTypeRequests);
    if validation.Fail? {
      outcome := validation;
      return;
    }

    totalAmountToPay, totalSeatsToAllocate := CalculateTotals(ticketTypeRequests);

    var id := accountId.value;
    calls := calls + [MakePayment(id, totalAmountToPay)];
    var paid := makePayment(id, totalAmountToPay);
    if paid.Fail? {
      outcome := Fail(PurchaseError(PaymentGatewayException, ERRORCT01, PaymentFailed(id)));
      return;
    }

    calls := calls + [ReserveSeat(id, totalSeatsToAllocate)];
    assert calls == [MakePayment(id, totalAmountToPay), ReserveSeat(id, totalSeatsToAllocate)];
    var reserved := reserveSeat(id, totalSeatsToAllocate);
    if reserved.Fail? {
      outcome := Fail(PurchaseError(SeatReservationException, ERRORCT01, SeatReservationFailed(id)));
      return;
    }
    outcome := Pass;
  }
}
