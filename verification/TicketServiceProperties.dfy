/**
 * Properties of the ticket service's validation and totals: how the sums
 * decompose by ticket type, why infants never count, the bounds an accepted
 * purchase keeps, and the worked scenarios.
 */
module TicketServiceProperties {
  import opened Wrappers
  import opened Constants
  import opened Exceptions
  import opened TicketService

  predicate NonNegativeCounts(requests: seq<TicketRequest>)
  {
    forall i :: 0 <= i < |requests| ==> requests[i].count >= 0
  }

  predicate AllInfants(requests: seq<TicketRequest>)
  {
    forall i :: 0 <= i < |requests| ==> requests[i].ticketType == INFANT
  }

  /** Filtering distributes over concatenation, so it keeps the kept requests in order. */
  lemma {:induction false} FilterAppend(a: seq<TicketRequest>, b: seq<TicketRequest>, types: set<TicketType>)
    ensures Filter(a + b, types) == Filter(a, types) + Filter(b, types)
    decreases |b|
  {
    if b == [] {
      assert a + b == a;
    } else {
      var b', last := b[..|b| - 1], b[|b| - 1];
      var tail := if last.ticketType in types then [last] else [];
      assert (a + b)[..|a + b| - 1] == a + b';
      assert (a + b)[|a + b| - 1] == last;
      assert Filter(a + b, types) == Filter(a + b', types) + tail;
      FilterAppend(a, b', types);
      assert Filter(b, types) == Filter(b', types) + tail;
    }
  }

  /** Summing counts distributes over concatenation. */
  lemma {:induction false} SumCountsAppend(a: seq<TicketRequest>, b: seq<TicketRequest>)
    ensures SumCounts(a + b) == SumCounts(a) + SumCounts(b)
    decreases |b|
  {
    if b == [] {
      assert a + b == a;
    } else {
      var b' := b[..|b| - 1];
      assert (a + b)[..|a + b| - 1] == a + b';
      SumCountsAppend(a, b');
    }
  }

  /** The price of two purchases joined is the sum of their prices. */
  lemma {:induction false} TotalAmountAppend(a: seq<TicketRequest>, b: seq<TicketRequest>)
    ensures TotalAmountToPay(a + b) == TotalAmountToPay(a) + TotalAmountToPay(b)
    decreases |b|
  {
    if b == [] {
      assert a + b == a;
    } else {
      var b' := b[..|b| - 1];
      assert (a + b)[..|a + b| - 1] == a + b';
      TotalAmountAppend(a, b');
    }
  }

  /** The seated tickets are exactly the adult tickets plus the child tickets. */
  lemma {:induction false} SeatedSplit(requests: seq<TicketRequest>)
    ensures NonInfantTotal(requests) == TypeTotal(requests, ADULT) + TypeTotal(requests, CHILD)
    decreases |requests|
  {
    if requests != [] {
      SeatedSplit(requests[..|requests| - 1]);
      FilteredSumStep(requests, SeatedTypes);
      FilteredSumStep(requests, {ADULT});
      FilteredSumStep(requests, {CHILD});
    }
  }

  /**
   * The amount to pay is each type's unit price times that type's ticket
   * count: 20 per adult, 10 per child and nothing per infant.
   */
  lemma {:induction false} AmountByType(requests: seq<TicketRequest>)
    ensures TotalAmountToPay(requests) == 20 * TypeTotal(requests, ADULT) + 10 * TypeTotal(requests, CHILD)
    decreases |requests|
  {
    if requests != [] {
      var prefix, last := requests[..|requests| - 1], requests[|requests| - 1];
      AmountByType(prefix);
      FilteredSumStep(requests, {ADULT});
      FilteredSumStep(requests, {CHILD});
      PriceTimes(last.ticketType, last.count);
    }
  }

  /**
   * A multiplication helper: a line's cost with the unit price of `Price`
   * written out as a literal, so that the sums above stay linear.
   */
  lemma PriceTimes(t: TicketType, n: int)
    ensures Price(t) * n == match t case ADULT => 20 * n case CHILD => 10 * n case INFANT => 0
  {
  }

  lemma {:induction false} TypeTotalNonNegative(requests: seq<TicketRequest>, t: TicketType)
    requires NonNegativeCounts(requests)
    ensures TypeTotal(requests, t) >= 0
    decreases |requests|
  {
    if requests != [] {
      TypeTotalNonNegative(requests[..|requests| - 1], t);
      FilteredSumStep(requests, {t});
    }
  }

  /**
   * Infant requests, added anywhere after the rest, change neither the seat
   * count nor the price nor the adult count.
   */
  lemma InfantsAddNothing(requests: seq<TicketRequest>, infants: seq<TicketRequest>)
    requires AllInfants(infants)
    ensures NonInfantTotal(requests + infants) == NonInfantTotal(requests)
    ensures TotalAmountToPay(requests + infants) == TotalAmountToPay(requests)
    ensures TypeTotal(requests + infants, ADULT) == TypeTotal(requests, ADULT)
  {
    NoneKept(infants, SeatedTypes);
    NoneKept(infants, {ADULT});
    NoneKept(infants, {CHILD});
    FilterAppend(requests, infants, SeatedTypes);
    FilterAppend(requests, infants, {ADULT});
    SumCountsAppend(Filter(requests, SeatedTypes), []);
    SumCountsAppend(Filter(requests, {ADULT}), []);
    TotalAmountAppend(requests, infants);
    AmountByType(infants);
  }

  /** Filtering for types none of the requests has keeps nothing. */
  lemma NoneKept(requests: seq<TicketRequest>, types: set<TicketType>)
    requires forall i :: 0 <= i < |requests| ==> requests[i].ticketType !in types
    ensures Filter(requests, types) == []
  {
  }

  /** With no negative counts, nothing is negative and no ticket costs more than an adult one. */
  lemma TotalsBounds(requests: seq<TicketRequest>)
    requires NonNegativeCounts(requests)
    ensures 0 <= TypeTotal(requests, INFANT)
    ensures 0 <= NonInfantTotal(requests)
    ensures 0 <= TotalAmountToPay(requests) <= Price(ADULT) * NonInfantTotal(requests)
  {
    SeatedSplit(requests);
    AmountByType(requests);
    TypeTotalNonNegative(requests, ADULT);
    TypeTotalNonNegative(requests, CHILD);
    TypeTotalNonNegative(requests, INFANT);
    var a, c, n := TypeTotal(requests, ADULT), TypeTotal(requests, CHILD), NonInfantTotal(requests);
    PriceTimes(ADULT, n);
    assert n == a + c && c >= 0;
  }

  /**
   * An accepted purchase reserves at most MAX_TICKETS_ALLOWED seats and, with
   * no negative counts, pays at most the price of that many adult tickets.
   */
  lemma AcceptedPurchaseBounds(accountId: Option<int>, requests: seq<TicketRequest>)
    requires ValidateRequest(accountId, requests).Pass?
    ensures NonInfantTotal(requests) <= MAX_TICKETS_ALLOWED
    ensures TypeTotal(requests, INFANT) <= TypeTotal(requests, ADULT)
    ensures NonNegativeCounts(requests) ==>
      0 <= TotalAmountToPay(requests) <= Price(ADULT) * MAX_TICKETS_ALLOWED
  {
    if NonNegativeCounts(requests) {
      TotalsBounds(requests);
      PriceTimes(ADULT, NonInfantTotal(requests));
      PriceTimes(ADULT, MAX_TICKETS_ALLOWED);
    }
  }

  /** An empty request list passes the account and limit rules and fails for lack of an adult. */
  lemma EmptyRequestHasNoAdult(accountId: Option<int>)
    requires accountId.Some? && accountId.value > 0
    ensures ValidateRequest(accountId, []) ==
      Fail(PurchaseError(InvalidPurchaseException, ERRORCT04, NoAdultTicket(accountId.value)))
  {
  }

  /**
   * The ticket limit is inclusive: a single adult line is accepted exactly
   * when its count lies between 0 and MAX_TICKETS_ALLOWED.
   */
  lemma SingleAdultLineLimit(id: int, n: int)
    requires id > 0
    ensures ValidateRequest(Some(id), [TicketRequest(ADULT, n)]).Pass? <==> 0 <= n <= MAX_TICKETS_ALLOWED
    ensures n > MAX_TICKETS_ALLOWED ==>
      ValidateRequest(Some(id), [TicketRequest(ADULT, n)])
      == Fail(PurchaseError(InvalidPurchaseException, ERRORCT03, MaxTicketCountExceeded(MAX_TICKETS_ALLOWED)))
  {
    var r := [TicketRequest(ADULT, n)];
    FilteredSumStep(r, SeatedTypes);
    FilteredSumStep(r, {INFANT});
    FilteredSumStep(r, {ADULT});
    assert r[..0] == [];
    assert r[0].ticketType == ADULT;
  }

  /**
   * Infants never count against the limit: adding infant lines to an
   * accepted request keeps it accepted exactly while there are no more
   * infants than adults, and otherwise fails only the infant rule.
   */
  lemma InfantsWithinLimit(accountId: Option<int>, requests: seq<TicketRequest>, infants: seq<TicketRequest>)
    requires AllInfants(infants)
    requires ValidateRequest(accountId, requests).Pass?
    ensures ValidateRequest(accountId, requests + infants).Pass? <==>
      TypeTotal(requests, INFANT) + TypeTotal(infants, INFANT) <= TypeTotal(requests, ADULT)
    ensures ValidateRequest(accountId, requests + infants).Fail? ==>
      ValidateRequest(accountId, requests + infants)
      == Fail(PurchaseError(InvalidPurchaseException, ERRORCT04, MoreInfantsThanAdults(accountId.value)))
  {
    InfantsAddNothing(requests, infants);
    AppendTotals(requests, infants);
    var i :| 0 <= i < |requests| && requests[i].ticketType == ADULT;
    assert (requests + infants)[i].ticketType == ADULT;
  }

  /**
   * Only the contents of a request decide whether it is accepted, not the
   * order of its lines: swapping two blocks of lines keeps the outcome.
   */
  lemma RequestOrderIrrelevant(accountId: Option<int>, first: seq<TicketRequest>, second: seq<TicketRequest>)
    ensures ValidateRequest(accountId, first + second) == ValidateRequest(accountId, second + first)
  {
    var ab, ba := first + second, second + first;
    FilteredSumCommutes(first, second, SeatedTypes);
    FilteredSumCommutes(first, second, {ADULT});
    FilteredSumCommutes(first, second, {INFANT});
    assert IsMaxTicketCountExceeded(ab) == IsMaxTicketCountExceeded(ba);
    assert IsInfantTicketEqualAdultTicket(ab) == IsInfantTicketEqualAdultTicket(ba);
    AdultPresenceCommutes(first, second);
    AdultPresenceCommutes(second, first);
  }

  /** Swapping two blocks of lines keeps the amount to pay and the seats to reserve. */
  lemma TotalsOrderIrrelevant(first: seq<TicketRequest>, second: seq<TicketRequest>)
    ensures TotalAmountToPay(first + second) == TotalAmountToPay(second + first)
    ensures NonInfantTotal(first + second) == NonInfantTotal(second + first)
  {
    FilteredSumCommutes(first, second, SeatedTypes);
    TotalAmountAppend(first, second);
    TotalAmountAppend(second, first);
  }

  lemma FilteredSumCommutes(first: seq<TicketRequest>, second: seq<TicketRequest>, types: set<TicketType>)
    ensures SumCounts(Filter(first + second, types)) == SumCounts(Filter(second + first, types))
  {
    FilterAppend(first, second, types);
    FilterAppend(second, first, types);
    SumCountsAppend(Filter(first, types), Filter(second, types));
    SumCountsAppend(Filter(second, types), Filter(first, types));
  }

  lemma AdultPresenceCommutes(first: seq<TicketRequest>, second: seq<TicketRequest>)
    ensures IsAdultTicketPresent(first + second) ==> IsAdultTicketPresent(second + first)
  {
    var ab, ba := first + second, second + first;
    if IsAdultTicketPresent(ab) {
      var i := Find(ab, ADULT).value;
      if i < |first| {
        assert ba[|second| + i] == ab[i];
      } else {
        assert ba[i - |first|] == ab[i];
      }
    }
  }

  /** The totals of a single request line. */
  lemma LineTotals(line: TicketRequest)
    ensures TypeTotal([line], ADULT) == if line.ticketType == ADULT then line.count else 0
    ensures TypeTotal([line], INFANT) == if line.ticketType == INFANT then line.count else 0
    ensures NonInfantTotal([line]) == if line.ticketType != INFANT then line.count else 0
    ensures TotalAmountToPay([line]) == Price(line.ticketType) * line.count
  {
    assert [line][..0] == [];
    FilteredSumStep([line], {ADULT});
    FilteredSumStep([line], {INFANT});
    FilteredSumStep([line], SeatedTypes);
  }

  /** The totals of a request split in two are the sums of the parts' totals. */
  lemma AppendTotals(a: seq<TicketRequest>, b: seq<TicketRequest>)
    ensures TypeTotal(a + b, ADULT) == TypeTotal(a, ADULT) + TypeTotal(b, ADULT)
    ensures TypeTotal(a + b, INFANT) == TypeTotal(a, INFANT) + TypeTotal(b, INFANT)
    ensures NonInfantTotal(a + b) == NonInfantTotal(a) + NonInfantTotal(b)
    ensures TotalAmountToPay(a + b) == TotalAmountToPay(a) + TotalAmountToPay(b)
  {
    FilterAppend(a, b, {ADULT});
    FilterAppend(a, b, {INFANT});
    FilterAppend(a, b, SeatedTypes);
    SumCountsAppend(Filter(a, {ADULT}), Filter(b, {ADULT}));
    SumCountsAppend(Filter(a, {INFANT}), Filter(b, {INFANT}));
    SumCountsAppend(Filter(a, SeatedTypes), Filter(b, SeatedTypes));
    TotalAmountAppend(a, b);
  }

  /*
   * Worked purchase examples, each stated for
   * every count in its class: an example's own numbers are one instance.
   */

  /** Adults and children past the limit fail the limit rule (8 + 8 + 8 > 20). */
  lemma TooManyTicketsScenario(id: int, adults: int, children: int, moreChildren: int)
    requires id > 0 && adults + children + moreChildren > MAX_TICKETS_ALLOWED
    ensures ValidateRequest(Some(id), [TicketRequest(ADULT, adults), TicketRequest(CHILD, children),
                                       TicketRequest(CHILD, moreChildren)])
            == Fail(PurchaseError(InvalidPurchaseException, ERRORCT03, MaxTicketCountExceeded(MAX_TICKETS_ALLOWED)))
  {
    var x, y, z := TicketRequest(ADULT, adults), TicketRequest(CHILD, children), TicketRequest(CHILD, moreChildren);
    assert NonInfantTotal([x, y, z]) == adults + children + moreChildren by {
      assert [x, y, z] == [x] + [y] + [z];
      LineTotals(x);
      LineTotals(y);
      LineTotals(z);
      AppendTotals([x], [y]);
      AppendTotals([x] + [y], [z]);
    }
  }

  /** Infants and children within the limit but no adult fail the adult rule (8 infants, 8 children). */
  lemma NoAdultScenario(id: int, infants: int, children: int)
    requires id > 0 && children <= MAX_TICKETS_ALLOWED
    ensures ValidateRequest(Some(id), [TicketRequest(INFANT, infants), TicketRequest(CHILD, children)])
            == Fail(PurchaseError(InvalidPurchaseException, ERRORCT04, NoAdultTicket(id)))
  {
    var x, y := TicketRequest(INFANT, infants), TicketRequest(CHILD, children);
    assert NonInfantTotal([x, y]) == children by {
      assert [x, y] == [x] + [y];
      LineTotals(x);
      LineTotals(y);
      AppendTotals([x], [y]);
    }
    assert forall i :: 0 <= i < |[x, y]| ==> [x, y][i].ticketType != ADULT;
  }

  /** More infants than adults fail the infant rule (8 adults, 10 infants). */
  lemma TooManyInfantsScenario(id: int, adults: int, infants: int)
    requires id > 0 && adults <= MAX_TICKETS_ALLOWED && infants > adults
    ensures ValidateRequest(Some(id), [TicketRequest(ADULT, adults), TicketRequest(INFANT, infants)])
            == Fail(PurchaseError(InvalidPurchaseException, ERRORCT04, MoreInfantsThanAdults(id)))
  {
    var x, y := TicketRequest(ADULT, adults), TicketRequest(INFANT, infants);
    AdultAndInfantTotals(x, y);
    assert [x, y][0].ticketType == ADULT;
  }

  /**
   * As many infants as adults are accepted; the infants pay nothing and take
   * no seat (8 adults and 8 infants pay 160 for 8 seats).
   */
  lemma InfantsOnLapsScenario(id: int, adults: int, infants: int)
    requires id > 0 && infants <= adults <= MAX_TICKETS_ALLOWED
    ensures ValidateRequest(Some(id), [TicketRequest(ADULT, adults), TicketRequest(INFANT, infants)]).Pass?
    ensures TotalAmountToPay([TicketRequest(ADULT, adults), TicketRequest(INFANT, infants)]) == 20 * adults
    ensures NonInfantTotal([TicketRequest(ADULT, adults), TicketRequest(INFANT, infants)]) == adults
  {
    var x, y := TicketRequest(ADULT, adults), TicketRequest(INFANT, infants);
    AdultAndInfantTotals(x, y);
    assert Find([x, y], ADULT) == Some(0);
    assert !IsMaxTicketCountExceeded([x, y]) && IsInfantTicketEqualAdultTicket([x, y]);
  }

  lemma AdultAndInfantTotals(x: TicketRequest, y: TicketRequest)
    requires x.ticketType == ADULT && y.ticketType == INFANT
    ensures NonInfantTotal([x, y]) == x.count
    ensures TypeTotal([x, y], ADULT) == x.count && TypeTotal([x, y], INFANT) == y.count
    ensures TotalAmountToPay([x, y]) == 20 * x.count
  {
    assert [x, y] == [x] + [y];
    LineTotals(x);
    LineTotals(y);
    AppendTotals([x], [y]);
    PriceTimes(ADULT, x.count);
    PriceTimes(INFANT, y.count);
  }

  /**
   * Adults and children within the limit are accepted and pay 20 and 10
   * each; the repository's unit test buys 8 of each, paying 240 for 16 seats.
   */
  lemma AdultsWithChildrenScenario(id: int, adults: int, children: int)
    requires id > 0 && adults + children <= MAX_TICKETS_ALLOWED && adults >= 0
    ensures ValidateRequest(Some(id), [TicketRequest(ADULT, adults), TicketRequest(CHILD, children)]).Pass?
    ensures TotalAmountToPay([TicketRequest(ADULT, adults), TicketRequest(CHILD, children)]) == 20 * adults + 10 * children
    ensures NonInfantTotal([TicketRequest(ADULT, adults), TicketRequest(CHILD, children)]) == adults + children
  {
    var x, y := TicketRequest(ADULT, adults), TicketRequest(CHILD, children);
    AdultAndChildTotals(x, y);
    assert Find([x, y], ADULT) == Some(0);
  }

  lemma AdultAndChildTotals(x: TicketRequest, y: TicketRequest)
    requires x.ticketType == ADULT && y.ticketType == CHILD
    ensures NonInfantTotal([x, y]) == x.count + y.count
    ensures TypeTotal([x, y], ADULT) == x.count && TypeTotal([x, y], INFANT) == 0
    ensures TotalAmountToPay([x, y]) == 20 * x.count + 10 * y.count
  {
    assert [x, y] == [x] + [y];
    LineTotals(x);
    LineTotals(y);
    AppendTotals([x], [y]);
    PriceTimes(ADULT, x.count);
    PriceTimes(CHILD, y.count);
  }

  /**
   * The adult rule looks for an ADULT line, not for an adult ticket: a line of
   * zero adults lets up to 20 children through, with no adult among them.
   */
  lemma ChildrenWithZeroAdultLine(id: int, children: int)
    requires id > 0 && 0 <= children <= MAX_TICKETS_ALLOWED
    ensures var requests := [TicketRequest(ADULT, 0), TicketRequest(CHILD, children)];
      && ValidateRequest(Some(id), requests).Pass?
      && TypeTotal(requests, ADULT) == 0
      && NonInfantTotal(requests) == children
      && TotalAmountToPay(requests) == 10 * children
  {
    AdultAndChildTotals(TicketRequest(ADULT, 0), TicketRequest(CHILD, children));
    AdultsWithChildrenScenario(id, 0, children);
  }

  /**
   * The unit test run end to end with collaborators that accept every call:
   * one payment of 240, then one reservation of 16 seats, and no exception.
   */
  method UnitTestPurchase() returns (outcome: Outcome<PurchaseError>, calls: seq<Call>)
    ensures outcome == Pass
    ensures calls == [MakePayment(1, 240), ReserveSeat(1, 16)]
  {
    var requests := [TicketRequest(ADULT, 8), TicketRequest(CHILD, 8)];
    AdultsWithChildrenScenario(1, 8, 8);
    outcome, calls := PurchaseTickets(Some(1), requests, (_, _) => Pass, (_, _) => Pass);
  }
}
