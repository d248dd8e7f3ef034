# Cinema ticket service — a Dafny model

This project models the decision logic of a cinema ticket purchase service.
`TicketService.purchaseTickets(accountId, ...ticketTypeRequests)` checks a
purchase against four ordered business rules. It then totals the price and
the seats, asks the payment service to charge the account, and asks the
seat-reservation service to reserve the seats. For well-formed
`TicketTypeRequest` lines, every failure is reported as an exception carrying
an `ErrorCodes` entry. The frozen tables it reads (limit,
ticket types, prices, error codes) come from `src/utils/constants.js`.

Modules:

- `Wrappers`: `Option` (`None` is JavaScript's `undefined`/`null`) and `Outcome` (return normally, or throw `error`).
- `Constants`: `MAX_TICKETS_ALLOWED = 20`, the `TicketType` enum with its run-time names, the `Price` table and the five `ErrorCode`s with their description strings.
- `Exceptions`: one `PurchaseError` value for the three exception classes. It holds which class was thrown, the `ErrorCode`, and a `Reason` carrying the values the message interpolates.
- `TicketService`: the `filter`/`reduce`/`find` helpers, the validation chain `ValidateRequest`, the accumulation loop `CalculateTotals`, and the orchestration method `PurchaseTickets`. The payment and reservation services are function parameters that return normally (`Pass`) or throw (`Fail(cause)`). `PurchaseTickets` returns the `calls` it made, in order, as a real out-parameter.
- `TicketServiceProperties`: lemmas about the model. They cover how the totals split by ticket type and over concatenation, why infants never count, the bounds an accepted purchase keeps, order independence, and the worked scenarios.

Facts about the code that the model keeps:

- With the price table, 8 adults and 8 children pay 240 and 8 adults with 8 infants pay 160 (`AdultsWithChildrenScenario`, `InfantsOnLapsScenario`, `UnitTestPurchase`).
- Payment and reservation failures do not carry the collaborator's error: the new exception holds only `ERRORCT01` and a message with the account id. In `PurchaseTickets` the outcome does not depend on the collaborator's `cause`.
- "No adult" and "too many infants" share one code: the code raises `ERRORCT04` ("Adult ticket is not present") for both, and only the message tells them apart. The model keeps the shared code and distinguishes the two by `Reason`.
- The adult rule asks for an ADULT line, not for an adult ticket: `[ADULT×0, CHILD×20]` is accepted and pays 200 for 20 seats, with no adult in the party (`ChildrenWithZeroAdultLine`).

## Model

| member | source | states |
|---|---|---|
| Constants.ParseTicketType | src/utils/constants.js:6-10 | a string names a ticket type exactly when it is one of the three table values, and then that type's name is the string |
| Constants.TypeNameRoundTrip | src/utils/constants.js:6-10 | the ticket types are exactly ADULT, CHILD and INFANT, and reading back a type's name gives the same type |
| Constants.TypeNameInjective | src/utils/constants.js:6-10 | no two ticket types share a name, so comparing type strings is comparing types |
| Constants.TypeName | src/utils/constants.js:6-10 | the run-time string of each ticket type, which is its own key (helper without a contract; its properties are `ParseTicketType`, `TypeNameRoundTrip` and `TypeNameInjective`) |
| Constants.Price | src/utils/constants.js:18-22 | the unit prices are exactly 20 for ADULT, 10 for CHILD and 0 for INFANT; zero exactly for INFANT, and ADULT is the only type priced at 20 |
| Constants.CodeOfDescription | src/utils/constants.js:11-17 | an exception's `error` string identifies at most one code, and a string no code stands for yields none |
| Constants.DescriptionRoundTrip | src/utils/constants.js:11-17 | there are exactly five error codes, and each can be recovered from its description string |
| Constants.Description | src/utils/constants.js:11-17 | the description string each error code stands for (helper without a contract; its properties are `CodeOfDescription` and `DescriptionRoundTrip`) |
| Exceptions.PurchaseError.ErrorField | src/exception/PaymentGatewayException.js:4-7 | the exception's `error` property determines its error code |
| TicketService.Filter | src/pairtest/TicketService.js:127 | the filtered list is no longer than the input and holds exactly the input's requests whose type is in the kept set |
| TicketService.Find | src/pairtest/TicketService.js:138-142 | the position of the element `find` returns: the first request of the wanted type, or nothing exactly when no request has that type |
| TicketService.SumCounts | src/pairtest/TicketService.js:128 | the `reduce` sum of the ticket counts of a list of lines, folded from the left starting at 0 (helper without a contract; `SumCountsAppend` and `FilteredSumStep` state its properties) |
| TicketService.TypeTotal | src/pairtest/TicketService.js:153-158 | the number of tickets of one type: the counts of the lines of that type, summed (helper without a contract; see `FilteredSumStep`, `TypeTotalNonNegative`) |
| TicketService.NonInfantTotal | src/pairtest/TicketService.js:126-129 | the number of tickets that take a seat, i.e. all but INFANT lines summed; the same sum is the seat count of the loop at lines 47-50 (helper without a contract; `SeatedSplit` gives its closed form) |
| TicketService.TotalAmountToPay | src/pairtest/TicketService.js:43-45 | the amount to pay: unit price times count, summed over the lines (helper without a contract; `AmountByType` gives its closed form and `CalculateTotals` is proved to compute it) |
| TicketService.IsValidAccountId | src/pairtest/TicketService.js:90 | an account id passes unless it is missing or not positive (helper without a contract; `ValidateRequest` states the rule) |
| TicketService.IsMaxTicketCountExceeded | src/pairtest/TicketService.js:126-129 | true exactly when more than 20 non-infant tickets are requested; the comparison is strict, so 20 is allowed (helper without a contract; `SingleAdultLineLimit` states the boundary) |
| TicketService.IsAdultTicketPresent | src/pairtest/TicketService.js:138-142 | true exactly when some line is of type ADULT, whatever its count: it looks for a line, not for a ticket |
| TicketService.IsInfantTicketEqualAdultTicket | src/pairtest/TicketService.js:151-160 | despite its name, true exactly when the infant tickets do not outnumber the adult tickets; equality is not required (helper without a contract; `ValidateRequest` states the rule) |
| TicketService.ValidateRequest | src/pairtest/TicketService.js:89-117 | a request passes exactly when the account id is present and positive, at most 20 non-infant tickets are requested, some line is ADULT, and infants do not outnumber adults; otherwise the first failing rule decides the exception: ERRORCT02, then ERRORCT03, then ERRORCT04 for no adult, then ERRORCT04 for too many infants, always an InvalidPurchaseException |
| TicketService.FilteredSumStep | src/pairtest/TicketService.js:153-158 | a filtered count grows by the last request's count exactly when its type is kept |
| TicketService.TotalsStep | src/pairtest/TicketService.js:42-51 | one more request adds its unit price times its count to the amount, and its count to the seats unless it is INFANT |
| TicketService.CalculateTotals | src/pairtest/TicketService.js:42-51 | the loop's accumulators end equal to the sum of price times count over all requests, and to the same non-infant ticket sum the limit rule checks |
| TicketService.PurchaseTickets | src/pairtest/TicketService.js:32-78 | a rejected request makes no collaborator call and surfaces the validation error unchanged; an accepted one first pays the total amount; a failed payment gives PaymentGatewayException(ERRORCT01) with no reservation attempted; otherwise it reserves the non-infant seats and a failed reservation gives SeatReservationException(ERRORCT01); success means both calls succeeded; the collaborator's own error is dropped; ERRORCT01 marks collaborator failures only, and ERRORCT05 is never raised; a reservation is only ever the second call and never exceeds 20 seats |
| TicketServiceProperties.FilterAppend | src/pairtest/TicketService.js:126-129 | filtering a joined list is joining the filtered parts, so `filter` keeps the order of what it keeps |
| TicketServiceProperties.SumCountsAppend | src/pairtest/TicketService.js:128 | the `reduce` sum of a joined list is the sum of the parts' sums |
| TicketServiceProperties.TotalAmountAppend | src/pairtest/TicketService.js:43-45 | the amount of a joined list is the sum of the parts' amounts |
| TicketServiceProperties.SeatedSplit | src/pairtest/TicketService.js:126-129 | the tickets counted against the limit are the adult tickets plus the child tickets |
| TicketServiceProperties.AmountByType | src/pairtest/TicketService.js:42-46 | the amount to pay is 20 per adult ticket plus 10 per child ticket, with nothing for infants |
| TicketServiceProperties.PriceTimes | src/utils/constants.js:18-22 | multiplication helper: a line costs 20, 10 or 0 per ticket according to its type, with the unit price written out as a literal |
| TicketServiceProperties.TypeTotalNonNegative | src/pairtest/TicketService.js:153-158 | with no negative counts, every per-type ticket total is non-negative |
| TicketServiceProperties.InfantsAddNothing | src/pairtest/TicketService.js:47-50 | appending infant lines changes neither the seats, nor the amount, nor the adult count |
| TicketServiceProperties.NoneKept | src/pairtest/TicketService.js:127 | filtering for types no request has keeps nothing |
| TicketServiceProperties.TotalsBounds | src/pairtest/TicketService.js:42-51 | with no negative counts the seats and amount are non-negative and the amount is at most 20 per seat |
| TicketServiceProperties.AcceptedPurchaseBounds | src/pairtest/TicketService.js:96-116 | an accepted purchase reserves at most 20 seats, has no more infants than adults, and (with no negative counts) pays between 0 and 400 |
| TicketServiceProperties.EmptyRequestHasNoAdult | src/pairtest/TicketService.js:103-109 | with a valid account an empty request passes the limit rule and fails the adult rule with ERRORCT04 |
| TicketServiceProperties.SingleAdultLineLimit | src/pairtest/TicketService.js:96-102 | the limit is inclusive: one adult line is accepted exactly when its count is between 0 and 20, and more than 20 fails with ERRORCT03 |
| TicketServiceProperties.InfantsWithinLimit | src/pairtest/TicketService.js:110-116 | adding infant lines to an accepted request keeps it accepted exactly while infants do not outnumber adults; otherwise only the infant rule fails |
| TicketServiceProperties.RequestOrderIrrelevant | src/pairtest/TicketService.js:89-117 | swapping two blocks of request lines never changes the validation outcome |
| TicketServiceProperties.TotalsOrderIrrelevant | src/pairtest/TicketService.js:42-51 | swapping two blocks of request lines never changes the amount or the seats |
| TicketServiceProperties.FilteredSumCommutes | src/pairtest/TicketService.js:127-128 | a filtered ticket sum does not depend on the order of two blocks of lines |
| TicketServiceProperties.AdultPresenceCommutes | src/pairtest/TicketService.js:138-142 | whether an adult line is present does not depend on the order of two blocks of lines |
| TicketServiceProperties.LineTotals | src/pairtest/TicketService.js:42-51 | the per-type counts, seats and amount of a single request line |
| TicketServiceProperties.AppendTotals | src/pairtest/TicketService.js:42-51 | adult count, infant count, seats and amount of a joined request are the sums over its parts |
| TicketServiceProperties.TooManyTicketsScenario | src/pairtest/TicketService.js:96-102 | adult and child lines totalling more than 20 (8+8+8) fail with ERRORCT03 whatever the split |
| TicketServiceProperties.NoAdultScenario | src/pairtest/TicketService.js:103-109 | infants with at most 20 children and no adult fail with ERRORCT04 (no adult) |
| TicketServiceProperties.TooManyInfantsScenario | src/pairtest/TicketService.js:110-116 | more infants than adults (8 adults, 10 infants) fail with ERRORCT04 (too many infants) |
| TicketServiceProperties.InfantsOnLapsScenario | src/pairtest/TicketService.js:42-51 | as many infants as adults are accepted and pay 20 per adult for one seat per adult (8 and 8: 160 for 8 seats) |
| TicketServiceProperties.AdultsWithChildrenScenario | test/unit/TicketService.test.js:8-11 | adults with children within the limit are accepted and pay 20 and 10 each for one seat each (8 and 8: 240 for 16 seats) |
| TicketServiceProperties.AdultAndChildTotals | src/pairtest/TicketService.js:42-51 | an adult line followed by a child line totals 20 and 10 per ticket and seats both |
| TicketServiceProperties.AdultAndInfantTotals | src/pairtest/TicketService.js:42-51 | an adult line followed by an infant line pays 20 per adult and seats only the adults |
| TicketServiceProperties.ChildrenWithZeroAdultLine | src/pairtest/TicketService.js:138-142 | a zero-count ADULT line satisfies the adult rule: with up to 20 children and no adult ticket, the request is accepted and pays 10 per child |
| TicketServiceProperties.UnitTestPurchase | test/unit/TicketService.test.js:8-11 | the repository's unit test, run with collaborators that accept every call, pays 240 then reserves 16 seats for account 1 and raises nothing |

## Left out

- Logging (`src/utils/logger.js`, every `logger.*` call) and `Defaults.LOG_LEVEL`: output only, with no effect on any result.
- The Prometheus counters `failedEventsCounter` and `failedBusinessEventsCounter`: observability side effects, and `./lib/promClient.js` is not part of this model.
- `TicketPaymentService` and `SeatReservationService`: their source is not part of this model. Each becomes a function parameter that either returns or throws. Whatever it throws is reduced to a `cause` string that the service discards.
- `TicketTypeRequest`: its source is not part of this model. A request is a ticket type and an unbounded integer count. The service never checks that the count is positive, so negative and zero counts are modelled as the service sees them. The bounds lemmas that need non-negative counts say so in their `requires`. The type is one of the three `TicketTypes`; a type string outside the table is not represented (the service would count it against the limit, as neither adult nor infant, and price it as `NaN`).
- Account ids that are neither missing nor integers (strings, fractions, `NaN`): the model's account id is an optional integer. A non-numeric id, which JavaScript's `<=` would let through, is not represented.
- The rendered text of exception messages and the `toJSON`/`name` getters: the `Reason` constructor records which message was chosen and the values it interpolates.
- Exception subclass identity: in `src/exception` the payment and seat exceptions extend `InvalidPurchaseException`. The model records the class that was constructed, not `instanceof` relations.
- The `forEach` loop of `purchaseTickets` is a separate method, `CalculateTotals`, called at the same point and with the same accumulators. The loop is proved on its own against `TotalAmountToPay` and `NonInfantTotal`, and `PurchaseTickets` relies only on its `ensures`.
- `SumCounts`, `TypeTotal`, `NonInfantTotal`, `TotalAmountToPay`: counts, sums and products are exact unbounded integers, whereas JavaScript numbers are IEEE doubles that round once a partial sum or product passes 2^53. Requests such as ADULT×2^53, ADULT×21, ADULT×−2^53 pass the limit rule in JavaScript (the sum rounds to 20) but fail it with `ERRORCT03` in the model.
- `app.js` (HTTP bootstrap) and `eslint.config.mjs`: plumbing with no decision logic.
