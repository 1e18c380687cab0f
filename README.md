# Claim batching: a Dafny model

This project models the two services at the heart of a claims-processing
application.

- **The batch claim service** (`BatchClaimService`) is modelled in `batch_assignment.dfy`.
  - For one insurer and provider, it takes the still-unprocessed claims and packs each one greedily into a day-batch.
  - It tries the batch for today first, then each of the next 30 days, and uses the first whose admission rule lets the claim in.
  - The admission rule checks capacity, the maximum batch size and a minimum-size guard.
  - The day-batches live in a field of the service object, so they survive from one run to the next on the same object.
  - At the end of a run, every batch's id and date are written onto its member claims, and the insurer is notified once.
- **The claim service** (`ClaimService`) is modelled in `claim_costs.dfy`.
  - The day-independent base processing cost is amount × priority × 0.02, less a 5 % specialty discount, rounded to cents.
  - The total cost multiplies the base cost by a day-of-month time factor.
  - On submission, the item lines must sum to the claim's total.

`scenarios.dfy` replays the unit-test scenarios against the model. In them,
the insurer allows 2 to 5 claims and a capacity of 500 per batch, and the
scaled cost is replaced by the base cost. The one exception is
`StaleBaseCostBreaksCapacity`, which runs the claim service's own costs on a
calendar where every day is the first of the month.

Modules:

- `Options` holds the optional-value type.
- `ClaimCosts` is the claim service, written as pure functions.
- `BatchAssignment` is the batch claim service.
  - The `BatchClaimService` class has the `batches` field, and its methods have the source's loops.
  - Specification functions (`PlaceClaim`, `Assign`, `SaveAll`) state what each method computes.
  - Lemmas prove the invariants of a run.
- `Scenarios` holds the concrete runs.

Representation choices:

- **The batch table.** PHP's ordered `$batches` array is a `BatchTable`:
  - the batch ids in creation order (`order`);
  - a map from batch id to batch (`entries`).
- **Batch ids.** The id string "provider M j Y" is the pair `BatchKey(provider, day)`. The rendering is injective in both parts.
- **Days.** Days are absolute day numbers, and `today` is the day of the run.
  - The calendar `dayOfMonth` turns a day number into its day of the month.
  - The injected claim service's cost function `costOf` is a plain function value.
  - Both are given to the service's constructor, as the PHP constructor receives the claim service.
- **The claims table** is a map from claim id to the pair (batch id, batch date) that the service writes.

## Model

| member | source | states |
|---|---|---|
| ClaimCosts.RoundHalfAway | app/Services/ClaimService.php:87 | PHP's round to an integer: within a half of the input, an exact half goes away from zero, sign preserved |
| ClaimCosts.RoundHalfAwayMonotone | app/Services/ClaimService.php:87 | rounding never reverses the order of two amounts |
| ClaimCosts.RoundHalfAwayExact | app/Services/ClaimService.php:64 | a whole number rounds to itself |
| ClaimCosts.Round2 | app/Services/ClaimService.php:87 | round(x, 2) is a whole number of cents within half a cent of x, an exact half cent goes away from zero, and the result is non-negative for non-negative x |
| ClaimCosts.Round1 | app/Services/ClaimService.php:64 | round(x, 1) is a whole number of tenths within 0.05 of x, and an exact half tenth goes away from zero |
| ClaimCosts.Round2Monotone | app/Services/ClaimService.php:87 | rounding to cents is monotone |
| ClaimCosts.Round2Exact | app/Services/ClaimService.php:87 | an amount already in cents is unchanged by rounding, so rounding twice is rounding once |
| ClaimCosts.TimeFactorFormula | app/Services/ClaimService.php:61-64 | with the percentages 20 and 30 the time factor is 0.2 + 0.3 × (day − 1) / 29 |
| ClaimCosts.TimeFactorIncreasing | app/Services/ClaimService.php:64 | the factor is 0.2 on day 1 and strictly increasing in the day of the month |
| ClaimCosts.TimeFactorBounds | app/Services/ClaimService.php:64 | over days 1 to 31 the factor lies between 0.2 and 0.2 + 0.3 × 30 / 29, which is below 1 |
| ClaimCosts.BaseCost | app/Services/ClaimService.php:79-89 | the base processing cost is a whole number of cents |
| ClaimCosts.BaseCostFormula | app/Services/ClaimService.php:79-87 | base cost = round2(amount × priority × 0.02 × (0.95 if the insurer's specialty is the claim's, else 1)), and lies within half a cent of that product |
| ClaimCosts.DiscountNeverIncreases | app/Services/ClaimService.php:82-85 | for a non-negative amount and priority at least 1, the base cost under an insurer with the claim's specialty is at most the base cost under any other insurer |
| ClaimCosts.BaseCostNonNegative | app/Services/ClaimService.php:79-87 | the base cost is at least 0 when the amount is at least 0 and the priority at least 1 |
| ClaimCosts.TotalCostWithinBase | app/Services/ClaimService.php:57-68 | the total cost is base cost × time factor with no further rounding; on each day 1 to 31 it lies between a fifth of the base cost and the base cost, and on day 1 it is exactly a fifth |
| ClaimCosts.ItemsTotalAppend | app/Services/ClaimService.php:16 | the item sum of two lists joined is the sum of their item sums |
| ClaimCosts.ItemsTotalNonNegative | app/Services/ClaimService.php:16 | items with price at least 0 and quantity at least 1 sum to at least 0 |
| ClaimCosts.CreateClaim | app/Services/ClaimService.php:14-53 | status 422 with nothing stored and no job exactly when the item sum differs from the total or the save fails; otherwise 201, the claim is stored with the submitted fields, base cost 0, no batch and not processed (the table's defaults), and its batching job is queued |
| BatchAssignment.AdmissionRule | app/Services/BatchClaimService.php:132-166 | the admission rule, both directions: a new batch admits exactly the claims within capacity by base cost; an existing batch also needs fewer than the maximum claims, a new total within capacity, and a new total below capacity while it is under the minimum size |
| BatchAssignment.PlaceEffect | app/Services/BatchClaimService.php:116-127 | adding a claim creates or updates only its own batch: a new batch holds just the claim, at its scaled cost, dated by its day, and goes last in creation order; an existing one keeps its date and position and gains the claim and its cost; every other batch is unchanged |
| BatchAssignment.FirstFitEarliest | app/Services/BatchClaimService.php:84-98 | the day search returns the smallest admitting offset in range, and returns none only when no offset up to 30 admits |
| BatchAssignment.PlaceClaimEarliest | app/Services/BatchClaimService.php:76-99 | a claim goes to the smallest offset in 0 to 30 whose batch admits it, and nowhere (table unchanged) when none does |
| BatchAssignment.OverCapacityLeavesTable | app/Services/BatchClaimService.php:80-82 | a claim whose base cost exceeds the capacity leaves the table unchanged and is refused on every candidate day by the rule's own re-check |
| BatchAssignment.AssignKeepsWellFormed | app/Services/BatchClaimService.php:116-127 | a run keeps each batch id listed once, in creation order, with every batch dated by its id's day |
| BatchAssignment.AssignKeepsSizeBound | app/Services/BatchClaimService.php:154-156 | with a maximum batch size of at least 1, no run lets a batch hold more claims than the maximum |
| BatchAssignment.AssignKeepsCapacity | app/Services/BatchClaimService.php:150-165 | when no scaled cost exceeds the claim's base cost, no run takes a batch's cost above the capacity |
| BatchAssignment.ServiceCostKeepsCapacity | app/Services/BatchClaimService.php:136-165 | with the claim service's own costs (each claim's insurer specialty read from the insurer table) and days of the month 1 to 31, a run keeps every batch within the capacity, provided every pending row has an amount at least 0, a priority at least 1 and a stored base cost equal to the one the claim service recomputes for it |
| BatchAssignment.AssignConserves | app/Services/BatchClaimService.php:113-127 | conservation: after a run, each batch's cost is the sum of its members' scaled costs on its own day of the month |
| BatchAssignment.OverCapacityNeverBatched | app/Services/BatchClaimService.php:80-82 | a pending claim above capacity is never appended to any batch during a run |
| BatchAssignment.AssignIgnoresOthers | app/Services/BatchClaimService.php:51-53 | a run never appends a claim that is not among the pending ones |
| BatchAssignment.SaveAll | app/Services/BatchClaimService.php:171-176 | writing the batches adds no claim to and removes none from the store |
| BatchAssignment.LastHolder | app/Services/BatchClaimService.php:171-176 | the last batch in creation order found to hold a claim does hold it |
| BatchAssignment.LastHolderNone | app/Services/BatchClaimService.php:171-176 | no holder is found only when no batch holds the claim |
| BatchAssignment.SaveAllStamps | app/Services/BatchClaimService.php:171-176 | after the batches are written in creation order, a claim carries the id and date of the last batch holding it, or keeps its columns when none does |
| BatchAssignment.SaveBatchesEffect | app/Services/BatchClaimService.php:168-180 | after the write a claim in exactly one batch carries that batch's id and date, a claim in no batch keeps its previous columns, and the set of claims is unchanged |
| BatchAssignment.NoticeFor | app/Services/BatchClaimService.php:182-192 | one mail, to the insurer's address about the claim that started the run, exactly when the address is present and not falsy |
| BatchAssignment.BatchClaimService.constructor | app/Services/BatchClaimService.php:15-27 | a new service holds no batches and keeps the injected cost function and calendar |
| BatchAssignment.BatchClaimService.ProcessBatch | app/Services/BatchClaimService.php:29-57 | an unknown insurer aborts the run and changes nothing; otherwise the insurer's policy is loaded, the batches become the old batches with every pending claim placed in order, the store is written from all batches and the notice is the insurer's |
| BatchAssignment.BatchClaimService.ProcessSingleClaim | app/Services/BatchClaimService.php:76-99 | the loop over at most 31 days leaves the batches as the earliest-admitting-day placement of the claim, or unchanged |
| BatchAssignment.BatchClaimService.AddToBatch | app/Services/BatchClaimService.php:101-130 | returns exactly the admission rule's verdict for the claim's batch on that day, and then places the claim there; when refused, nothing changes |
| BatchAssignment.BatchClaimService.SaveBatches | app/Services/BatchClaimService.php:168-180 | the store after writing every batch in creation order, and the insurer's notice |
| Scenarios.SixFreeClaimsSplitAtMaximum | tests/Unit/BatchClaimServiceTest.php:149-177 | six zero-cost claims with maximum 5: claims 1 to 5 fill today's batch and claim 6 opens tomorrow's |
| Scenarios.SixClaimsOfHundredSplitAtMaximum | app/Services/BatchClaimService.php:154-156 | six claims of cost 100 against capacity 500: five fill today's batch to exactly 500 and the sixth opens tomorrow's |
| Scenarios.EqualRunSharesToday | app/Services/BatchClaimService.php:143-165 | up to five equal claims whose running sum stays within capacity (strictly when the second claim brings the batch to its minimum size) all go to today's batch, in order |
| Scenarios.ThreeEqualClaimsShareOneBatch | tests/Unit/BatchClaimServiceTest.php:58-79 | three equal claims summing to at most 500 all land in today's batch |
| Scenarios.CostlyClaimNeverBatched | tests/Unit/BatchClaimServiceTest.php:81-104 | a claim with base cost 1500 against capacity 500 is in no batch |
| Scenarios.StaleBaseCostBreaksCapacity | app/Services/BatchClaimService.php:136-146 | the premise on stored base costs is needed: a row still carrying the column default 0, whose recomputed scaled cost is 2000, is not costed, and a run puts it alone into a new batch whose total exceeds the capacity of 500 |
| Scenarios.TwoRunsOnOneService | tests/Unit/BatchClaimServiceTest.php:135-145 | two runs on one service object over the same two unprocessed claims: the batches kept from the first run receive the claims again, and both claims carry the same batch id and date after each run |

## Left out

- Fetching the unprocessed claims is outside the model. That is the query and cursor in `getUnprocessedClaims`: the filter on insurer, provider and `is_processed`, and the ordering by date preference ascending and base cost descending. The pending claims are an input sequence, already ordered.
  - The field comment there says the cost order is ascending, but the code sorts by cost descending.
  - The insurer's date preference is read into a field; it only serves that ordering. It is kept in `Insurer` but never used.
- The insurer lookups become a map from insurer code to insurer. `firstOrFail` throws on an unknown code. The model turns that into the outcome `InsurerNotFound`, with nothing changed. The log-and-return branch after it can never run, so it is not modelled separately.
- The cost function's own insurer lookup (by `first()`) is `SpecialtyOf`: the specialty of the insurer with the claim's code, in the same insurer table that `ProcessBatch` reads.
  - When no insurer has the code, the program raises an error reading the specialty of a missing insurer. `None` stands for that error. A run never reaches it, because its claims are fetched by the insurer code that `ProcessBatch` has already found.
  - The model gives `None` no discount, only to keep the cost function total.
  - The service's constructor takes any cost function. The capacity property is stated for `ServiceCost` of the insurer table, the one the program injects.
- `is_processed` is read by the claims query and set nowhere, so every run sees the earlier runs' claims again. The model keeps that by taking the pending sequence as given.
- The `$this->claim` field keeps the claim that started the run. It is the `claim` parameter of `ProcessBatch`, passed on to the notice.
- Mail, its content and the queued job (`ProcessClaimBatch`) are I/O. The mail is the returned `Notice` event. Concurrent jobs are not modelled.
- Database writes become the returned claim store. The per-batch `whereIn` update is `StampAll`.
- PHP floats are exact reals. IEEE rounding effects and the decimal(10,2) column type are not modelled.
- Carbon dates are absolute day numbers, and the day of the month is the injected calendar.
- `processSingleClaim` reads `now()` afresh for each claim (app/Services/BatchClaimService.php:84). The model gives every claim of a run the same `today`, so a run during which the date changes is not modelled.
- HTTP request validation in the controller is not part of the model. It is declarative rules handed to the framework. Its bounds appear as preconditions instead.
  - Amount at least 0 and priority at least 1: `DiscountNeverIncreases`, `BaseCostNonNegative`, `TotalCostWithinBase`, and `CostedRow` in `ServiceCostKeepsCapacity`.
  - Price at least 0 and quantity at least 1: `ItemsTotalNonNegative`.
- Configuration loading is not modelled; the values are baked-in constants.
  - The priority factor is read under the key `priorityFactor`, while the configuration file names it `priority_factor`. The default 0.02 is therefore always what is used.
  - The other three values are read under their real keys.
- ClaimCosts.TotalCost recomputes the base cost from the claim's amount, priority and specialty, as `calculateTotalProcessingCost` does. It does not read the stored `base_processing_cost` column.
- A null `base_processing_cost` is not modelled. The column defaults to 0 and the rows carry a real.
- The defaults of a newly stored claim (base cost 0, no batch id or date, not processed) are the claims table's column defaults (database/migrations/2024_07_18_135321_create_claims_table.php:19-23); the schema itself is not modelled.
- BatchAssignment.ServiceCostKeepsCapacity: is proved for rows whose stored `base_processing_cost` is current. For a new batch, the admission rule checks only the stored base cost, not the scaled cost it adds. For an existing batch, it checks the new total, which includes the scaled cost.
  - Each job (app/Jobs/ProcessClaimBatch.php:37-41) stores only its own claim's cost before the run, and the run also picks up the insurer's other unprocessed claims.
  - A claim whose job has not run yet still carries the default 0 and can overfill a new batch, as `Scenarios.StaleBaseCostBreaksCapacity` shows.
- The batch id string is the injective pair `BatchKey`. Its exact text ("provider M j Y") and the `Y-m-d` date format are not modelled.
