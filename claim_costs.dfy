/**
 The processing-cost calculator of the claims service, and the item-sum check
 performed when a claim is submitted.

 Amounts are exact reals. The two configuration knobs that the code reads under
 their real keys (base and maximum percentage, specialty discount) and the one it
 reads under a misspelt key (the priority factor, so that its default is always
 used) are constants with the values the program ends up using.
 */
module ClaimCosts {

  import opened Options

  const BasePercentage: int := 20
  const MaxPercentage: int := 30
  const PriorityFactor: real := 0.02
  const SpecialtyDiscountPercentage: int := 5

  /** The integer nearest to y, halves rounded away from zero. */
  function RoundHalfAway(y: real): (n: int)
    ensures -0.5 <= n as real - y <= 0.5
    ensures y >= 0.0 ==> n as real - y > -0.5
    ensures y <= 0.0 ==> n as real - y < 0.5
    ensures y >= 0.0 ==> n >= 0
    ensures y <= 0.0 ==> n <= 0
  {
    if y >= 0.0 then (y + 0.5).Floor else -((-y + 0.5).Floor)
  }

  /** Rounding to an integer never reverses the order of two values. */
  lemma RoundHalfAwayMonotone(y: real, z: real)
    requires y <= z
    ensures RoundHalfAway(y) <= RoundHalfAway(z)
  {
    if y >= 0.0 {
      assert (y + 0.5).Floor <= (z + 0.5).Floor;
    } else if z <= 0.0 {
      assert (-z + 0.5).Floor <= (-y + 0.5).Floor;
    }
  }

  /** A whole number is its own rounding. */
  lemma RoundHalfAwayExact(n: int)
    ensures RoundHalfAway(n as real) == n
  {
    if n >= 0 {
      assert ((n as real) + 0.5).Floor == n;
    } else {
      assert (-(n as real) + 0.5).Floor == -n;
    }
  }

  /** x is a whole number of hundredths. */
  predicate IsCents(x: real)
  {
    (x * 100.0).Floor as real == x * 100.0
  }

  /** round(x, 2): x to two decimal places, halves away from zero. */
  function Round2(x: real): (r: real)
    ensures IsCents(r)
    ensures -0.005 <= r - x <= 0.005
    ensures x >= 0.0 ==> r - x > -0.005
    ensures x <= 0.0 ==> r - x < 0.005
    ensures x >= 0.0 ==> r >= 0.0
  {
    var y := x * 100.0;
    var n := RoundHalfAway(y);
    var r := n as real / 100.0;
    assert r * 100.0 == n as real;
    assert (n as real).Floor == n;
    assert r - x == (n as real - y) / 100.0;
    r
  }

  /** round(x, 1): x to one decimal place, halves away from zero. */
  function Round1(x: real): (r: real)
    ensures (r * 10.0).Floor as real == r * 10.0
    ensures -0.05 <= r - x <= 0.05
    ensures x >= 0.0 ==> r - x > -0.05
    ensures x <= 0.0 ==> r - x < 0.05
  {
    var y := x * 10.0;
    var n := RoundHalfAway(y);
    var r := n as real / 10.0;
    assert r * 10.0 == n as real;
    assert (n as real).Floor == n;
    assert r - x == (n as real - y) / 10.0;
    r
  }

  /** Rounding to cents never reverses the order of two values. */
  lemma Round2Monotone(x: real, y: real)
    requires x <= y
    ensures Round2(x) <= Round2(y)
  {
    RoundHalfAwayMonotone(x * 100.0, y * 100.0);
  }

  /** An amount already in whole cents is left as it is, so rounding twice is rounding once. */
  lemma Round2Exact(x: real)
    requires IsCents(x)
    ensures Round2(x) == x
    ensures Round2(Round2(x)) == Round2(x)
  {
    RoundHalfAwayExact((x * 100.0).Floor);
  }

  /**
   The day-of-month multiplier applied to a claim's base cost:
   the base percentage plus the maximum percentage spread over days 1 to 30.
   The formula is kept literally, so days 30 and 31 go beyond the intended
   envelope.
   */
  function TimeFactor(dayOfMonth: int): real
  {
    Round1(BasePercentage as real / 100.0)
      + Round1(MaxPercentage as real / 100.0) * (dayOfMonth - 1) as real / 29.0
  }

  /** With the constants above, the factor is 0.2 + 0.3 * (day - 1) / 29. */
  lemma TimeFactorFormula(dayOfMonth: int)
    ensures TimeFactor(dayOfMonth) == 0.2 + 0.3 * (dayOfMonth - 1) as real / 29.0
  {
    RoundHalfAwayExact(2);
    RoundHalfAwayExact(3);
  }

  /** The factor starts at 0.2 on the first of the month and grows every day. */
  lemma TimeFactorIncreasing(d1: int, d2: int)
    requires d1 < d2
    ensures TimeFactor(1) == 0.2
    ensures TimeFactor(d1) < TimeFactor(d2)
  {
    TimeFactorFormula(1);
    TimeFactorFormula(d1);
    TimeFactorFormula(d2);
  }

  /** Over days 1 to 31 the factor stays between 0.2 and 0.2 + 0.3 * 30 / 29, below 1. */
  lemma TimeFactorBounds(dayOfMonth: int)
    requires 1 <= dayOfMonth <= 31
    ensures 0.2 <= TimeFactor(dayOfMonth) <= 0.2 + 0.3 * 30.0 / 29.0 < 1.0
  {
    TimeFactorFormula(dayOfMonth);
  }

  /** Whether the insurer found for the claim shares the claim's specialty. */
  predicate SpecialtyMatches(claimSpecialty: string, insurerSpecialty: Option<string>)
  {
    insurerSpecialty.Some? && insurerSpecialty.value == claimSpecialty
  }

  /**
   The day-independent cost before rounding: amount times priority times the
   priority factor, less the specialty discount when the insurer's specialty is
   the claim's. `insurerSpecialty` is None when the claim's insurer code has no
   insurer; the program then raises an error reading the missing insurer's
   specialty, so None stands for a run that never reaches this cost, and the
   model gives it no discount only to keep the function total.
   */
  function UnroundedCost(totalAmount: real, priorityLevel: int, claimSpecialty: string,
                         insurerSpecialty: Option<string>): real
  {
    var cost := totalAmount * (priorityLevel as real * PriorityFactor);
    if SpecialtyMatches(claimSpecialty, insurerSpecialty)
    then cost - (SpecialtyDiscountPercentage as real / 100.0) * cost
    else cost
  }

  /** The day-independent processing cost, rounded to two places. */
  function BaseCost(totalAmount: real, priorityLevel: int, claimSpecialty: string,
                    insurerSpecialty: Option<string>): (r: real)
    ensures IsCents(r)
  {
    Round2(UnroundedCost(totalAmount, priorityLevel, claimSpecialty, insurerSpecialty))
  }

  /** Base cost as a closed formula: 2% per priority level, 95% of it with a matching specialty. */
  lemma BaseCostFormula(totalAmount: real, priorityLevel: int, claimSpecialty: string,
                        insurerSpecialty: Option<string>)
    ensures BaseCost(totalAmount, priorityLevel, claimSpecialty, insurerSpecialty)
         == Round2(totalAmount * priorityLevel as real * 0.02
                   * (if SpecialtyMatches(claimSpecialty, insurerSpecialty) then 0.95 else 1.0))
    ensures -0.005 <= BaseCost(totalAmount, priorityLevel, claimSpecialty, insurerSpecialty)
                      - totalAmount * priorityLevel as real * 0.02
                        * (if SpecialtyMatches(claimSpecialty, insurerSpecialty) then 0.95 else 1.0)
                   <= 0.005
  {
    var formula := totalAmount * priorityLevel as real * 0.02
                   * (if SpecialtyMatches(claimSpecialty, insurerSpecialty) then 0.95 else 1.0);
    assert UnroundedCost(totalAmount, priorityLevel, claimSpecialty, insurerSpecialty) == formula;
  }

  /**
   For a non-negative amount and the valid priority levels, a claim whose insurer
   has the claim's specialty costs at most what it costs under any other insurer.
   */
  lemma DiscountNeverIncreases(totalAmount: real, priorityLevel: int, specialty: string,
                               other: Option<string>)
    requires totalAmount >= 0.0 && priorityLevel >= 1
    ensures BaseCost(totalAmount, priorityLevel, specialty, Some(specialty))
         <= BaseCost(totalAmount, priorityLevel, specialty, other)
  {
    var m := priorityLevel as real * PriorityFactor;
    assert m >= 0.0;
    assert totalAmount * m >= 0.0;
    if !SpecialtyMatches(specialty, other) {
      assert UnroundedCost(totalAmount, priorityLevel, specialty, other)
          == UnroundedCost(totalAmount, priorityLevel, specialty, None);
    }
    Round2Monotone(UnroundedCost(totalAmount, priorityLevel, specialty, Some(specialty)),
                   UnroundedCost(totalAmount, priorityLevel, specialty, other));
  }

  /** The base cost of a claim with a non-negative amount and a valid priority is non-negative. */
  lemma BaseCostNonNegative(totalAmount: real, priorityLevel: int, claimSpecialty: string,
                            insurerSpecialty: Option<string>)
    requires totalAmount >= 0.0 && priorityLevel >= 1
    ensures BaseCost(totalAmount, priorityLevel, claimSpecialty, insurerSpecialty) >= 0.0
  {
    var m := priorityLevel as real * PriorityFactor;
    assert m >= 0.0;
    assert totalAmount * m >= 0.0;
    assert UnroundedCost(totalAmount, priorityLevel, claimSpecialty, insurerSpecialty) >= 0.0;
  }

  /**
   The cost of processing a claim on a given day of the month: its base cost,
   recomputed from the claim, times the time factor, with no further rounding.
   */
  function TotalCost(totalAmount: real, priorityLevel: int, claimSpecialty: string,
                     insurerSpecialty: Option<string>, dayOfMonth: int): real
  {
    BaseCost(totalAmount, priorityLevel, claimSpecialty, insurerSpecialty) * TimeFactor(dayOfMonth)
  }

  /**
   On every day of a month the total cost of a claim with a non-negative amount is
   between a fifth of its base cost and its base cost; on the first it is exactly a fifth.
   */
  lemma TotalCostWithinBase(totalAmount: real, priorityLevel: int, claimSpecialty: string,
                            insurerSpecialty: Option<string>, dayOfMonth: int)
    requires totalAmount >= 0.0 && priorityLevel >= 1
    requires 1 <= dayOfMonth <= 31
    ensures 0.2 * BaseCost(totalAmount, priorityLevel, claimSpecialty, insurerSpecialty)
         <= TotalCost(totalAmount, priorityLevel, claimSpecialty, insurerSpecialty, dayOfMonth)
         <= BaseCost(totalAmount, priorityLevel, claimSpecialty, insurerSpecialty)
    ensures TotalCost(totalAmount, priorityLevel, claimSpecialty, insurerSpecialty, 1)
         == 0.2 * BaseCost(totalAmount, priorityLevel, claimSpecialty, insurerSpecialty)
  {
    var base := BaseCost(totalAmount, priorityLevel, claimSpecialty, insurerSpecialty);
    BaseCostNonNegative(totalAmount, priorityLevel, claimSpecialty, insurerSpecialty);
    TimeFactorBounds(dayOfMonth);
    TimeFactorIncreasing(0, 1);
    ScaleWithin(base, TimeFactor(dayOfMonth),
                TotalCost(totalAmount, priorityLevel, claimSpecialty, insurerSpecialty, dayOfMonth));
    assert TotalCost(totalAmount, priorityLevel, claimSpecialty, insurerSpecialty, 1) == base * 0.2;
  }

  /** Scaling a non-negative amount by a factor in [0.2, 1] keeps it between a fifth of itself and itself. */
  lemma ScaleWithin(base: real, f: real, scaled: real)
    requires base >= 0.0 && 0.2 <= f <= 1.0 && scaled == base * f
    ensures 0.2 * base <= scaled <= base
  {
    assert base * (1.0 - f) >= 0.0;
    assert base * (f - 0.2) >= 0.0;
  }

  // ---------------------------------------------------------------------------
  // Submission of a claim

  datatype Item = Item(name: string, unitPrice: real, quantity: int)

  /** The sum of unit price times quantity over the items. */
  function ItemsTotal(items: seq<Item>): real
  {
    if items == [] then 0.0
    else ItemsTotal(items[..|items| - 1]) + items[|items| - 1].unitPrice * items[|items| - 1].quantity as real
  }

  /** The item sum splits over concatenation, so it does not depend on how the list is built. */
  lemma {:induction false} ItemsTotalAppend(a: seq<Item>, b: seq<Item>)
    ensures ItemsTotal(a + b) == ItemsTotal(a) + ItemsTotal(b)
  {
    if b == [] {
      assert a + b == a;
    } else {
      ItemsTotalAppend(a, b[..|b| - 1]);
      assert (a + b)[..|a + b| - 1] == a + b[..|b| - 1];
    }
  }

  /** Items that pass the request's field rules (price at least 0, quantity at least 1) sum to at least 0. */
  lemma {:induction false} ItemsTotalNonNegative(items: seq<Item>)
    requires forall i :: 0 <= i < |items| ==> items[i].unitPrice >= 0.0 && items[i].quantity >= 1
    ensures ItemsTotal(items) >= 0.0
  {
    if items != [] {
      ItemsTotalNonNegative(items[..|items| - 1]);
      var last := items[|items| - 1];
      assert last.unitPrice * last.quantity as real >= 0.0;
    }
  }

  datatype Submission = Submission(
    insurerCode: string,
    providerName: string,
    encounterDate: string,
    specialty: string,
    priorityLevel: int,
    totalAmount: real,
    items: seq<Item>)

  /**
   A freshly stored claim: the submitted fields, and the columns the database
   fills by default: base cost 0, no batch id or date, not processed.
   */
  datatype NewClaim = NewClaim(
    submitted: Submission,
    baseCost: real,
    batchId: Option<string>,
    batchDate: Option<string>,
    isProcessed: bool)

  /** What the submission returns: the status code, whether a claim was stored and whether its batching job was queued. */
  datatype Response = Response(status: int, stored: Option<NewClaim>, jobDispatched: bool)

  const StatusCreated: int := 201
  const StatusUnprocessable: int := 422

  /**
   Submitting a claim: rejected with 422 and nothing stored when the items do not
   sum to the total; otherwise the claim is stored (the outcome of the save is
   the parameter `saveSucceeds`) and, once stored, its batching job is queued.
   */
  function CreateClaim(s: Submission, saveSucceeds: bool): (r: Response)
    ensures ItemsTotal(s.items) != s.totalAmount ==> r == Response(StatusUnprocessable, None, false)
    ensures r.status == StatusCreated <==> ItemsTotal(s.items) == s.totalAmount && saveSucceeds
    ensures r.status == StatusCreated || r.status == StatusUnprocessable
    ensures r.jobDispatched <==> r.status == StatusCreated
    ensures r.stored.Some? <==> r.status == StatusCreated
    ensures r.stored.Some? ==>
              var c := r.stored.value;
              && c.submitted == s && c.submitted.totalAmount == ItemsTotal(s.items)
              && c.baseCost == 0.0 && c.batchId.None? && c.batchDate.None? && !c.isProcessed
  {
    if ItemsTotal(s.items) != s.totalAmount then
      Response(StatusUnprocessable, None, false)
    else if saveSucceeds then
      var c := NewClaim(s, 0.0, None, None, false);
      Response(StatusCreated, Some(c), true)
    else
      Response(StatusUnprocessable, None, false)
  }

}
