/**
 Concrete runs of the batch-assignment engine, with the insurer of the unit
 tests (minimum 2, maximum 5 claims, capacity 500) and the substitute cost
 function those tests give the engine: a claim's scaled cost is its base cost
 on every day. The section on the claim service's own costs uses those costs
 instead, on a calendar where every day is the first of the month.
 */
module Scenarios {

  import opened Options
  import opened BatchAssignment
  import ClaimCosts

  const TestPolicy: Policy := Policy(2, 5, 500.0)

  /** The unit tests' stand-in for the claim service: the scaled cost is the base cost. */
  const BaseAsScaled: CostFn := (c: ClaimRow, dom: int) => c.baseCost

  const Provider: string := "Test Provider"

  /** A pending claim of the test insurer and provider. */
  function Row(id: ClaimId, baseCost: real): ClaimRow
  {
    ClaimRow(id, "TEST-123", Provider, "Cardiology", 4, 200.0, baseCost)
  }

  /** A table holding only today's batch. */
  function Today(today: nat, total: real, ids: seq<ClaimId>): BatchTable
  {
    BatchTable([BatchKey(Provider, today)], map[BatchKey(Provider, today) := DayBatch(total, today, ids)])
  }

  /** Claims 1 to n of the test provider, each with base cost b, in that order. */
  function Run(n: nat, b: real): (s: seq<ClaimRow>)
    ensures |s| == n
  {
    if n == 0 then [] else Run(n - 1, b) + [Row(n, b)]
  }

  /** The ids 1 to n in order. */
  function Ids(n: nat): (s: seq<ClaimId>)
    ensures |s| == n
  {
    if n == 0 then [] else Ids(n - 1) + [n]
  }

  /** The total of n claims of cost b, added one at a time as the batch total is. */
  function Times(n: nat, b: real): (r: real)
    ensures 0.0 <= b ==> 0.0 <= r
  {
    if n == 0 then 0.0 else Times(n - 1, b) + b
  }

  // ---------------------------------------------------------------------------
  // One claim at a time

  /** Processing one more claim extends a run by one placement. */
  lemma AssignSnoc(t: BatchTable, p: Policy, cost: CostFn, cal: Calendar, pending: seq<ClaimRow>, c: ClaimRow,
                   today: nat)
    ensures Assign(t, p, cost, cal, pending + [c], today)
         == PlaceClaim(Assign(t, p, cost, cal, pending, today), p, cost, cal, c, today)
  {
    assert (pending + [c])[..|pending|] == pending;
  }

  /** The first claim on an empty table opens today's batch. */
  lemma FirstOfDay(cal: Calendar, today: nat, id: ClaimId, b: real, total: real, ids: seq<ClaimId>)
    requires b <= 500.0 && total == b && ids == [id]
    ensures PlaceClaim(EmptyTable, TestPolicy, BaseAsScaled, cal, Row(id, b), today) == Today(today, total, ids)
  {
    var c := Row(id, b);
    assert AdmitsOn(EmptyTable, TestPolicy, BaseAsScaled, cal, c, today, 0);
    assert FirstFit(EmptyTable, TestPolicy, BaseAsScaled, cal, c, today, 0) == Some(0);
  }

  /** A claim the rule admits to today's only batch is appended to it. */
  lemma JoinToday(cal: Calendar, today: nat, total: real, ids: seq<ClaimId>, id: ClaimId, b: real,
                  total': real, ids': seq<ClaimId>)
    requires b <= 500.0 && |ids| < 5 && total + b <= 500.0 && (|ids| < 2 ==> total + b < 500.0)
    requires total' == total + b && ids' == ids + [id]
    ensures PlaceClaim(Today(today, total, ids), TestPolicy, BaseAsScaled, cal, Row(id, b), today)
         == Today(today, total', ids')
  {
    var t := Today(today, total, ids);
    var c := Row(id, b);
    assert AdmitsOn(t, TestPolicy, BaseAsScaled, cal, c, today, 0);
    assert FirstFit(t, TestPolicy, BaseAsScaled, cal, c, today, 0) == Some(0);
  }

  /** A claim reaching an already full batch for today opens one for the next day. */
  lemma OpenTomorrow(cal: Calendar, today: nat, total: real, ids: seq<ClaimId>, id: ClaimId, b: real)
    requires b <= 500.0 && |ids| >= 5
    ensures PlaceClaim(Today(today, total, ids), TestPolicy, BaseAsScaled, cal, Row(id, b), today)
         == BatchTable([BatchKey(Provider, today), BatchKey(Provider, today + 1)],
                       map[BatchKey(Provider, today) := DayBatch(total, today, ids),
                           BatchKey(Provider, today + 1) := DayBatch(b, today + 1, [id])])
  {
    var t := Today(today, total, ids);
    var c := Row(id, b);
    assert !AdmitsOn(t, TestPolicy, BaseAsScaled, cal, c, today, 0);
    assert AdmitsOn(t, TestPolicy, BaseAsScaled, cal, c, today, 1);
    assert FirstFit(t, TestPolicy, BaseAsScaled, cal, c, today, 1) == Some(1);
  }

  // ---------------------------------------------------------------------------
  // Runs of equal claims

  /**
   A run of up to five equal claims whose sum stays within the capacity (strictly
   while the second claim brings the batch to its minimum size) shares one batch for today.
   */
  lemma {:induction false} EqualRunSharesToday(cal: Calendar, today: nat, b: real, n: nat)
    requires 1 <= n <= 5 && 0.0 <= b && Times(n, b) <= 500.0 && (n == 2 ==> Times(n, b) < 500.0)
    ensures Assign(EmptyTable, TestPolicy, BaseAsScaled, cal, Run(n, b), today) == Today(today, Times(n, b), Ids(n))
  {
    if n == 1 {
      FirstOfRun(cal, today, b);
    } else {
      assert n - 1 == 2 ==> Times(n - 1, b) < 500.0 by {
        if n == 3 { assert Times(2, b) == Times(1, b) + b == b + b; }
      }
      EqualRunSharesToday(cal, today, b, n - 1);
      ExtendRun(cal, today, b, n);
    }
  }

  /** The first claim of a run opens today's batch. */
  lemma FirstOfRun(cal: Calendar, today: nat, b: real)
    requires b <= 500.0
    ensures Assign(EmptyTable, TestPolicy, BaseAsScaled, cal, Run(1, b), today) == Today(today, Times(1, b), Ids(1))
  {
    calc {
      Assign(EmptyTable, TestPolicy, BaseAsScaled, cal, Run(1, b), today);
      { AssignSnoc(EmptyTable, TestPolicy, BaseAsScaled, cal, Run(0, b), Row(1, b), today); }
      PlaceClaim(Assign(EmptyTable, TestPolicy, BaseAsScaled, cal, Run(0, b), today),
                 TestPolicy, BaseAsScaled, cal, Row(1, b), today);
      { assert Run(0, b) == []; }
      PlaceClaim(EmptyTable, TestPolicy, BaseAsScaled, cal, Row(1, b), today);
      { assert Ids(1) == [] + [1] == [1];
        assert Times(1, b) == 0.0 + b == b;
        FirstOfDay(cal, today, 1, b, Times(1, b), Ids(1)); }
      Today(today, Times(1, b), Ids(1));
    }
  }

  /** Claim n of a run joins the batch the first n - 1 claims share. */
  lemma ExtendRun(cal: Calendar, today: nat, b: real, n: nat)
    requires 2 <= n <= 5 && 0.0 <= b && Times(n, b) <= 500.0 && (n == 2 ==> Times(n, b) < 500.0)
    requires Assign(EmptyTable, TestPolicy, BaseAsScaled, cal, Run(n - 1, b), today)
          == Today(today, Times(n - 1, b), Ids(n - 1))
    ensures Assign(EmptyTable, TestPolicy, BaseAsScaled, cal, Run(n, b), today) == Today(today, Times(n, b), Ids(n))
  {
    calc {
      Assign(EmptyTable, TestPolicy, BaseAsScaled, cal, Run(n, b), today);
      { AssignSnoc(EmptyTable, TestPolicy, BaseAsScaled, cal, Run(n - 1, b), Row(n, b), today); }
      PlaceClaim(Assign(EmptyTable, TestPolicy, BaseAsScaled, cal, Run(n - 1, b), today),
                 TestPolicy, BaseAsScaled, cal, Row(n, b), today);
      PlaceClaim(Today(today, Times(n - 1, b), Ids(n - 1)), TestPolicy, BaseAsScaled, cal, Row(n, b), today);
      { JoinToday(cal, today, Times(n - 1, b), Ids(n - 1), n, b, Times(n, b), Ids(n)); }
      Today(today, Times(n, b), Ids(n));
    }
  }

  /**
   Six claims of equal base cost b, where five of them still fit the capacity:
   the first five fill today's batch to the maximum size, and the sixth opens a
   batch for the next day.
   */
  lemma SixEqualClaims(cal: Calendar, today: nat, b: real)
    requires 0.0 <= b <= 100.0
    ensures var k0 := BatchKey(Provider, today);
            var k1 := BatchKey(Provider, today + 1);
            Assign(EmptyTable, TestPolicy, BaseAsScaled, cal, Run(6, b), today)
            == BatchTable([k0, k1], map[k0 := DayBatch(Times(5, b), today, Ids(5)), k1 := DayBatch(b, today + 1, [6])])
  {
    TimesFive(b);
    calc {
      Assign(EmptyTable, TestPolicy, BaseAsScaled, cal, Run(6, b), today);
      { AssignSnoc(EmptyTable, TestPolicy, BaseAsScaled, cal, Run(5, b), Row(6, b), today); }
      PlaceClaim(Assign(EmptyTable, TestPolicy, BaseAsScaled, cal, Run(5, b), today),
                 TestPolicy, BaseAsScaled, cal, Row(6, b), today);
      { EqualRunSharesToday(cal, today, b, 5); }
      PlaceClaim(Today(today, Times(5, b), Ids(5)), TestPolicy, BaseAsScaled, cal, Row(6, b), today);
      { OpenTomorrow(cal, today, Times(5, b), Ids(5), 6, b); }
      BatchTable([BatchKey(Provider, today), BatchKey(Provider, today + 1)],
                 map[BatchKey(Provider, today) := DayBatch(Times(5, b), today, Ids(5)),
                     BatchKey(Provider, today + 1) := DayBatch(b, today + 1, [6])]);
    }
  }

  lemma TimesFive(b: real)
    ensures Times(2, b) == 2.0 * b && Times(5, b) == 5.0 * b
  {
    assert Times(1, b) == b;
    assert Times(2, b) == 2.0 * b;
    assert Times(3, b) == 3.0 * b;
    assert Times(4, b) == 4.0 * b;
  }

  lemma SixInOrder(b: real)
    ensures Ids(5) == [1, 2, 3, 4, 5]
    ensures Run(6, b) == [Row(1, b), Row(2, b), Row(3, b), Row(4, b), Row(5, b), Row(6, b)]
  {
    assert Ids(1) == [1];
    assert Ids(2) == [1, 2];
    assert Ids(3) == [1, 2, 3];
    assert Ids(4) == [1, 2, 3, 4];
    assert Run(1, b) == [Row(1, b)];
    assert Run(2, b) == [Row(1, b), Row(2, b)];
    assert Run(3, b) == [Row(1, b), Row(2, b), Row(3, b)];
    assert Run(4, b) == [Row(1, b), Row(2, b), Row(3, b), Row(4, b)];
    assert Run(5, b) == [Row(1, b), Row(2, b), Row(3, b), Row(4, b), Row(5, b)];
  }

  /**
   Six claims costing nothing: the first five fill today's batch to the maximum
   size, and the sixth opens a batch for the next day.
   */
  lemma SixFreeClaimsSplitAtMaximum(cal: Calendar, today: nat)
    ensures var k0 := BatchKey(Provider, today);
            var k1 := BatchKey(Provider, today + 1);
            Assign(EmptyTable, TestPolicy, BaseAsScaled, cal,
                   [Row(1, 0.0), Row(2, 0.0), Row(3, 0.0), Row(4, 0.0), Row(5, 0.0), Row(6, 0.0)], today)
            == BatchTable([k0, k1], map[k0 := DayBatch(0.0, today, [1, 2, 3, 4, 5]), k1 := DayBatch(0.0, today + 1, [6])])
  {
    SixEqualClaims(cal, today, 0.0);
    TimesFive(0.0);
    SixInOrder(0.0);
  }

  /**
   Six claims of scaled cost 100: the first five fill today's batch to exactly the
   capacity of 500, and the sixth opens a batch for the next day.
   */
  lemma SixClaimsOfHundredSplitAtMaximum(cal: Calendar, today: nat)
    ensures var k0 := BatchKey(Provider, today);
            var k1 := BatchKey(Provider, today + 1);
            Assign(EmptyTable, TestPolicy, BaseAsScaled, cal,
                   [Row(1, 100.0), Row(2, 100.0), Row(3, 100.0), Row(4, 100.0), Row(5, 100.0), Row(6, 100.0)], today)
            == BatchTable([k0, k1], map[k0 := DayBatch(500.0, today, [1, 2, 3, 4, 5]), k1 := DayBatch(100.0, today + 1, [6])])
  {
    SixEqualClaims(cal, today, 100.0);
    TimesFive(100.0);
    SixInOrder(100.0);
  }

  /**
   Three claims of equal scaled cost b whose sum stays within the capacity share
   today's batch; with b = 0 every claim of the run is batched.
   */
  lemma ThreeEqualClaimsShareOneBatch(cal: Calendar, today: nat, b: real)
    requires 0.0 <= b && 3.0 * b <= 500.0
    ensures Assign(EmptyTable, TestPolicy, BaseAsScaled, cal, [Row(1, b), Row(2, b), Row(3, b)], today)
         == Today(today, 3.0 * b, [1, 2, 3])
  {
    ThreeInOrder(b);
    EqualRunSharesToday(cal, today, b, 3);
  }

  lemma ThreeInOrder(b: real)
    ensures Times(3, b) == 3.0 * b
    ensures Ids(3) == [1, 2, 3]
    ensures Run(3, b) == [Row(1, b), Row(2, b), Row(3, b)]
  {
    assert Times(1, b) == b;
    assert Ids(1) == [1];
    assert Run(1, b) == [Row(1, b)];
    assert Ids(2) == [1, 2];
    assert Run(2, b) == [Row(1, b), Row(2, b)];
  }

  /** A claim with base cost 1500 against a capacity of 500 ends up in no batch. */
  lemma CostlyClaimNeverBatched(cal: Calendar, today: nat)
    ensures Assign(EmptyTable, TestPolicy, BaseAsScaled, cal, [Row(1, 1500.0)], today) == EmptyTable
  {
    AssignSnoc(EmptyTable, TestPolicy, BaseAsScaled, cal, [], Row(1, 1500.0), today);
    assert [] + [Row(1, 1500.0)] == [Row(1, 1500.0)];
  }

  // ---------------------------------------------------------------------------
  // The claim service's own costs

  /** A calendar on which every day is the first of the month (time factor 0.2). */
  const FirstOfMonth: Calendar := (day: nat) => 1

  /**
   A pending row whose stored base cost is still the column default 0, while the
   claim service recomputes 10000 for it (amount 100000, priority 5, no discount)
   and scales it to 2000: the row is not costed, and the run puts it alone into a
   new batch whose total exceeds the capacity of 500. The current stored cost in
   the premise of the capacity property cannot be dropped.
   */
  lemma StaleBaseCostBreaksCapacity(today: nat)
    ensures var insurers := map["TEST-123" := Insurer("TEST-123", "Neurology", SubmissionDate, 2, 5, 500.0, None)];
            var c := ClaimRow(1, "TEST-123", Provider, "Cardiology", 5, 100000.0, 0.0);
            && !CostedRow(c, insurers)
            && !WithinCapacity(Assign(EmptyTable, TestPolicy, ServiceCost(insurers), FirstOfMonth, [c], today), 500.0)
  {
    var insurers := map["TEST-123" := Insurer("TEST-123", "Neurology", SubmissionDate, 2, 5, 500.0, None)];
    var c := ClaimRow(1, "TEST-123", Provider, "Cardiology", 5, 100000.0, 0.0);
    var cost := ServiceCost(insurers);
    assert SpecialtyOf(insurers, c.insurerCode) == Some("Neurology");
    assert ClaimCosts.UnroundedCost(100000.0, 5, "Cardiology", Some("Neurology")) == 10000.0;
    ClaimCosts.Round2Exact(10000.0);
    ClaimCosts.TimeFactorFormula(1);
    assert cost(c, FirstOfMonth(today)) == 2000.0;
    assert AdmitsOn(EmptyTable, TestPolicy, cost, FirstOfMonth, c, today, 0);
    assert FirstFit(EmptyTable, TestPolicy, cost, FirstOfMonth, c, today, 0) == Some(0);
    var key := BatchKey(Provider, today);
    var t := Assign(EmptyTable, TestPolicy, cost, FirstOfMonth, [c], today);
    AssignSnoc(EmptyTable, TestPolicy, cost, FirstOfMonth, [], c, today);
    assert [] + [c] == [c];
    assert t == PlaceAt(EmptyTable, cost, FirstOfMonth, c, today, Some(0));
    assert t == Place(EmptyTable, key, 1, 2000.0);
    assert t.entries[key].totalCost == 2000.0;
  }

  // ---------------------------------------------------------------------------
  // Two runs on one service object

  /** The first claim of a run, processed against a batch for today holding two claims, joins it. */
  lemma RerunOfFirst(cal: Calendar, today: nat, total: real, ids: seq<ClaimId>, b: real)
    requires |ids| == 2 && 0.0 <= b && 0.0 <= total && total + b <= 500.0
    ensures Assign(Today(today, total, ids), TestPolicy, BaseAsScaled, cal, Run(1, b), today)
         == Today(today, total + b, ids + [1])
  {
    var t := Today(today, total, ids);
    calc {
      Assign(t, TestPolicy, BaseAsScaled, cal, Run(1, b), today);
      { AssignSnoc(t, TestPolicy, BaseAsScaled, cal, Run(0, b), Row(1, b), today); }
      PlaceClaim(Assign(t, TestPolicy, BaseAsScaled, cal, Run(0, b), today), TestPolicy, BaseAsScaled, cal, Row(1, b), today);
      { assert Run(0, b) == []; }
      PlaceClaim(t, TestPolicy, BaseAsScaled, cal, Row(1, b), today);
      { JoinToday(cal, today, total, ids, 1, b, total + b, ids + [1]); }
      Today(today, total + b, ids + [1]);
    }
  }

  /**
   The first two claims of a run, processed again against a batch for today
   that already holds two claims and has room for both, join it once more.
   */
  lemma RerunOfTwo(cal: Calendar, today: nat, total: real, ids: seq<ClaimId>, b: real)
    requires |ids| == 2 && 0.0 <= b && 0.0 <= total && total + b + b <= 500.0
    ensures Assign(Today(today, total, ids), TestPolicy, BaseAsScaled, cal, Run(2, b), today)
         == Today(today, total + b + b, ids + [1] + [2])
  {
    var t := Today(today, total, ids);
    calc {
      Assign(t, TestPolicy, BaseAsScaled, cal, Run(2, b), today);
      { AssignSnoc(t, TestPolicy, BaseAsScaled, cal, Run(1, b), Row(2, b), today); }
      PlaceClaim(Assign(t, TestPolicy, BaseAsScaled, cal, Run(1, b), today), TestPolicy, BaseAsScaled, cal, Row(2, b), today);
      { RerunOfFirst(cal, today, total, ids, b); }
      PlaceClaim(Today(today, total + b, ids + [1]), TestPolicy, BaseAsScaled, cal, Row(2, b), today);
      { JoinToday(cal, today, total + b, ids + [1], 2, b, total + b + b, ids + [1] + [2]); }
      Today(today, total + b + b, ids + [1] + [2]);
    }
  }

  /** Two free claims processed on a fresh service land in today's batch. */
  lemma TwoFreeClaims(cal: Calendar, today: nat)
    ensures Assign(EmptyTable, TestPolicy, BaseAsScaled, cal, [Row(1, 0.0), Row(2, 0.0)], today)
         == Today(today, 0.0, [1, 2])
  {
    TwoInOrder(0.0);
    EqualRunSharesToday(cal, today, 0.0, 2);
  }

  /** The same two free claims processed again on that service join the same batch a second time. */
  lemma TwoFreeClaimsAgain(cal: Calendar, today: nat)
    ensures Assign(Today(today, 0.0, [1, 2]), TestPolicy, BaseAsScaled, cal, [Row(1, 0.0), Row(2, 0.0)], today)
         == Today(today, 0.0, [1, 2, 1, 2])
  {
    TwoInOrder(0.0);
    RerunOfTwo(cal, today, 0.0, [1, 2], 0.0);
  }

  lemma TwoInOrder(b: real)
    ensures Times(2, b) == 2.0 * b
    ensures Ids(2) == [1, 2] && [1, 2] + [1] + [2] == [1, 2, 1, 2]
    ensures Run(2, b) == [Row(1, b), Row(2, b)]
  {
    assert Times(1, b) == b;
    assert Ids(1) == [1];
    assert Run(1, b) == [Row(1, b)];
  }

  /** Writing today's only batch, holding claims 1 and 2, stamps both with it. */
  lemma SingleBatchStore(today: nat, total: real, ids: seq<ClaimId>, store: map<ClaimId, Stamp>)
    requires 1 in ids && 2 in ids && store.Keys == {1, 2}
    ensures WellFormed(Today(today, total, ids)) && |Today(today, total, ids).order| == 1
    ensures var stamp := Stamp(Some(BatchKey(Provider, today)), Some(today));
            SaveAll(store, Today(today, total, ids), 1) == map[1 := stamp, 2 := stamp]
  {
    assert SaveAll(store, Today(today, total, ids), 0) == store;
  }


  /**
   Two runs on one service object over the same two still-unprocessed claims:
   the batches kept from the first run receive both claims again in the second,
   so both claims end up carrying the same batch id and date.
   */
  method TwoRunsOnOneService(today: nat, cal: Calendar) returns (first: RunOutcome, second: RunOutcome)
    ensures first.Completed? && second.Completed?
    ensures var stamp := Stamp(Some(BatchKey(Provider, today)), Some(today));
            first.store == map[1 := stamp, 2 := stamp] && second.store == map[1 := stamp, 2 := stamp]
  {
    var insurer := Insurer("TEST-123", "Cardiology", SubmissionDate, 2, 5, 500.0, None);
    var insurers := map["TEST-123" := insurer];
    var a, b := Row(1, 0.0), Row(2, 0.0);
    var unbatched := Stamp(None, None);
    var store := map[1 := unbatched, 2 := unbatched];
    assert PolicyOf(insurer) == TestPolicy;

    var service := new BatchClaimService(BaseAsScaled, cal);
    first := service.ProcessBatch(a, insurers, [a, b], today, store);
    TwoFreeClaims(cal, today);
    assert service.batches == Today(today, 0.0, [1, 2]);
    SingleBatchStore(today, 0.0, [1, 2], store);

    second := service.ProcessBatch(b, insurers, [a, b], today, first.store);
    TwoFreeClaimsAgain(cal, today);
    assert service.batches == Today(today, 0.0, [1, 2, 1, 2]);
    SingleBatchStore(today, 0.0, [1, 2, 1, 2], first.store);
  }

}
