/**
 The batch-assignment engine of the batch claim service.

 For one insurer and provider, the engine takes the still-unprocessed claims in
 the order the claims query yields them and packs each greedily into the
 earliest day-batch, among today and the next 30 days, that admits it. The
 day-batches live in the service object and survive from one run to the next
 on the same object; at the end of a run every batch's id and date are written
 onto its member claims and the insurer is notified once.

 Days are absolute day numbers; `today` is the day of the run. The calendar
 that gives a day's day of the month, and the scaled-cost function of the
 injected claim service, are given to the service when it is built.
 */
module BatchAssignment {

  import opened Options
  import ClaimCosts

  type ClaimId = nat

  /** A claim row as the unprocessed-claims query yields it (the fields the engine reads). */
  datatype ClaimRow = ClaimRow(
    id: ClaimId,
    insurerCode: string,
    providerName: string,
    specialty: string,
    priorityLevel: int,
    totalAmount: real,
    baseCost: real)

  datatype DatePreference = SubmissionDate | EncounterDate

  /** The insurer's batching policy and contact, as stored. */
  datatype Insurer = Insurer(
    code: string,
    specialty: string,
    datePreference: DatePreference,
    minBatchSize: int,
    maxBatchSize: int,
    dailyCapacity: real,
    email: Option<string>)

  /** The three parameters the admission rule reads. */
  datatype Policy = Policy(minBatchSize: int, maxBatchSize: int, capacity: real)

  function PolicyOf(insurer: Insurer): Policy
  {
    Policy(insurer.minBatchSize, insurer.maxBatchSize, insurer.dailyCapacity)
  }

  /** A batch id: the provider's name and the batch's day (the rendered id is injective in both). */
  datatype BatchKey = BatchKey(provider: string, day: nat)

  /** One day-batch: its accumulated cost, its date and the claim ids appended to it, in order. */
  datatype DayBatch = DayBatch(totalCost: real, date: nat, claims: seq<ClaimId>)

  /** The service's batches: an ordered map, keys in the order they were first created. */
  datatype BatchTable = BatchTable(order: seq<BatchKey>, entries: map<BatchKey, DayBatch>)

  const EmptyTable: BatchTable := BatchTable([], map[])

  /** Candidate days are today plus 0 to this many days. */
  const MaxAdditionalDays: nat := 30

  /** The claim service's scaled processing cost of a claim on a day of the month. */
  type CostFn = (ClaimRow, int) -> real

  /** The day of the month of each day number. */
  type Calendar = nat -> int

  /** The order lists each key once, exactly the keys of the map, and each batch is dated by its key. */
  ghost predicate WellFormed(t: BatchTable)
  {
    && (forall i, j :: 0 <= i < j < |t.order| ==> t.order[i] != t.order[j])
    && (forall k :: k in t.entries <==> k in t.order)
    && (forall k :: k in t.entries ==> t.entries[k].date == k.day)
  }

  // ---------------------------------------------------------------------------
  // Admission and placement of one claim

  /**
   The admission rule for a claim with scaled cost `cost` into the batch `key`:
   never above capacity by base cost; always into a batch not yet created;
   into an existing batch only while it holds fewer than the maximum, not when
   the new total reaches capacity while the batch is below the minimum size,
   and only if the new total is within capacity.
   */
  predicate Admits(t: BatchTable, p: Policy, c: ClaimRow, key: BatchKey, cost: real)
  {
    if c.baseCost > p.capacity then false
    else if key !in t.entries then true
    else
      var newTotal := t.entries[key].totalCost + cost;
      var count := |t.entries[key].claims|;
      if count >= p.maxBatchSize then false
      else if newTotal >= p.capacity && count < p.minBatchSize then false
      else newTotal <= p.capacity
  }

  /** The admission rule as one condition: what it demands of a new and of an existing batch. */
  lemma AdmissionRule(t: BatchTable, p: Policy, c: ClaimRow, key: BatchKey, cost: real)
    ensures key !in t.entries ==> (Admits(t, p, c, key, cost) <==> c.baseCost <= p.capacity)
    ensures key in t.entries ==>
              (Admits(t, p, c, key, cost) <==>
                 && c.baseCost <= p.capacity
                 && |t.entries[key].claims| < p.maxBatchSize
                 && t.entries[key].totalCost + cost <= p.capacity
                 && (|t.entries[key].claims| < p.minBatchSize ==> t.entries[key].totalCost + cost < p.capacity))
  {
  }

  /** Appending claim `id` with scaled cost `cost` to the batch `key`, creating the batch when it is new. */
  function Place(t: BatchTable, key: BatchKey, id: ClaimId, cost: real): BatchTable
  {
    if key !in t.entries then
      BatchTable(t.order + [key], t.entries[key := DayBatch(cost, key.day, [id])])
    else
      var b := t.entries[key];
      BatchTable(t.order, t.entries[key := DayBatch(b.totalCost + cost, b.date, b.claims + [id])])
  }

  /**
   What placing a claim does: the batch `key` exists afterwards, every other
   batch is untouched; a new batch holds just the claim at its scaled cost, dated
   by the key's day and appended in creation order; an existing batch keeps its
   date and position and grows by the claim and its cost.
   */
  lemma PlaceEffect(t: BatchTable, key: BatchKey, id: ClaimId, cost: real)
    ensures Place(t, key, id, cost).entries.Keys == t.entries.Keys + {key}
    ensures forall k :: k in t.entries && k != key ==> Place(t, key, id, cost).entries[k] == t.entries[k]
    ensures key !in t.entries ==>
              && Place(t, key, id, cost).entries[key] == DayBatch(cost, key.day, [id])
              && Place(t, key, id, cost).order == t.order + [key]
    ensures key in t.entries ==>
              && Place(t, key, id, cost).order == t.order
              && Place(t, key, id, cost).entries[key].totalCost == t.entries[key].totalCost + cost
              && Place(t, key, id, cost).entries[key].date == t.entries[key].date
              && Place(t, key, id, cost).entries[key].claims == t.entries[key].claims + [id]
  {
  }

  /** Whether the claim is admitted on the day `today + offset`. */
  predicate AdmitsOn(t: BatchTable, p: Policy, cost: CostFn, cal: Calendar, c: ClaimRow, today: nat, offset: nat)
  {
    Admits(t, p, c, BatchKey(c.providerName, today + offset), cost(c, cal(today + offset)))
  }

  /** The first offset from `offset` to 30 on which the claim is admitted, if any. */
  function FirstFit(t: BatchTable, p: Policy, cost: CostFn, cal: Calendar, c: ClaimRow, today: nat, offset: nat): Option<nat>
    decreases MaxAdditionalDays + 1 - offset
  {
    if offset > MaxAdditionalDays then None
    else if AdmitsOn(t, p, cost, cal, c, today, offset) then Some(offset)
    else FirstFit(t, p, cost, cal, c, today, offset + 1)
  }

  /** FirstFit finds the earliest admitting offset, and finds none only when no offset up to 30 admits. */
  lemma {:induction false} FirstFitEarliest(t: BatchTable, p: Policy, cost: CostFn, cal: Calendar, c: ClaimRow,
                                            today: nat, offset: nat)
    requires offset <= MaxAdditionalDays + 1
    ensures FirstFit(t, p, cost, cal, c, today, offset).Some? ==>
              var d := FirstFit(t, p, cost, cal, c, today, offset).value;
              && offset <= d <= MaxAdditionalDays
              && AdmitsOn(t, p, cost, cal, c, today, d)
              && forall e :: offset <= e < d ==> !AdmitsOn(t, p, cost, cal, c, today, e)
    ensures FirstFit(t, p, cost, cal, c, today, offset).None? ==>
              forall e :: offset <= e <= MaxAdditionalDays ==> !AdmitsOn(t, p, cost, cal, c, today, e)
    decreases MaxAdditionalDays + 1 - offset
  {
    if offset <= MaxAdditionalDays && !AdmitsOn(t, p, cost, cal, c, today, offset) {
      FirstFitEarliest(t, p, cost, cal, c, today, offset + 1);
    }
  }

  /** The table after the claim is placed on offset `f` from today, or left as it is when there is none. */
  function PlaceAt(t: BatchTable, cost: CostFn, cal: Calendar, c: ClaimRow, today: nat, f: Option<nat>): BatchTable
  {
    match f
    case None => t
    case Some(d) => Place(t, BatchKey(c.providerName, today + d), c.id, cost(c, cal(today + d)))
  }

  /** The table after one claim is processed: skipped when above capacity, else placed on its first admitting day. */
  function PlaceClaim(t: BatchTable, p: Policy, cost: CostFn, cal: Calendar, c: ClaimRow, today: nat): BatchTable
  {
    if c.baseCost > p.capacity then t
    else PlaceAt(t, cost, cal, c, today, FirstFit(t, p, cost, cal, c, today, 0))
  }

  /**
   A claim goes to the smallest offset in 0 to 30 whose batch admits it; when
   no such offset exists it goes nowhere and the table is unchanged.
   */
  lemma PlaceClaimEarliest(t: BatchTable, p: Policy, cost: CostFn, cal: Calendar, c: ClaimRow, today: nat)
    ensures (forall d :: 0 <= d <= MaxAdditionalDays ==> !AdmitsOn(t, p, cost, cal, c, today, d))
            ==> PlaceClaim(t, p, cost, cal, c, today) == t
    ensures forall d :: 0 <= d <= MaxAdditionalDays && AdmitsOn(t, p, cost, cal, c, today, d)
                        && (forall e :: 0 <= e < d ==> !AdmitsOn(t, p, cost, cal, c, today, e))
                        ==> PlaceClaim(t, p, cost, cal, c, today)
                            == Place(t, BatchKey(c.providerName, today + d), c.id, cost(c, cal(today + d)))
  {
    FirstFitEarliest(t, p, cost, cal, c, today, 0);
    forall d | 0 <= d <= MaxAdditionalDays && AdmitsOn(t, p, cost, cal, c, today, d)
               && (forall e :: 0 <= e < d ==> !AdmitsOn(t, p, cost, cal, c, today, e))
      ensures PlaceClaim(t, p, cost, cal, c, today)
              == Place(t, BatchKey(c.providerName, today + d), c.id, cost(c, cal(today + d)))
    {
      var f := FirstFit(t, p, cost, cal, c, today, 0);
      assert f.Some? && f.value == d;
    }
  }

  /** Where the search from offset 0 reaches an admitting offset d, the claim is placed on day today + d. */
  lemma PlaceClaimAt(t: BatchTable, p: Policy, cost: CostFn, cal: Calendar, c: ClaimRow, today: nat, d: nat, day: nat)
    requires day == today + d
    requires c.baseCost <= p.capacity && d <= MaxAdditionalDays
    requires Admits(t, p, c, BatchKey(c.providerName, day), cost(c, cal(day)))
    requires FirstFit(t, p, cost, cal, c, today, 0) == FirstFit(t, p, cost, cal, c, today, d)
    ensures PlaceClaim(t, p, cost, cal, c, today) == Place(t, BatchKey(c.providerName, day), c.id, cost(c, cal(day)))
  {
    assert AdmitsOn(t, p, cost, cal, c, today, d);
    assert FirstFit(t, p, cost, cal, c, today, d) == Some(d);
    assert PlaceClaim(t, p, cost, cal, c, today) == PlaceAt(t, cost, cal, c, today, Some(d));
  }

  /** The search passes over an offset that does not admit the claim. */
  lemma FirstFitSkip(t: BatchTable, p: Policy, cost: CostFn, cal: Calendar, c: ClaimRow, today: nat, d: nat, day: nat)
    requires day == today + d
    requires d <= MaxAdditionalDays && !Admits(t, p, c, BatchKey(c.providerName, day), cost(c, cal(day)))
    ensures FirstFit(t, p, cost, cal, c, today, d) == FirstFit(t, p, cost, cal, c, today, d + 1)
  {
    assert !AdmitsOn(t, p, cost, cal, c, today, d);
  }

  /** Where the search from offset 0 runs past offset 30, the claim is placed nowhere. */
  lemma PlaceClaimNowhere(t: BatchTable, p: Policy, cost: CostFn, cal: Calendar, c: ClaimRow, today: nat, d: nat)
    requires d > MaxAdditionalDays
    requires FirstFit(t, p, cost, cal, c, today, 0) == FirstFit(t, p, cost, cal, c, today, d)
    ensures PlaceClaim(t, p, cost, cal, c, today) == t
  {
    assert FirstFit(t, p, cost, cal, c, today, d).None?;
  }

  /**
   A claim whose base cost exceeds the capacity leaves the table as it is, and
   even the admission rule's own re-check alone refuses it on every candidate day.
   */
  lemma OverCapacityLeavesTable(t: BatchTable, p: Policy, cost: CostFn, cal: Calendar, c: ClaimRow, today: nat)
    requires c.baseCost > p.capacity
    ensures PlaceClaim(t, p, cost, cal, c, today) == t
    ensures FirstFit(t, p, cost, cal, c, today, 0).None?
  {
    FirstFitOverCapacity(t, p, cost, cal, c, today, 0);
  }

  lemma {:induction false} FirstFitOverCapacity(t: BatchTable, p: Policy, cost: CostFn, cal: Calendar, c: ClaimRow,
                                                today: nat, offset: nat)
    requires c.baseCost > p.capacity && offset <= MaxAdditionalDays + 1
    ensures FirstFit(t, p, cost, cal, c, today, offset).None?
    decreases MaxAdditionalDays + 1 - offset
  {
    if offset <= MaxAdditionalDays {
      FirstFitOverCapacity(t, p, cost, cal, c, today, offset + 1);
    }
  }

  // ---------------------------------------------------------------------------
  // A whole run

  /** The table after every pending claim is processed in order. */
  function Assign(t: BatchTable, p: Policy, cost: CostFn, cal: Calendar, pending: seq<ClaimRow>, today: nat): BatchTable
  {
    if pending == [] then t
    else PlaceClaim(Assign(t, p, cost, cal, pending[..|pending| - 1], today), p, cost, cal, pending[|pending| - 1], today)
  }

  lemma PlaceKeepsWellFormed(t: BatchTable, key: BatchKey, id: ClaimId, cost: real)
    requires WellFormed(t)
    ensures WellFormed(Place(t, key, id, cost))
  {
    var r := Place(t, key, id, cost);
    if key !in t.entries {
      assert key !in t.order;
      forall k ensures k in r.entries <==> k in r.order {
        assert k in r.order <==> k in t.order || k == key;
      }
    }
  }

  lemma PlaceAtKeepsWellFormed(t: BatchTable, cost: CostFn, cal: Calendar, c: ClaimRow, today: nat, f: Option<nat>)
    requires WellFormed(t)
    ensures WellFormed(PlaceAt(t, cost, cal, c, today, f))
  {
    if f.Some? {
      var key := BatchKey(c.providerName, today + f.value);
      assert PlaceAt(t, cost, cal, c, today, f) == Place(t, key, c.id, cost(c, cal(key.day)));
      PlaceKeepsWellFormed(t, key, c.id, cost(c, cal(key.day)));
    }
  }

  lemma PlaceClaimKeepsWellFormed(t: BatchTable, p: Policy, cost: CostFn, cal: Calendar, c: ClaimRow, today: nat)
    requires WellFormed(t)
    ensures WellFormed(PlaceClaim(t, p, cost, cal, c, today))
  {
    PlaceAtKeepsWellFormed(t, cost, cal, c, today, FirstFit(t, p, cost, cal, c, today, 0));
  }

  /** A run keeps the table well formed: ids listed once, in creation order, each batch dated by its key. */
  lemma {:induction false} AssignKeepsWellFormed(t: BatchTable, p: Policy, cost: CostFn, cal: Calendar,
                                                 pending: seq<ClaimRow>, today: nat)
    requires WellFormed(t)
    ensures WellFormed(Assign(t, p, cost, cal, pending, today))
  {
    if pending != [] {
      var n := |pending| - 1;
      AssignKeepsWellFormed(t, p, cost, cal, pending[..n], today);
      PlaceClaimKeepsWellFormed(Assign(t, p, cost, cal, pending[..n], today), p, cost, cal, pending[n], today);
    }
  }

  /** Every batch holds at most `max` claims. */
  ghost predicate SizeBounded(t: BatchTable, max: int)
  {
    forall k :: k in t.entries ==> |t.entries[k].claims| <= max
  }

  lemma PlaceClaimKeepsSizeBound(t: BatchTable, p: Policy, cost: CostFn, cal: Calendar, c: ClaimRow, today: nat)
    requires p.maxBatchSize >= 1 && SizeBounded(t, p.maxBatchSize)
    ensures SizeBounded(PlaceClaim(t, p, cost, cal, c, today), p.maxBatchSize)
  {
    if c.baseCost <= p.capacity {
      FirstFitEarliest(t, p, cost, cal, c, today, 0);
    }
  }

  /** Given a maximum batch size of at least 1, no run lets a batch grow beyond it. */
  lemma {:induction false} AssignKeepsSizeBound(t: BatchTable, p: Policy, cost: CostFn, cal: Calendar,
                                                pending: seq<ClaimRow>, today: nat)
    requires p.maxBatchSize >= 1 && SizeBounded(t, p.maxBatchSize)
    ensures SizeBounded(Assign(t, p, cost, cal, pending, today), p.maxBatchSize)
  {
    if pending != [] {
      var n := |pending| - 1;
      AssignKeepsSizeBound(t, p, cost, cal, pending[..n], today);
      PlaceClaimKeepsSizeBound(Assign(t, p, cost, cal, pending[..n], today), p, cost, cal, pending[n], today);
    }
  }

  /** Every batch's accumulated cost is within `capacity`. */
  ghost predicate WithinCapacity(t: BatchTable, capacity: real)
  {
    forall k :: k in t.entries ==> t.entries[k].totalCost <= capacity
  }

  /** A claim's scaled cost never exceeds its base cost, on any day. */
  ghost predicate ScaledNotAboveBase(cost: CostFn, cal: Calendar, c: ClaimRow)
  {
    forall day: nat :: cost(c, cal(day)) <= c.baseCost
  }

  lemma PlaceClaimKeepsCapacity(t: BatchTable, p: Policy, cost: CostFn, cal: Calendar, c: ClaimRow, today: nat)
    requires WithinCapacity(t, p.capacity) && ScaledNotAboveBase(cost, cal, c)
    ensures WithinCapacity(PlaceClaim(t, p, cost, cal, c, today), p.capacity)
  {
    if c.baseCost <= p.capacity {
      FirstFitEarliest(t, p, cost, cal, c, today, 0);
      match FirstFit(t, p, cost, cal, c, today, 0)
      case None =>
      case Some(d) =>
        assert cost(c, cal(today + d)) <= c.baseCost;
    }
  }

  /**
   When no claim's scaled cost exceeds its base cost, no run takes a batch's
   cost above the capacity: a new batch starts at most at a base cost the guard
   let through, and an existing one admits only totals within capacity.
   */
  lemma {:induction false} AssignKeepsCapacity(t: BatchTable, p: Policy, cost: CostFn, cal: Calendar,
                                               pending: seq<ClaimRow>, today: nat)
    requires WithinCapacity(t, p.capacity)
    requires forall i :: 0 <= i < |pending| ==> ScaledNotAboveBase(cost, cal, pending[i])
    ensures WithinCapacity(Assign(t, p, cost, cal, pending, today), p.capacity)
  {
    if pending != [] {
      var n := |pending| - 1;
      AssignKeepsCapacity(t, p, cost, cal, pending[..n], today);
      PlaceClaimKeepsCapacity(Assign(t, p, cost, cal, pending[..n], today), p, cost, cal, pending[n], today);
    }
  }

  /** Every id is a known claim row. */
  ghost predicate Known(ids: seq<ClaimId>, rows: map<ClaimId, ClaimRow>)
  {
    forall i :: 0 <= i < |ids| ==> ids[i] in rows
  }

  /** The sum of the scaled costs, on day of month `dom`, of the claims `ids`. */
  function ScaledSum(ids: seq<ClaimId>, rows: map<ClaimId, ClaimRow>, cost: CostFn, dom: int): real
    requires Known(ids, rows)
  {
    if ids == [] then 0.0
    else ScaledSum(ids[..|ids| - 1], rows, cost, dom) + cost(rows[ids[|ids| - 1]], dom)
  }

  /** Every batch's cost is the sum of its members' scaled costs at its own day of the month. */
  ghost predicate Conserved(t: BatchTable, cost: CostFn, cal: Calendar, rows: map<ClaimId, ClaimRow>)
  {
    forall k :: k in t.entries ==>
      Known(t.entries[k].claims, rows)
      && t.entries[k].totalCost == ScaledSum(t.entries[k].claims, rows, cost, cal(t.entries[k].date))
  }

  lemma PlaceConserves(t: BatchTable, key: BatchKey, id: ClaimId, scaled: real, cost: CostFn, cal: Calendar,
                       rows: map<ClaimId, ClaimRow>)
    requires WellFormed(t) && Conserved(t, cost, cal, rows) && id in rows
    requires scaled == cost(rows[id], cal(key.day))
    ensures Conserved(Place(t, key, id, scaled), cost, cal, rows)
  {
    var r := Place(t, key, id, scaled);
    forall k | k in r.entries
      ensures Known(r.entries[k].claims, rows)
      ensures r.entries[k].totalCost == ScaledSum(r.entries[k].claims, rows, cost, cal(r.entries[k].date))
    {
      if k == key {
        var ids := r.entries[key].claims;
        var before := if key in t.entries then t.entries[key].claims else [];
        assert ids == before + [id];
        assert ids[..|ids| - 1] == before;
        assert r.entries[key].date == key.day;
      }
    }
  }

  lemma PlaceAtConserves(t: BatchTable, cost: CostFn, cal: Calendar, c: ClaimRow, today: nat, f: Option<nat>,
                         rows: map<ClaimId, ClaimRow>)
    requires WellFormed(t) && Conserved(t, cost, cal, rows)
    requires c.id in rows && rows[c.id] == c
    ensures Conserved(PlaceAt(t, cost, cal, c, today, f), cost, cal, rows)
  {
    if f.Some? {
      var key := BatchKey(c.providerName, today + f.value);
      assert PlaceAt(t, cost, cal, c, today, f) == Place(t, key, c.id, cost(c, cal(key.day)));
      PlaceConserves(t, key, c.id, cost(c, cal(key.day)), cost, cal, rows);
    }
  }

  lemma PlaceClaimConserves(t: BatchTable, p: Policy, cost: CostFn, cal: Calendar, c: ClaimRow, today: nat,
                            rows: map<ClaimId, ClaimRow>)
    requires WellFormed(t) && Conserved(t, cost, cal, rows)
    requires c.id in rows && rows[c.id] == c
    ensures Conserved(PlaceClaim(t, p, cost, cal, c, today), cost, cal, rows)
  {
    PlaceAtConserves(t, cost, cal, c, today, FirstFit(t, p, cost, cal, c, today, 0), rows);
  }

  /** Conservation: after a run, each batch's cost is the sum of its members' scaled costs on its day. */
  lemma {:induction false} AssignConserves(t: BatchTable, p: Policy, cost: CostFn, cal: Calendar,
                                           pending: seq<ClaimRow>, today: nat, rows: map<ClaimId, ClaimRow>)
    requires WellFormed(t) && Conserved(t, cost, cal, rows)
    requires forall i :: 0 <= i < |pending| ==> pending[i].id in rows && rows[pending[i].id] == pending[i]
    ensures Conserved(Assign(t, p, cost, cal, pending, today), cost, cal, rows)
  {
    if pending != [] {
      var n := |pending| - 1;
      AssignConserves(t, p, cost, cal, pending[..n], today, rows);
      AssignKeepsWellFormed(t, p, cost, cal, pending[..n], today);
      PlaceClaimConserves(Assign(t, p, cost, cal, pending[..n], today), p, cost, cal, pending[n], today, rows);
    }
  }

  /** The claim id appears in no batch. */
  ghost predicate Unbatched(t: BatchTable, id: ClaimId)
  {
    forall k :: k in t.entries ==> id !in t.entries[k].claims
  }

  lemma PlaceClaimKeepsUnbatched(t: BatchTable, p: Policy, cost: CostFn, cal: Calendar, c: ClaimRow, today: nat,
                                 id: ClaimId)
    requires Unbatched(t, id) && (c.id != id || c.baseCost > p.capacity)
    ensures Unbatched(PlaceClaim(t, p, cost, cal, c, today), id)
  {
  }

  /**
   A pending claim whose base cost exceeds the capacity is never appended to any
   batch during a run (claim ids of one run are distinct rows).
   */
  lemma {:induction false} OverCapacityNeverBatched(t: BatchTable, p: Policy, cost: CostFn, cal: Calendar,
                                                    pending: seq<ClaimRow>, today: nat, i: nat)
    requires i < |pending| && pending[i].baseCost > p.capacity
    requires forall j :: 0 <= j < |pending| && j != i ==> pending[j].id != pending[i].id
    requires Unbatched(t, pending[i].id)
    ensures Unbatched(Assign(t, p, cost, cal, pending, today), pending[i].id)
  {
    var n := |pending| - 1;
    if i < n {
      OverCapacityNeverBatched(t, p, cost, cal, pending[..n], today, i);
    } else {
      AssignIgnoresOthers(t, p, cost, cal, pending[..n], today, pending[i].id);
    }
    PlaceClaimKeepsUnbatched(Assign(t, p, cost, cal, pending[..n], today), p, cost, cal, pending[n], today,
                             pending[i].id);
  }

  lemma {:induction false} AssignIgnoresOthers(t: BatchTable, p: Policy, cost: CostFn, cal: Calendar,
                                               pending: seq<ClaimRow>, today: nat, id: ClaimId)
    requires Unbatched(t, id)
    requires forall j :: 0 <= j < |pending| ==> pending[j].id != id
    ensures Unbatched(Assign(t, p, cost, cal, pending, today), id)
  {
    if pending != [] {
      var n := |pending| - 1;
      AssignIgnoresOthers(t, p, cost, cal, pending[..n], today, id);
      PlaceClaimKeepsUnbatched(Assign(t, p, cost, cal, pending[..n], today), p, cost, cal, pending[n], today, id);
    }
  }

  // ---------------------------------------------------------------------------
  // Production costs

  /**
   The specialty of the insurer stored under `code`, the one the claim service
   reads from the first insurer with that code. `None` stands for a missing
   insurer, whose specialty the program cannot read.
   */
  function SpecialtyOf(insurers: map<string, Insurer>, code: string): Option<string>
  {
    if code in insurers then Some(insurers[code].specialty) else None
  }

  /**
   The scaled cost the claim service computes: the claim's base cost, recomputed
   with the specialty of the insurer found for its code, times the time factor.
   */
  function ServiceCost(insurers: map<string, Insurer>): CostFn
  {
    (c: ClaimRow, dom: int) =>
      ClaimCosts.TotalCost(c.totalAmount, c.priorityLevel, c.specialty, SpecialtyOf(insurers, c.insurerCode), dom)
  }

  /** The row's stored base cost is the one the claim service computes for it. */
  predicate CostedRow(c: ClaimRow, insurers: map<string, Insurer>)
  {
    && c.totalAmount >= 0.0 && c.priorityLevel >= 1
    && c.baseCost == ClaimCosts.BaseCost(c.totalAmount, c.priorityLevel, c.specialty,
                                         SpecialtyOf(insurers, c.insurerCode))
  }

  /**
   With the claim service's own costs and a calendar whose days of the month are
   1 to 31, a run whose pending rows all carry their current base cost keeps
   every batch within the capacity.
   */
  lemma ServiceCostKeepsCapacity(t: BatchTable, p: Policy, insurers: map<string, Insurer>, cal: Calendar,
                                 pending: seq<ClaimRow>, today: nat)
    requires WithinCapacity(t, p.capacity)
    requires forall day: nat :: 1 <= cal(day) <= 31
    requires forall i :: 0 <= i < |pending| ==> CostedRow(pending[i], insurers)
    ensures WithinCapacity(Assign(t, p, ServiceCost(insurers), cal, pending, today), p.capacity)
  {
    var cost := ServiceCost(insurers);
    forall i | 0 <= i < |pending| ensures ScaledNotAboveBase(cost, cal, pending[i]) {
      var c := pending[i];
      forall day: nat ensures cost(c, cal(day)) <= c.baseCost {
        ClaimCosts.TotalCostWithinBase(c.totalAmount, c.priorityLevel, c.specialty,
                                       SpecialtyOf(insurers, c.insurerCode), cal(day));
      }
    }
    AssignKeepsCapacity(t, p, cost, cal, pending, today);
  }

  // ---------------------------------------------------------------------------
  // Writing batches back

  /** The nullable batch columns of a stored claim. */
  datatype Stamp = Stamp(batchId: Option<BatchKey>, batchDate: Option<nat>)

  /** The bulk update: every stored claim among `ids` gets `s`; ids not stored are ignored. */
  function StampAll(store: map<ClaimId, Stamp>, ids: seq<ClaimId>, s: Stamp): (r: map<ClaimId, Stamp>)
    ensures r.Keys == store.Keys
    ensures forall id :: id in store ==> r[id] == if id in ids then s else store[id]
  {
    map id | id in store :: if id in ids then s else store[id]
  }

  function StampOf(t: BatchTable, k: BatchKey): Stamp
    requires k in t.entries
  {
    Stamp(Some(k), Some(t.entries[k].date))
  }

  /** Every listed batch id has a batch (the part of well-formedness that writing the batches needs). */
  ghost predicate Listed(t: BatchTable)
  {
    forall i :: 0 <= i < |t.order| ==> t.order[i] in t.entries
  }

  /** The store after the first n batches, in creation order, have been written. */
  function SaveAll(store: map<ClaimId, Stamp>, t: BatchTable, n: nat): (r: map<ClaimId, Stamp>)
    requires Listed(t) && n <= |t.order|
    ensures r.Keys == store.Keys
  {
    if n == 0 then store
    else StampAll(SaveAll(store, t, n - 1), t.entries[t.order[n - 1]].claims, StampOf(t, t.order[n - 1]))
  }

  /** The last of the first n batches, in creation order, that holds the claim. */
  function LastHolder(t: BatchTable, n: nat, id: ClaimId): (r: Option<BatchKey>)
    requires Listed(t) && n <= |t.order|
    ensures r.Some? ==> r.value in t.entries && id in t.entries[r.value].claims
  {
    if n == 0 then None
    else if id in t.entries[t.order[n - 1]].claims then Some(t.order[n - 1])
    else LastHolder(t, n - 1, id)
  }

  /** No holder is found among the first n batches only when none of them holds the claim. */
  lemma {:induction false} LastHolderNone(t: BatchTable, n: nat, id: ClaimId)
    requires Listed(t) && n <= |t.order| && LastHolder(t, n, id).None?
    ensures forall k :: k in t.order[..n] ==> k in t.entries && id !in t.entries[k].claims
  {
    if n > 0 {
      LastHolderNone(t, n - 1, id);
      assert t.order[..n] == t.order[..n - 1] + [t.order[n - 1]];
    }
  }

  /** Writing the first n batches gives each stored claim the stamp of its last holder among them. */
  lemma {:induction false} SaveAllStamps(store: map<ClaimId, Stamp>, t: BatchTable, n: nat, id: ClaimId)
    requires Listed(t) && n <= |t.order| && id in store
    ensures LastHolder(t, n, id).None? ==> SaveAll(store, t, n)[id] == store[id]
    ensures LastHolder(t, n, id).Some? ==> SaveAll(store, t, n)[id] == StampOf(t, LastHolder(t, n, id).value)
  {
    if n > 0 {
      SaveAllStamps(store, t, n - 1, id);
      var prev := SaveAll(store, t, n - 1);
      var k := t.order[n - 1];
      var ids := t.entries[k].claims;
      assert SaveAll(store, t, n) == StampAll(prev, ids, StampOf(t, k));
      assert SaveAll(store, t, n)[id] == if id in ids then StampOf(t, k) else prev[id];
      assert LastHolder(t, n, id) == if id in ids then Some(k) else LastHolder(t, n - 1, id);
    }
  }

  /**
   After the batches are written, a claim that belongs to exactly one batch
   carries that batch's id and date, a claim in no batch keeps its previous
   columns, and no claim is added to or removed from the store.
   */
  lemma SaveBatchesEffect(store: map<ClaimId, Stamp>, t: BatchTable, id: ClaimId)
    requires WellFormed(t) && id in store
    ensures SaveAll(store, t, |t.order|).Keys == store.Keys
    ensures Unbatched(t, id) ==> SaveAll(store, t, |t.order|)[id] == store[id]
    ensures forall k :: k in t.entries && id in t.entries[k].claims
                        && (forall k' :: k' in t.entries && k' != k ==> id !in t.entries[k'].claims)
                        ==> SaveAll(store, t, |t.order|)[id] == StampOf(t, k)
  {
    SaveAllStamps(store, t, |t.order|, id);
    if Unbatched(t, id) {
      assert LastHolder(t, |t.order|, id).None?;
    } else {
      var j :| j in t.entries && id in t.entries[j].claims;
      assert j in t.order[..|t.order|] by {
        assert t.order[..|t.order|] == t.order;
      }
      if LastHolder(t, |t.order|, id).None? {
        LastHolderNone(t, |t.order|, id);
        assert false;
      }
    }
  }

  // ---------------------------------------------------------------------------
  // Notification

  /** The single mail sent after a run: to the insurer's address, about the claim that triggered the run. */
  datatype Notice = Notice(to: string, claimId: ClaimId)

  /** An address counts as present unless it is missing, empty or "0" (the falsy strings). */
  predicate HasAddress(email: Option<string>)
  {
    email.Some? && email.value != "" && email.value != "0"
  }

  function NoticeFor(insurer: Insurer, trigger: ClaimRow): (n: Option<Notice>)
    ensures n.Some? <==> HasAddress(insurer.email)
    ensures n.Some? ==> n.value == Notice(insurer.email.value, trigger.id)
  {
    if HasAddress(insurer.email) then Some(Notice(insurer.email.value, trigger.id)) else None
  }

  /** A run either aborts because the claim's insurer is unknown, or writes the store and maybe notifies. */
  datatype RunOutcome = InsurerNotFound | Completed(store: map<ClaimId, Stamp>, notice: Option<Notice>)

  // ---------------------------------------------------------------------------
  // The service object

  class BatchClaimService {
    /** The injected claim service's scaled processing cost. */
    const costOf: CostFn
    /** The day of the month of each day number. */
    const dayOfMonth: Calendar

    /** The day-batches, kept across runs on the same object. */
    var batches: BatchTable
    /** The policy of the insurer of the current run. */
    var policy: Policy

    ghost predicate Valid()
      reads this
    {
      WellFormed(batches)
    }

    constructor (costOf: CostFn, dayOfMonth: Calendar)
      ensures Valid()
      ensures this.costOf == costOf && this.dayOfMonth == dayOfMonth
      ensures batches == EmptyTable
    {
      this.costOf := costOf;
      this.dayOfMonth := dayOfMonth;
      batches := EmptyTable;
      policy := Policy(0, 0, 0.0);
    }

    /**
     One run for the insurer and provider of `claim`: an unknown insurer aborts
     the run with nothing changed; otherwise the insurer's policy is loaded, every
     pending claim is placed in order, the batches are written to the store and
     the insurer is notified once.
     */
    method ProcessBatch(claim: ClaimRow, insurers: map<string, Insurer>, pending: seq<ClaimRow>, today: nat,
                        store: map<ClaimId, Stamp>) returns (outcome: RunOutcome)
      requires Valid()
      modifies this
      ensures Valid()
      ensures claim.insurerCode !in insurers ==>
                outcome == InsurerNotFound && batches == old(batches) && policy == old(policy)
      ensures claim.insurerCode in insurers ==>
                && policy == PolicyOf(insurers[claim.insurerCode])
                && batches == Assign(old(batches), policy, costOf, dayOfMonth, pending, today)
                && outcome == Completed(SaveAll(store, batches, |batches.order|),
                                        NoticeFor(insurers[claim.insurerCode], claim))
    {
      if claim.insurerCode !in insurers {
        return InsurerNotFound;
      }
      var insurer := insurers[claim.insurerCode];
      policy := PolicyOf(insurer);

      var i := 0;
      while i < |pending|
        invariant 0 <= i <= |pending|
        invariant Valid()
        invariant policy == PolicyOf(insurer)
        invariant batches == Assign(old(batches), policy, costOf, dayOfMonth, pending[..i], today)
      {
        ProcessSingleClaim(pending[i], today);
        assert pending[..i + 1][..i] == pending[..i];
        i := i + 1;
      }
      assert pending[..i] == pending;

      var saved, notice := SaveBatches(store, insurer, claim);
      outcome := Completed(saved, notice);
    }

    /** Places one claim on the first of today and the next 30 days whose batch admits it. */
    method ProcessSingleClaim(c: ClaimRow, today: nat)
      requires Valid()
      modifies this`batches
      ensures Valid()
      ensures batches == PlaceClaim(old(batches), policy, costOf, dayOfMonth, c, today)
    {
      if c.baseCost > policy.capacity {
        assert batches == PlaceClaim(batches, policy, costOf, dayOfMonth, c, today);
        return;
      }
      ghost var t, p, cost, cal := batches, policy, costOf, dayOfMonth;
      var batchDate := today;
      var additionalDays: nat := 0;
      while true
        invariant Valid()
        invariant batches == t
        invariant additionalDays <= MaxAdditionalDays && batchDate == today + additionalDays
        invariant FirstFit(t, p, cost, cal, c, today, 0) == FirstFit(t, p, cost, cal, c, today, additionalDays)
        decreases MaxAdditionalDays - additionalDays
      {
        var added := AddToBatch(c, batchDate);
        if added {
          PlaceClaimAt(t, p, cost, cal, c, today, additionalDays, batchDate);
          assert batches == PlaceClaim(t, p, cost, cal, c, today);
          break;
        }
        FirstFitSkip(t, p, cost, cal, c, today, additionalDays, batchDate);
        batchDate := batchDate + 1;
        additionalDays := additionalDays + 1;
        if additionalDays > MaxAdditionalDays {
          PlaceClaimNowhere(t, p, cost, cal, c, today, additionalDays);
          assert batches == PlaceClaim(t, p, cost, cal, c, today);
          break;
        }
      }
    }

    /** Appends the claim to the batch of `batchDate` when the admission rule allows it. */
    method AddToBatch(c: ClaimRow, batchDate: nat) returns (added: bool)
      requires Valid()
      modifies this`batches
      ensures Valid()
      ensures added == Admits(old(batches), policy, c, BatchKey(c.providerName, batchDate),
                              costOf(c, dayOfMonth(batchDate)))
      ensures batches == if added
                         then Place(old(batches), BatchKey(c.providerName, batchDate), c.id,
                                    costOf(c, dayOfMonth(batchDate)))
                         else old(batches)
    {
      var batchId := BatchKey(c.providerName, batchDate);
      if !Admits(batches, policy, c, batchId, costOf(c, dayOfMonth(batchDate))) {
        return false;
      }
      var processingCost := costOf(c, dayOfMonth(batchDate));
      var order := batches.order;
      var entry: DayBatch;
      if batchId !in batches.entries {
        order := order + [batchId];
        entry := DayBatch(processingCost, batchDate, []);
      } else {
        entry := batches.entries[batchId];
        entry := entry.(totalCost := entry.totalCost + processingCost);
      }
      entry := entry.(claims := entry.claims + [c.id]);
      assert BatchTable(order, batches.entries[batchId := entry]) == Place(batches, batchId, c.id, processingCost) by {
        assert batchId !in batches.entries ==> entry == DayBatch(processingCost, batchDate, [c.id]);
      }
      PlaceKeepsWellFormed(batches, batchId, c.id, processingCost);
      batches := BatchTable(order, batches.entries[batchId := entry]);
      return true;
    }

    /** Writes every batch's id and date onto its member claims, in creation order, then notifies the insurer. */
    method SaveBatches(store: map<ClaimId, Stamp>, insurer: Insurer, trigger: ClaimRow)
      returns (saved: map<ClaimId, Stamp>, notice: Option<Notice>)
      requires Valid()
      ensures saved == SaveAll(store, batches, |batches.order|)
      ensures notice == NoticeFor(insurer, trigger)
    {
      var t := batches;
      saved := store;
      var i := 0;
      while i < |t.order|
        invariant 0 <= i <= |t.order|
        invariant saved == SaveAll(store, t, i)
      {
        var batchId := t.order[i];
        var b := t.entries[batchId];
        saved := StampAll(saved, b.claims, Stamp(Some(batchId), Some(b.date)));
        i := i + 1;
      }
      notice := NoticeFor(insurer, trigger);
    }
  }

}
