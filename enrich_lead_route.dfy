/**
 * `/api/enrichLead`: POST enriches one lead and marks it `failed` when a stage
 * throws; GET without a lead id runs a batch of at most ten pending leads,
 * each in isolation, and GET with a lead id reads that lead back.
 */
module EnrichLeadRoute {
  import opened Wrappers
  import opened Http
  import opened LeadStore
  import opened Pipeline

  /** `take: 10`. */
  const BatchSize: nat := 10

  /** What GET answers: the batch's `{ count, leads }`, or `{ lead }` (possibly `null`) for one id. */
  datatype GetReply = BatchReply(count: nat, leads: seq<Lead>) | StatusReply(lead: Option<Lead>)

  /**
   * POST `{ leadId }`. A falsy id gives 400 and an unknown one 404, both without
   * a write or a provider call. Otherwise the chain runs on the stored lead and
   * its outcome is written: the enriched lead comes back, or 500 after the lead
   * was marked `failed`.
   */
  method Post(store: Store, providers: Providers, leadId: Option<Id>, now: Timestamp)
    returns (reply: Reply<Lead>, ghost calls: seq<Call>)
    requires store.Valid()
    modifies store
    ensures store.Valid() && store.order == old(store.order)
    ensures leadId.None? ==>
              reply == Err(400, "Lead ID required") && store.rows == old(store.rows) && calls == []
    ensures leadId.Some? && leadId.value !in old(store.rows) ==>
              reply == Err(404, "Lead not found") && store.rows == old(store.rows) && calls == []
    ensures leadId.Some? && leadId.value in old(store.rows) ==>
              var l := old(store.rows)[leadId.value];
              var a := Enrich(providers, ProfileOf(l));
              && calls == a.calls
              && store.rows == old(store.rows)[leadId.value := Settle(l, a.outcome, now)]
              && reply == if a.outcome.Success? then Ok(Settle(l, a.outcome, now))
                          else Err(500, "Failed to enrich lead")
  {
    calls := [];
    if leadId.None? {
      return Err(400, "Lead ID required"), calls;
    }
    var id := leadId.value;
    var found := store.FindUnique(id);
    if found.None? {
      return Err(404, "Lead not found"), calls;
    }
    var l := found.value;
    var a := Enrich(providers, ProfileOf(l));
    calls := a.calls;
    match a.outcome {
      case Success(e) =>
        var updated := store.Update(id, EnrichedPatch(e, now));
        reply := Ok(updated.value);
      case Failure(_) =>
        var _ := store.Update(id, FailedPatch);
        reply := Err(500, "Failed to enrich lead");
    }
  }

  /**
   * One lead of the batch: on success the stored lead is updated and the updated
   * lead is collected; a failure is caught and leaves the store as it was.
   */
  function BatchStep(providers: Providers, rows: map<Id, Lead>, l: Lead, now: Timestamp)
    : (step: (map<Id, Lead>, Option<Lead>))
  {
    match Enrich(providers, ProfileOf(l)).outcome
    case Failure(_) => (rows, None)
    case Success(e) =>
      if l.id in rows then
        var updated := ApplyPatch(rows[l.id], EnrichedPatch(e, now));
        (rows[l.id := updated], Some(updated))
      else (rows, None)
  }

  /** The store after the batch loop has handled `batch`, one lead after the other. */
  function BatchRows(providers: Providers, rows: map<Id, Lead>, batch: seq<Lead>, now: Timestamp): map<Id, Lead>
    decreases |batch|
  {
    if batch == [] then rows
    else BatchStep(providers, BatchRows(providers, rows, batch[..|batch| - 1], now), batch[|batch| - 1], now).0
  }

  /** The `results` of the batch loop after handling `batch`. */
  function BatchResults(providers: Providers, rows: map<Id, Lead>, batch: seq<Lead>, now: Timestamp): seq<Lead>
    decreases |batch|
  {
    if batch == [] then []
    else
      var prefix := batch[..|batch| - 1];
      var step := BatchStep(providers, BatchRows(providers, rows, prefix, now), batch[|batch| - 1], now);
      BatchResults(providers, rows, prefix, now) + (if step.1.Some? then [step.1.value] else [])
  }

  /** The calls the batch loop makes while handling `batch`. */
  function BatchCalls(providers: Providers, batch: seq<Lead>): seq<Call>
    decreases |batch|
  {
    if batch == [] then []
    else BatchCalls(providers, batch[..|batch| - 1]) + Enrich(providers, ProfileOf(batch[|batch| - 1])).calls
  }

  /**
   * GET. Without a lead id: the first ten pending leads, each run through the
   * chain in turn; the reply counts and lists the leads that completed. With a
   * lead id: that lead as stored, or `null`, and no write.
   */
  method Get(store: Store, providers: Providers, leadId: Option<Id>, now: Timestamp)
    returns (reply: GetReply, ghost calls: seq<Call>)
    requires store.Valid()
    modifies store
    ensures store.Valid() && store.order == old(store.order)
    ensures leadId.Some? ==>
              reply == StatusReply(if leadId.value in old(store.rows) then Some(old(store.rows)[leadId.value]) else None)
              && store.rows == old(store.rows) && calls == []
    ensures leadId.None? ==>
              var batch := FirstPending(old(store.rows), old(store.order), BatchSize);
              var results := BatchResults(providers, old(store.rows), batch, now);
              && reply == BatchReply(|results|, results)
              && store.rows == BatchRows(providers, old(store.rows), batch, now)
              && calls == BatchCalls(providers, batch)
  {
    calls := [];
    if leadId.Some? {
      var found := store.FindUnique(leadId.value);
      return StatusReply(found), calls;
    }
    var batch := store.FindManyPending(BatchSize);
    ghost var rows0 := store.rows;
    var results: seq<Lead> := [];
    var i := 0;
    while i < |batch|
      invariant 0 <= i <= |batch|
      invariant store.Valid() && store.order == old(store.order)
      invariant store.rows == BatchRows(providers, rows0, batch[..i], now)
      invariant results == BatchResults(providers, rows0, batch[..i], now)
      invariant calls == BatchCalls(providers, batch[..i])
    {
      BatchUnfold(providers, rows0, batch[..i + 1], now);
      assert batch[..i + 1][..i] == batch[..i];
      var added, c := EnrichOne(store, providers, batch[i], now);
      calls := calls + c;
      if added.Some? {
        results := results + [added.value];
      }
      i := i + 1;
    }
    assert batch[..i] == batch;
    reply := BatchReply(|results|, results);
  }

  /** One turn of the batch loop: the chain on one lead, and the update when it succeeds. */
  method EnrichOne(store: Store, providers: Providers, l: Lead, now: Timestamp)
    returns (added: Option<Lead>, ghost calls: seq<Call>)
    requires store.Valid()
    modifies store
    ensures store.Valid() && store.order == old(store.order)
    ensures (store.rows, added) == BatchStep(providers, old(store.rows), l, now)
    ensures calls == Enrich(providers, ProfileOf(l)).calls
  {
    var a := Enrich(providers, ProfileOf(l));
    calls := a.calls;
    added := None;
    if a.outcome.Success? {
      added := store.Update(l.id, EnrichedPatch(a.outcome.value, now));
    }
  }

  /** The batch functions on a non-empty batch, one step unrolled. */
  lemma BatchUnfold(providers: Providers, rows: map<Id, Lead>, batch: seq<Lead>, now: Timestamp)
    requires batch != []
    ensures var prefix := batch[..|batch| - 1];
            var step := BatchStep(providers, BatchRows(providers, rows, prefix, now), batch[|batch| - 1], now);
            && BatchRows(providers, rows, batch, now) == step.0
            && BatchResults(providers, rows, batch, now) ==
                 BatchResults(providers, rows, prefix, now) + (if step.1.Some? then [step.1.value] else [])
            && BatchCalls(providers, batch) ==
                 BatchCalls(providers, prefix) + Enrich(providers, ProfileOf(batch[|batch| - 1])).calls
  {
  }

  /** Every lead the batch returns is `completed`, and there are no more of them than leads in the batch. */
  lemma {:induction false} BatchResultsCompleted(providers: Providers, rows: map<Id, Lead>, batch: seq<Lead>, now: Timestamp)
    ensures var results := BatchResults(providers, rows, batch, now);
            && |results| <= |batch|
            && forall k :: 0 <= k < |results| ==> results[k].status == Completed
    decreases |batch|
  {
    if batch != [] {
      var prefix := batch[..|batch| - 1];
      var last := batch[|batch| - 1];
      BatchResultsCompleted(providers, rows, prefix, now);
      var step := BatchStep(providers, BatchRows(providers, rows, prefix, now), last, now);
      BatchStepCompletes(providers, BatchRows(providers, rows, prefix, now), last, now);
      var before := BatchResults(providers, rows, prefix, now);
      var extra: seq<Lead> := if step.1.Some? then [step.1.value] else [];
      assert BatchResults(providers, rows, batch, now) == before + extra;
      forall k | 0 <= k < |before + extra|
        ensures (before + extra)[k].status == Completed
      {
        if k < |before| {
          assert (before + extra)[k] == before[k];
        } else {
          assert (before + extra)[k] == step.1.value;
        }
      }
    }
  }

  /** A lead the step collects is the updated, `completed` record of the step's own lead. */
  lemma BatchStepCompletes(providers: Providers, rows: map<Id, Lead>, l: Lead, now: Timestamp)
    ensures var step := BatchStep(providers, rows, l, now);
            step.1.Some? ==> step.1.value.status == Completed &&
                             l.id in rows && step.0 == rows[l.id := step.1.value]
  {
    var a := Enrich(providers, ProfileOf(l));
    if a.outcome.Success? && l.id in rows {
      var p := EnrichedPatch(a.outcome.value, now);
      assert p.status == Put(Completed);
      assert ApplyPatch(rows[l.id], p).status == Completed;
    }
  }

  /** The batch writes only to leads of the batch: every other lead, and the set of ids, stay as they were. */
  lemma {:induction false} BatchLeavesOthers(providers: Providers, rows: map<Id, Lead>, batch: seq<Lead>, now: Timestamp, id: Id)
    requires id !in Ids(batch)
    ensures BatchRows(providers, rows, batch, now).Keys == rows.Keys
    ensures id in rows ==> id in BatchRows(providers, rows, batch, now) && BatchRows(providers, rows, batch, now)[id] == rows[id]
    decreases |batch|
  {
    if batch != [] {
      var prefix := batch[..|batch| - 1];
      assert Ids(batch) == Ids(prefix) + [batch[|batch| - 1].id];
      BatchLeavesOthers(providers, rows, prefix, now, id);
    }
  }

  /**
   * A lead of the batch whose chain fails is caught and left alone: it is still
   * `pending`, with every field as it was.
   */
  lemma {:induction false} BatchLeavesFailedPending(providers: Providers, rows: map<Id, Lead>, batch: seq<Lead>,
                                                   now: Timestamp, k: nat)
    requires k < |batch| && Distinct(Ids(batch))
    requires Enrich(providers, ProfileOf(batch[k])).outcome.Failure?
    ensures batch[k].id in rows ==>
              batch[k].id in BatchRows(providers, rows, batch, now) &&
              BatchRows(providers, rows, batch, now)[batch[k].id] == rows[batch[k].id]
    decreases |batch|
  {
    var prefix := batch[..|batch| - 1];
    assert Ids(batch) == Ids(prefix) + [batch[|batch| - 1].id];
    if k == |batch| - 1 {
      assert batch[k].id !in Ids(prefix) by {
        forall j | 0 <= j < |prefix| ensures Ids(prefix)[j] != batch[k].id {
          assert Ids(batch)[j] == Ids(prefix)[j];
        }
      }
      BatchLeavesOthers(providers, rows, prefix, now, batch[k].id);
    } else {
      assert batch[k] == prefix[k];
      assert Ids(prefix) == Ids(batch)[..|batch| - 1];
      assert Ids(batch)[k] != Ids(batch)[|batch| - 1];
      assert Distinct(Ids(prefix)) by {
        forall i, j | 0 <= i < j < |prefix| ensures Ids(prefix)[i] != Ids(prefix)[j] {
          assert Ids(prefix)[i] == Ids(batch)[i] && Ids(prefix)[j] == Ids(batch)[j];
        }
      }
      BatchLeavesFailedPending(providers, rows, prefix, now, k);
      BatchStepKeepsOthers(providers, BatchRows(providers, rows, prefix, now), batch[|batch| - 1], now, batch[k].id);
    }
  }

  /** One step of the batch writes at most the entry of its own lead. */
  lemma BatchStepKeepsOthers(providers: Providers, rows: map<Id, Lead>, l: Lead, now: Timestamp, id: Id)
    requires id != l.id
    ensures BatchStep(providers, rows, l, now).0.Keys == rows.Keys
    ensures id in rows ==> BatchStep(providers, rows, l, now).0[id] == rows[id]
  {
  }

  /**
   * A GET batch isolates failures: a selected lead whose chain fails is still
   * `pending` afterwards with every field as it was, and every lead outside the
   * batch is untouched.
   */
  lemma GetBatchIsolation(providers: Providers, rows: map<Id, Lead>, order: seq<Id>, now: Timestamp)
    requires forall id :: id in rows ==> rows[id].id == id
    requires Distinct(order)
    ensures var batch := FirstPending(rows, order, BatchSize);
            var after := BatchRows(providers, rows, batch, now);
            && |batch| <= BatchSize
            && after.Keys == rows.Keys
            && (forall k :: 0 <= k < |batch| && Enrich(providers, ProfileOf(batch[k])).outcome.Failure? ==>
                  batch[k].id in after && after[batch[k].id] == batch[k] && batch[k].status == Pending)
            && (forall id :: id in rows && id !in Ids(batch) ==> after[id] == rows[id])
  {
    var batch := FirstPending(rows, order, BatchSize);
    FirstPendingSpec(rows, order, BatchSize);
    FirstPendingDistinct(rows, order, BatchSize);
    BatchKeepsKeys(providers, rows, batch, now);
    forall k | 0 <= k < |batch| && Enrich(providers, ProfileOf(batch[k])).outcome.Failure?
      ensures batch[k].id in BatchRows(providers, rows, batch, now)
      ensures BatchRows(providers, rows, batch, now)[batch[k].id] == batch[k]
    {
      BatchLeavesFailedPending(providers, rows, batch, now, k);
    }
    forall id | id in rows && id !in Ids(batch)
      ensures BatchRows(providers, rows, batch, now)[id] == rows[id]
    {
      BatchLeavesOthers(providers, rows, batch, now, id);
    }
  }

  /** The batch never adds or removes a lead. */
  lemma {:induction false} BatchKeepsKeys(providers: Providers, rows: map<Id, Lead>, batch: seq<Lead>, now: Timestamp)
    ensures BatchRows(providers, rows, batch, now).Keys == rows.Keys
    decreases |batch|
  {
    if batch != [] {
      BatchKeepsKeys(providers, rows, batch[..|batch| - 1], now);
    }
  }

  /**
   * As written, a lead whose chain fails stays `pending`, so when every lead of
   * the first batch fails, the store is unchanged, nothing is returned, and the
   * next GET selects the very same batch: the leads behind it are never reached.
   */
  lemma BatchStarvation(providers: Providers, rows: map<Id, Lead>, order: seq<Id>, now: Timestamp)
    requires forall k :: 0 <= k < |FirstPending(rows, order, BatchSize)| ==>
               Enrich(providers, ProfileOf(FirstPending(rows, order, BatchSize)[k])).outcome.Failure?
    ensures var batch := FirstPending(rows, order, BatchSize);
            && BatchRows(providers, rows, batch, now) == rows
            && BatchResults(providers, rows, batch, now) == []
            && FirstPending(BatchRows(providers, rows, batch, now), order, BatchSize) == batch
  {
    var batch := FirstPending(rows, order, BatchSize);
    AllFailedBatchChangesNothing(providers, rows, batch, now);
  }

  lemma {:induction false} AllFailedBatchChangesNothing(providers: Providers, rows: map<Id, Lead>, batch: seq<Lead>,
                                                        now: Timestamp)
    requires forall k :: 0 <= k < |batch| ==> Enrich(providers, ProfileOf(batch[k])).outcome.Failure?
    ensures BatchRows(providers, rows, batch, now) == rows
    ensures BatchResults(providers, rows, batch, now) == []
    decreases |batch|
  {
    if batch != [] {
      var prefix := batch[..|batch| - 1];
      assert forall k :: 0 <= k < |prefix| ==> prefix[k] == batch[k];
      AllFailedBatchChangesNothing(providers, rows, prefix, now);
    }
  }

  /** The batch step as evidently intended: a lead whose chain fails is marked `failed`, as POST does. */
  function BatchStepMarkingFailed(providers: Providers, rows: map<Id, Lead>, l: Lead, now: Timestamp)
    : (step: (map<Id, Lead>, Option<Lead>))
  {
    match Enrich(providers, ProfileOf(l)).outcome
    case Failure(_) =>
      if l.id in rows then (rows[l.id := ApplyPatch(rows[l.id], FailedPatch)], None) else (rows, None)
    case Success(_) => BatchStep(providers, rows, l, now)
  }

  /** The store after the corrected batch loop has handled `batch`. */
  function BatchRowsMarkingFailed(providers: Providers, rows: map<Id, Lead>, batch: seq<Lead>, now: Timestamp)
    : map<Id, Lead>
    decreases |batch|
  {
    if batch == [] then rows
    else BatchStepMarkingFailed(providers, BatchRowsMarkingFailed(providers, rows, batch[..|batch| - 1], now),
                                batch[|batch| - 1], now).0
  }

  /**
   * The corrected batch settles every lead it selects: afterwards none of them
   * is `pending`, every lead still sits under its own id, and no lead is added or removed.
   */
  lemma {:induction false} CorrectedBatchSettles(providers: Providers, rows: map<Id, Lead>, batch: seq<Lead>,
                                                 now: Timestamp)
    requires forall id :: id in rows ==> rows[id].id == id
    ensures var after := BatchRowsMarkingFailed(providers, rows, batch, now);
            && after.Keys == rows.Keys
            && (forall id :: id in after ==> after[id].id == id)
            && (forall k :: 0 <= k < |batch| && batch[k].id in after ==> after[batch[k].id].status != Pending)
    decreases |batch|
  {
    if batch != [] {
      var prefix := batch[..|batch| - 1];
      var last := batch[|batch| - 1];
      CorrectedBatchSettles(providers, rows, prefix, now);
      var mid := BatchRowsMarkingFailed(providers, rows, prefix, now);
      var after := BatchRowsMarkingFailed(providers, rows, batch, now);
      assert after == BatchStepMarkingFailed(providers, mid, last, now).0;
      CorrectedStepSettles(providers, mid, last, now);
      forall k | 0 <= k < |batch| && batch[k].id in after ensures after[batch[k].id].status != Pending {
        if k < |batch| - 1 {
          assert batch[k] == prefix[k];
        }
      }
    }
  }

  /** One corrected step settles its own lead and never makes a lead `pending`. */
  lemma CorrectedStepSettles(providers: Providers, rows: map<Id, Lead>, l: Lead, now: Timestamp)
    requires forall id :: id in rows ==> rows[id].id == id
    ensures var after := BatchStepMarkingFailed(providers, rows, l, now).0;
            && after.Keys == rows.Keys
            && (forall id :: id in after ==> after[id].id == id)
            && (l.id in after ==> after[l.id].status != Pending)
            && (forall id :: id in after && id != l.id ==> after[id] == rows[id])
  {
    var a := Enrich(providers, ProfileOf(l));
    if l.id in rows {
      var p := if a.outcome.Success? then EnrichedPatch(a.outcome.value, now) else FailedPatch;
      assert p.status.Put? && p.status.value != Pending;
      assert ApplyPatch(rows[l.id], p).status != Pending;
    }
  }

  /**
   * With the correction the batch runner makes progress: the next GET selects
   * none of the leads this one selected.
   */
  lemma CorrectedBatchMakesProgress(providers: Providers, rows: map<Id, Lead>, order: seq<Id>, now: Timestamp)
    requires forall id :: id in rows ==> rows[id].id == id
    ensures var batch := FirstPending(rows, order, BatchSize);
            var after := BatchRowsMarkingFailed(providers, rows, batch, now);
            forall k :: 0 <= k < |FirstPending(after, order, BatchSize)| ==>
              FirstPending(after, order, BatchSize)[k].id !in Ids(batch)
  {
    var batch := FirstPending(rows, order, BatchSize);
    var after := BatchRowsMarkingFailed(providers, rows, batch, now);
    FirstPendingSpec(rows, order, BatchSize);
    CorrectedBatchSettles(providers, rows, batch, now);
    FirstPendingSpec(after, order, BatchSize);
  }
}
