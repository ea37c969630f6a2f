/** Webhook delivery rows and the store statements that list, claim and save them.
    Times are integers counting milliseconds. */
module Deliveries {
  import opened Results
  import opened ModerationTypes

  const RETRY_LEASE := 120_000
  const STATUS_UPDATE_TIMEOUT := 5_000

  datatype Status = Succeeded | Failed | Retrying

  datatype Delivery = Delivery(
    deliveryId: string,
    requestId: string,
    clientId: nat,
    payload: Payload,
    status: Status,
    attemptCount: nat,
    lastAttemptAt: int,
    httpStatus: Option<int>,
    errorMessage: string)

  /** What one attempt reports back to the row. */
  datatype Outcome = Outcome(status: Status, httpStatus: Option<int>, errorMessage: string)

  datatype StoreError = NotFound | Conflict

  /** Rows by database id. */
  type Rows = map<nat, Delivery>

  /** A failed row, or a retrying row whose lease ran out before staleBefore. */
  predicate Reclaimable(d: Delivery, staleBefore: int) {
    d.status == Failed || (d.status == Retrying && d.lastAttemptAt < staleBefore)
  }

  /** The WHERE clause of the listing query. */
  predicate Retryable(d: Delivery, maxAttempts: int, staleBefore: int) {
    d.attemptCount < maxAttempts && Reclaimable(d, staleBefore)
  }

  /** The WHERE clause of the claim; manual retries pass 0 for no attempt cap. */
  predicate Claimable(d: Delivery, maxAttempts: int, at: int) {
    && Reclaimable(d, at - RETRY_LEASE)
    && (maxAttempts > 0 ==> d.attemptCount < maxAttempts)
  }

  function ClaimRow(d: Delivery, at: int): Delivery {
    d.(status := Retrying, attemptCount := d.attemptCount + 1, lastAttemptAt := at,
       httpStatus := None, errorMessage := "")
  }

  function OutcomeRow(d: Delivery, outcome: Outcome, at: int): Delivery {
    d.(status := outcome.status, lastAttemptAt := at,
       httpStatus := outcome.httpStatus, errorMessage := outcome.errorMessage)
  }

  /** How sending one message ends: answered with success, declined with another status, or not answered, whether or
      not the request went out. */
  datatype Ending = Delivered | Declined(httpStatus: int, error: string) | Unanswered(reached: bool, error: string)

  /** How a retry ends; its client or payload may be found wanting before anything is sent. */
  datatype Dispatch = LookupFailed | ClientMissing | PayloadUndecodable | Dispatched(ending: Ending)

  predicate Reached(dispatch: Dispatch) {
    dispatch.Dispatched? && (dispatch.ending.Unanswered? ==> dispatch.ending.reached)
  }

  /** deliverFinalDecision: an attempt that failed keeps its HTTP status, if any, and its error. */
  function AttemptOutcome(ending: Ending): Outcome {
    match ending
    case Delivered => Outcome(Succeeded, None, "")
    case Declined(httpStatus, error) => Outcome(Failed, Some(httpStatus), error)
    case Unanswered(_, error) => Outcome(Failed, None, error)
  }

  /** The outcome recorded for each way a retry can end. */
  function RecordedOutcome(dispatch: Dispatch): Outcome {
    match dispatch
    case LookupFailed => Outcome(Failed, None, "webhook client lookup failed")
    case ClientMissing => Outcome(Failed, None, "Webhook client not found")
    case PayloadUndecodable => Outcome(Failed, None, "webhook payload decode failed")
    case Dispatched(ending) => AttemptOutcome(ending)
  }

  /** What a row should show of an attempt: succeeded exactly when the message was delivered, otherwise failed with
      the HTTP status of the answer, if there was one, and the error. */
  predicate Shows(d: Delivery, dispatch: Dispatch) {
    && (d.status == Succeeded <==> dispatch == Dispatched(Delivered))
    && (d.status == Failed <==> dispatch != Dispatched(Delivered))
    && (d.httpStatus.Some? <==> dispatch.Dispatched? && dispatch.ending.Declined?)
    && (d.httpStatus.Some? ==> d.httpStatus.value == dispatch.ending.httpStatus)
    && (dispatch.LookupFailed? ==> d.errorMessage == "webhook client lookup failed")
    && (dispatch.ClientMissing? ==> d.errorMessage == "Webhook client not found")
    && (dispatch.PayloadUndecodable? ==> d.errorMessage == "webhook payload decode failed")
    && (dispatch == Dispatched(Delivered) ==> d.errorMessage == "")
    && (dispatch.Dispatched? && !dispatch.ending.Delivered? ==> d.errorMessage == dispatch.ending.error)
  }

  /** A claim keeps everybody else off the row for a lease, counts, and clears what the last attempt left. */
  lemma {:induction false} ClaimHoldsForALease(d: Delivery, at: int, maxAttempts: int, later: int)
    ensures var claimed := ClaimRow(d, at);
            && (Claimable(claimed, maxAttempts, later) <==>
                  later > at + RETRY_LEASE && (maxAttempts > 0 ==> d.attemptCount + 1 < maxAttempts))
            && claimed.httpStatus == None && claimed.errorMessage == ""
            && claimed.payload == d.payload && claimed.deliveryId == d.deliveryId
            && claimed.requestId == d.requestId && claimed.clientId == d.clientId
  {
  }

  /** list holds the oldest `limit` retryable rows, oldest first; rows with equal times may come in any order. */
  ghost predicate IsRetryList(rows: Rows, limit: nat, maxAttempts: int, staleBefore: int, list: seq<nat>) {
    && |list| <= limit
    && (forall i, j :: 0 <= i < j < |list| ==> list[i] != list[j])
    && (forall i :: 0 <= i < |list| ==> list[i] in rows && Retryable(rows[list[i]], maxAttempts, staleBefore))
    && (forall i, j :: 0 <= i < j < |list| ==> rows[list[i]].lastAttemptAt <= rows[list[j]].lastAttemptAt)
    && (forall id :: id in rows && Retryable(rows[id], maxAttempts, staleBefore) && id !in list ==>
          |list| == limit && forall i :: 0 <= i < |list| ==> rows[list[i]].lastAttemptAt <= rows[id].lastAttemptAt)
  }

  class DeliveryStore {
    var rows: Rows

    constructor ()
      ensures rows == map[]
    {
      rows := map[];
    }

    method ListRetryable(limit: nat, maxAttempts: int, staleBefore: int) returns (list: seq<nat>)
      ensures IsRetryList(rows, limit, maxAttempts, staleBefore, list)
    {
      var rest := set id | id in rows && Retryable(rows[id], maxAttempts, staleBefore);
      list := [];
      while rest != {} && |list| < limit
        invariant |list| <= limit
        invariant forall id :: id in rest ==> id in rows && Retryable(rows[id], maxAttempts, staleBefore) && id !in list
        invariant forall i :: 0 <= i < |list| ==> list[i] in rows && Retryable(rows[list[i]], maxAttempts, staleBefore)
        invariant forall i, j :: 0 <= i < j < |list| ==> list[i] != list[j]
        invariant forall i, j :: 0 <= i < j < |list| ==> rows[list[i]].lastAttemptAt <= rows[list[j]].lastAttemptAt
        invariant forall i, id :: 0 <= i < |list| && id in rest ==> rows[list[i]].lastAttemptAt <= rows[id].lastAttemptAt
        invariant forall id :: id in rows && Retryable(rows[id], maxAttempts, staleBefore) ==> id in rest || id in list
        decreases rest
      {
        var oldest := Oldest(rest);
        list, rest := list + [oldest], rest - {oldest};
      }
    }

    method Oldest(ids: set<nat>) returns (oldest: nat)
      requires ids != {} && ids <= rows.Keys
      ensures oldest in ids
      ensures forall id :: id in ids ==> rows[oldest].lastAttemptAt <= rows[id].lastAttemptAt
    {
      oldest :| oldest in ids;
      var rest := ids - {oldest};
      while rest != {}
        invariant oldest in ids && rest <= ids
        invariant forall id :: id in ids - rest ==> rows[oldest].lastAttemptAt <= rows[id].lastAttemptAt
        decreases rest
      {
        var id :| id in rest;
        if rows[id].lastAttemptAt < rows[oldest].lastAttemptAt {
          oldest := id;
        }
        rest := rest - {id};
      }
    }

    /** One conditional UPDATE, then a read of the row. */
    method Claim(id: nat, maxAttempts: int, at: int) returns (r: Result<Delivery, StoreError>)
      modifies this
      ensures id !in old(rows) ==> r == Err(NotFound) && rows == old(rows)
      ensures id in old(rows) && !Claimable(old(rows)[id], maxAttempts, at) ==> r == Err(Conflict) && rows == old(rows)
      ensures id in old(rows) && Claimable(old(rows)[id], maxAttempts, at) ==>
        && rows == old(rows)[id := ClaimRow(old(rows)[id], at)]
        && r == Ok(rows[id])
    {
      if id in rows && Claimable(rows[id], maxAttempts, at) {
        rows := rows[id := ClaimRow(rows[id], at)];
        return Ok(rows[id]);
      }
      if id !in rows {
        return Err(NotFound);
      }
      return Err(Conflict);
    }

    /** The locked read-modify-write of the whole row; it never looks at who holds the claim. */
    method UpdateAttempt(id: nat, outcome: Outcome, at: int) returns (r: Result<Delivery, StoreError>)
      modifies this
      ensures id !in old(rows) ==> r == Err(NotFound) && rows == old(rows)
      ensures id in old(rows) ==>
        && rows == old(rows)[id := OutcomeRow(old(rows)[id], outcome, at)]
        && r == Ok(rows[id])
    {
      if id !in rows {
        return Err(NotFound);
      }
      var delivery := rows[id];
      delivery := delivery.(status := outcome.status);
      delivery := delivery.(lastAttemptAt := at);
      delivery := delivery.(httpStatus := outcome.httpStatus);
      delivery := delivery.(errorMessage := outcome.errorMessage);
      rows := rows[id := delivery];
      return Ok(delivery);
    }
  }
}
