/** The service methods behind a check and a review, each store call being one step of CheckProtocol while other
    workers take steps of their own in between. */
module CheckService {
  import opened Results
  import opened ModerationTypes
  import opened Deliveries
  import opened ModerationStore
  import opened CheckProtocol
  import opened ServiceInputs
  import opened Text
  import Notifications

  /** How the dispatch of a final decision goes: nothing to send to, or an attempt whose record may fail to be stored. */
  datatype Attempt =
    | NoWebhook
    | Attempted(deliveryId: string, ending: Ending, at: int, stored: bool)

  predicate Recorded(request: Request, attempt: Attempt) {
    request.clientId.Some? && attempt.Attempted? && attempt.stored
  }

  function DeliveryOf(request: Request, payload: Payload, attempt: Attempt): Delivery
    requires Recorded(request, attempt)
  {
    var outcome := AttemptOutcome(attempt.ending);
    Delivery(attempt.deliveryId, request.requestId, request.clientId.value, payload, outcome.status, 1, attempt.at,
             outcome.httpStatus, outcome.errorMessage)
  }

  /** The message is addressed to the request's client, names the request, and tells the final decision: the
      reviewer's, under the review's status, or the policy's. */
  predicate Announces(
    m: Payload, request: Request, result: ResultRow, reviewStatus: Option<ReviewStatus>, finalDecision: Option<Decision>)
  {
    && m.requestId == request.requestId && Some(m.clientId) == request.clientId && m.externalId == request.externalId
    && m.reviewStatus == reviewStatus
    && (finalDecision.Some? ==> m.decision == finalDecision.value)
    && (finalDecision == None ==> m.decision == result.decision)
  }

  /** Exactly one delivery is added: the first attempt to send such a message, showing how it ended. */
  ghost predicate AddsDelivery(
    before: Db, after: Db, request: Request, result: ResultRow, reviewStatus: Option<ReviewStatus>,
    finalDecision: Option<Decision>, attempt: Attempt)
    requires attempt.Attempted?
  {
    exists row: nat :: row !in before.deliveries && row in after.deliveries
      && after == before.(deliveries := before.deliveries[row := after.deliveries[row]])
      && var d := after.deliveries[row];
         && Announces(d.payload, request, result, reviewStatus, finalDecision)
         && d.requestId == request.requestId && Some(d.clientId) == request.clientId
         && d.deliveryId == attempt.deliveryId && d.attemptCount == 1 && d.lastAttemptAt == attempt.at
         && Shows(d, Dispatched(attempt.ending))
  }

  /** What the save step does: answer and go on to notify or rest, or be sent back to look again. */
  lemma {:induction false} SaveApplied(trace: seq<Step>, worker: nat)
    requires Run(trace).Some? && PhaseOf(Run(trace).value, worker).Decided?
    ensures var s := Run(trace).value;
            var p, t := PhaseOf(s, worker), Apply(s, Save(worker));
            var request := RequestOf(p.input, p.requestId);
            var row := ResultRow(p.requestId, p.input.userId, request.clientId, p.decision);
            if SaveCheck(s.db, request, p.decision).Ok? then
              && t.answers == s.answers + [Answered(p.input, p.requestId, p.decision)]
              && PhaseOf(t, worker) == if p.decision == Review then Idle else Notifying(request, row, None, None)
            else PhaseOf(t, worker) == Conflicted(p.input)
  {
    var s := Run(trace).value;
    var p := PhaseOf(s, worker);
    RunKeepsAnswers(trace);
    if SaveCheck(s.db, RequestOf(p.input, p.requestId), p.decision).Err? {
      ConflictMeansSamePair(s, worker);
    }
  }

  /** Which store calls of a check fail with an error of their own; a failed save is rolled back. */
  datatype Faults = Faults(find: bool, save: bool, findAgain: bool)

  datatype CheckError = Invalid(fault: InputError) | NoDecision | StoreFailed

  datatype ReviewError = BadReview(fault: InputError) | BadDecision | NotFinalized(error: FinalizeError) | ReviewStoreFailed

  function InputOf(raw: RawCheck): Input {
    Input(raw.userId, raw.clientId, Trim(raw.externalId))
  }

  /** What a review is refused for, in the order in which it is looked at. */
  function ReviewRefusal(
    db: Db, caseId: string, reviewer: nat, status: ReviewStatus, decision: Decision, notes: string, at: int)
    : Option<ReviewError>
  {
    var fault := ReviewFault(caseId, reviewer, notes);
    if fault.Some? then Some(BadReview(fault.value))
    else
      match FinalizeCase(db, ParseCaseId(caseId).value, reviewer, status, decision, Trim(notes), at)
      case Err(e) => Some(NotFinalized(e))
      case Ok(_) => None
  }

  /** Nothing came between before and the finalize step of this call. */
  predicate Finalized(
    before: seq<Step>, after: seq<Step>, worker: nat, caseId: string, reviewer: nat, status: ReviewStatus,
    decision: Decision, notes: string, at: int)
  {
    && ParseCaseId(caseId).Some?
    && before + [Finalize(worker, ParseCaseId(caseId).value, reviewer, status, decision, Trim(notes), at)] <= after
  }

  class Service {
    const store: Store
    /** Request ids drawn so far. */
    var ids: set<string>
    /** Every protocol step taken so far, by this call or by other workers. */
    ghost var trace: seq<Step>

    ghost predicate Valid()
      reads this, store
    {
      && Run(trace).Some?
      && Run(trace).value.db == store.Tables()
      && Run(trace).value.minted <= ids
    }

    ghost function Now(): World
      reads this
      requires Run(trace).Some?
    {
      Run(trace).value
    }

    constructor (store: Store)
      requires store.Tables() == EMPTY_DB
      ensures Valid() && this.store == store && trace == []
    {
      this.store, ids, trace := store, {}, [];
    }

    ghost method Take(step: Step)
      requires Run(trace).Some? && Enabled(Now(), step)
      modifies this`trace
      ensures trace == old(trace) + [step] && Run(trace) == Some(Apply(old(Now()), step))
    {
      trace := trace + [step];
      assert trace[..|trace| - 1] == old(trace);
    }

    /** Other workers take any steps they like. Callers know no more than this contract; the body is the least that
        meets it. */
    method OthersAct(worker: nat)
      requires Valid()
      modifies this, store
      ensures Valid() && old(trace) <= trace
      ensures PhaseOf(Now(), worker) == old(PhaseOf(Now(), worker))
    {
    }

    method NewId() returns (id: string)
      ensures id !in ids
    {
      id := "";
      var left := ids;
      while id in ids
        invariant left <= ids
        invariant forall other :: other in ids && |other| >= |id| ==> other in left
        decreases left
      {
        left := left - {id};
        id := id + "0";
      }
    }

    /** A bad input is refused before anything happens. Otherwise the answer is one that the protocol records, so that
        whatever ChecksAreIdempotent says of recorded answers holds of it; there is no answer only when a store call
        failed or no decision was reached. */
    method Check(worker: nat, raw: RawCheck, decided: Option<Decision>, faults: Faults, attempt: Attempt)
      returns (r: Result<Answer, CheckError>)
      requires Valid() && PhaseOf(Now(), worker).Idle?
      modifies this, store
      ensures Valid() && old(trace) <= trace && PhaseOf(Now(), worker).Idle?
      ensures CheckFault(raw).Some? ==>
                r == Err(Invalid(CheckFault(raw).value)) && trace == old(trace) && store.Tables() == old(store.Tables())
      ensures r.Ok? ==> r.value in Now().answers && r.value.Answered?
                        && r.value.input == Input(raw.userId, raw.clientId, Trim(raw.externalId))
      ensures CheckFault(raw).None? && r.Err? ==>
                || (r.error == NoDecision && decided.None?)
                || (r.error == StoreFailed && (faults.find || faults.save || faults.findAgain))
    {
      var fault := CheckFault(raw);
      if fault.Some? {
        return Err(Invalid(fault.value));
      }
      var input := InputOf(raw);
      if Keyed(input) {
        if faults.find {
          return Err(StoreFailed);
        }
        var found := store.Find(input.clientId, input.externalId);
        if found.Some? {
          Take(Begin(worker, input));
          r := Ok(AnswerFrom(input, found.value));
          assert Now().answers[|Now().answers| - 1] == r.value;
          return;
        }
      }
      Take(Begin(worker, input));
      OthersAct(worker);
      r := AnswerAnalyzed(worker, input, decided, faults, attempt);
    }

    /** From the analysis on. */
    method AnswerAnalyzed(worker: nat, input: Input, decided: Option<Decision>, faults: Faults, attempt: Attempt)
      returns (r: Result<Answer, CheckError>)
      requires Valid() && PhaseOf(Now(), worker) == Analyzing(input)
      modifies this, store
      ensures Valid() && old(trace) <= trace && PhaseOf(Now(), worker).Idle?
      ensures r.Ok? ==> r.value in Now().answers && r.value.Answered? && r.value.input == input
      ensures r.Err? ==>
                || (r.error == NoDecision && decided.None?)
                || (r.error == StoreFailed && (faults.save || faults.findAgain))
    {
      if decided.None? {
        Take(Abandon(worker));
        return Err(NoDecision);
      }
      var requestId := NewId();
      Take(Decide(worker, requestId, decided.value));
      ids := ids + {requestId};
      OthersAct(worker);
      if faults.save {
        Take(Abandon(worker));
        return Err(StoreFailed);
      }
      r := SaveChecked(worker, input, requestId, decided.value, faults, attempt);
    }

    /** From the save on: a conflict is answered by the row that caused it. */
    method SaveChecked(
      worker: nat, input: Input, requestId: string, decision: Decision, faults: Faults, attempt: Attempt)
      returns (r: Result<Answer, CheckError>)
      requires Valid() && PhaseOf(Now(), worker) == Decided(input, requestId, decision)
      modifies this, store
      ensures Valid() && old(trace) <= trace && PhaseOf(Now(), worker).Idle?
      ensures r.Ok? ==> r.value in Now().answers && r.value.Answered? && r.value.input == input
      ensures r.Err? ==> r.error == StoreFailed && faults.findAgain
    {
      SaveApplied(trace, worker);
      var error := store.Save(RequestOf(input, requestId), decision);
      Take(Save(worker));
      if error.Some? {
        r := AnswerConflict(worker, input, faults);
      } else {
        r := Ok(Answered(input, requestId, decision));
        assert Now().answers[|Now().answers| - 1] == r.value;
        if decision != Review {
          AnnounceSaved(worker, input, requestId, decision, attempt, r.value);
        }
      }
    }

    /** Sends the policy's final decision; the answer stays on record. */
    method AnnounceSaved(
      worker: nat, input: Input, requestId: string, decision: Decision, attempt: Attempt, ghost answer: Answer)
      requires Valid() && answer in Now().answers
      requires PhaseOf(Now(), worker)
            == Notifying(RequestOf(input, requestId),
                         ResultRow(requestId, input.userId, OptionalId(input.clientId), decision), None, None)
      modifies this, store
      ensures Valid() && old(trace) <= trace && PhaseOf(Now(), worker).Idle? && answer in Now().answers
    {
      OthersAct(worker);
      var request := RequestOf(input, requestId);
      Dispatch(worker, request, ResultRow(requestId, input.userId, request.clientId, decision), None, None, attempt);
      AnswersGrow(old(trace), trace, answer);
    }

    method AnswerConflict(worker: nat, input: Input, faults: Faults) returns (r: Result<Answer, CheckError>)
      requires Valid() && PhaseOf(Now(), worker) == Conflicted(input)
      modifies this, store
      ensures Valid() && old(trace) <= trace && PhaseOf(Now(), worker).Idle?
      ensures r.Ok? ==> r.value in Now().answers && r.value.Answered? && r.value.input == input
      ensures r.Err? ==> r.error == StoreFailed && faults.findAgain
    {
      OthersAct(worker);
      if faults.findAgain {
        Take(Abandon(worker));
        return Err(StoreFailed);
      }
      r := FindConflicting(worker, input);
    }

    /** The second lookup, which always finds the row that took the key. */
    method FindConflicting(worker: nat, input: Input) returns (r: Result<Answer, CheckError>)
      requires Valid() && PhaseOf(Now(), worker) == Conflicted(input)
      modifies this`trace
      ensures Valid() && old(trace) <= trace && PhaseOf(Now(), worker).Idle?
      ensures r.Ok? && r.value in Now().answers && r.value.Answered? && r.value.input == input
    {
      RunKeepsAnswers(trace);
      assert ConflictBacked(Now().db.requests, PhaseOf(Now(), worker));
      FoundIsBacked(Now().db, input);
      var found := store.Find(input.clientId, input.externalId);
      Take(FindAgain(worker));
      r := Ok(AnswerFrom(input, found.value));
      assert Now().answers[|Now().answers| - 1] == r.value;
    }

    /** Approve, reject and mark-mistake: what is refused changes nothing; otherwise the case is finalized once, in one
        step, and the human decision is announced. */
    method FinalizeReviewCase(
      worker: nat, caseId: string, reviewer: nat, status: ReviewStatus, decision: Decision, notes: string, at: int,
      storeFails: bool, attempt: Attempt)
      returns (error: Option<ReviewError>)
      requires Valid() && PhaseOf(Now(), worker).Idle? && ReviewAction(status, decision)
      modifies this, store
      ensures Valid() && old(trace) <= trace && PhaseOf(Now(), worker).Idle?
      ensures error.Some? ==> store.Tables() == old(store.Tables()) && trace == old(trace)
      ensures var refusal := ReviewRefusal(old(store.Tables()), caseId, reviewer, status, decision, notes, at);
              && (!storeFails ==> error == refusal)
              && (storeFails ==> error == if refusal.Some? && refusal.value.BadReview? then refusal else Some(ReviewStoreFailed))
      ensures error == None ==> Finalized(old(trace), trace, worker, caseId, reviewer, status, decision, notes, at)
    {
      var fault := ReviewFault(caseId, reviewer, notes);
      if fault.Some? {
        return Some(BadReview(fault.value));
      }
      if storeFails {
        return Some(ReviewStoreFailed);
      }
      var id := ParseCaseId(caseId).value;
      var refused := store.Finalize(id, reviewer, status, decision, Trim(notes), at);
      if refused.Some? {
        return Some(NotFinalized(refused.value));
      }
      Announce(worker, id, reviewer, status, decision, Trim(notes), at, attempt);
      return None;
    }

    /** Approving allows. */
    method ApproveReviewCase(
      worker: nat, caseId: string, reviewer: nat, notes: string, at: int, storeFails: bool, attempt: Attempt)
      returns (error: Option<ReviewError>)
      requires Valid() && PhaseOf(Now(), worker).Idle?
      modifies this, store
      ensures Valid() && PhaseOf(Now(), worker).Idle?
      ensures error.Some? ==> store.Tables() == old(store.Tables())
      ensures error == None ==> Finalized(old(trace), trace, worker, caseId, reviewer, Approved, Allow, notes, at)
    {
      error := FinalizeReviewCase(worker, caseId, reviewer, Approved, Allow, notes, at, storeFails, attempt);
    }

    /** Rejecting blocks. */
    method RejectReviewCase(
      worker: nat, caseId: string, reviewer: nat, notes: string, at: int, storeFails: bool, attempt: Attempt)
      returns (error: Option<ReviewError>)
      requires Valid() && PhaseOf(Now(), worker).Idle?
      modifies this, store
      ensures Valid() && PhaseOf(Now(), worker).Idle?
      ensures error.Some? ==> store.Tables() == old(store.Tables())
      ensures error == None ==> Finalized(old(trace), trace, worker, caseId, reviewer, Rejected, Block, notes, at)
    {
      error := FinalizeReviewCase(worker, caseId, reviewer, Rejected, Block, notes, at, storeFails, attempt);
    }

    /** A mistake is put right either way, but not by another review. */
    method MarkReviewMistake(
      worker: nat, caseId: string, reviewer: nat, decision: Decision, notes: string, at: int, storeFails: bool,
      attempt: Attempt)
      returns (error: Option<ReviewError>)
      requires Valid() && PhaseOf(Now(), worker).Idle?
      modifies this, store
      ensures Valid() && PhaseOf(Now(), worker).Idle?
      ensures error.Some? ==> store.Tables() == old(store.Tables())
      ensures decision == Review <==> error == Some(BadDecision)
      ensures error == None ==> Finalized(old(trace), trace, worker, caseId, reviewer, Mistake, decision, notes, at)
    {
      if decision != Allow && decision != Block {
        return Some(BadDecision);
      }
      error := FinalizeReviewCase(worker, caseId, reviewer, Mistake, decision, notes, at, storeFails, attempt);
    }

    /** The announcement of a case the store has just finalized. */
    method Announce(
      worker: nat, id: nat, reviewer: nat, status: ReviewStatus, decision: Decision, notes: string, at: int,
      attempt: Attempt)
      requires Run(trace).Some? && Now().minted <= ids && PhaseOf(Now(), worker).Idle? && ReviewAction(status, decision)
      requires FinalizeCase(Now().db, id, reviewer, status, decision, notes, at) == Ok(store.Tables())
      modifies this, store
      ensures Valid() && PhaseOf(Now(), worker).Idle?
      ensures old(trace) + [Finalize(worker, id, reviewer, status, decision, notes, at)] <= trace
    {
      var step := Finalize(worker, id, reviewer, status, decision, notes, at);
      RunKeepsAnswers(trace);
      Notifications.FinalizeApplied(Now(), step);
      Take(step);
      var i := RequestIndex(store.requests, store.cases[id - 1].requestId);
      var j := ResultIndex(store.results, store.cases[id - 1].userId, store.cases[id - 1].requestId);
      var request, result := store.requests[i], store.results[j];
      OthersAct(worker);
      Dispatch(worker, request, result, Some(status), Some(decision), attempt);
    }

    /** Adds one delivery with the final decision's payload, unless there is nobody to send to or the record fails. */
    method Dispatch(
      worker: nat, request: Request, result: ResultRow, reviewStatus: Option<ReviewStatus>,
      finalDecision: Option<Decision>, attempt: Attempt)
      requires Valid() && PhaseOf(Now(), worker) == Notifying(request, result, reviewStatus, finalDecision)
      modifies this`trace, store
      ensures Valid() && old(trace) <= trace && PhaseOf(Now(), worker).Idle?
      ensures if Recorded(request, attempt)
              then AddsDelivery(old(store.Tables()), store.Tables(), request, result, reviewStatus, finalDecision, attempt)
              else store.Tables() == old(store.Tables())
    {
      if !Recorded(request, attempt) {
        Take(Abandon(worker));
        return;
      }
      var delivery := DeliveryOf(request, FinalPayload(request, result, reviewStatus, finalDecision), attempt);
      var row := store.SaveDelivery(delivery);
      Take(Notify(worker, row, attempt.deliveryId, AttemptOutcome(attempt.ending), attempt.at));
    }
  }

  /** An answer once given stays on record. */
  lemma {:induction false} AnswersGrow(before: seq<Step>, after: seq<Step>, answer: Answer)
    requires before <= after && Run(before).Some? && Run(after).Some? && answer in Run(before).value.answers
    ensures answer in Run(after).value.answers
  {
    if |before| < |after| {
      var front := after[..|after| - 1];
      AnswersGrow(before, front, answer);
      assert Run(after).value == Apply(Run(front).value, after[|after| - 1]);
    } else {
      assert before == after;
    }
  }

  /** Two checks answered at any moments of one run, however far apart, agree on their pair. */
  lemma AnswersAgree(first: seq<Step>, later: seq<Step>, a: Answer, b: Answer)
    requires first <= later && Run(first).Some? && Run(later).Some? && SamePair(a, b)
    requires a in Run(first).value.answers && b in Run(later).value.answers
    ensures a.requestId == b.requestId && a.decision == b.decision
  {
    AnswersGrow(first, later, a);
    ChecksAreIdempotent(Run(later).value);
    var s := Run(later).value;
    var i :| 0 <= i < |s.answers| && s.answers[i] == a;
    var j :| 0 <= j < |s.answers| && s.answers[j] == b;
  }
}
