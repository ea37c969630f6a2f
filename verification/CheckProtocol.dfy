/** Checks, reviews and final-decision notifications of any number of workers, interleaved step by step
    over the moderation tables. */
module CheckProtocol {
  import opened Results
  import opened ModerationTypes
  import opened Deliveries
  import opened IdempotencyKey
  import opened ModerationStore

  datatype Input = Input(userId: nat, clientId: nat, externalId: string)

  /** A check's progress, or a final decision still to be sent. */
  datatype Phase =
    | Idle
    | Analyzing(input: Input)
    | Decided(input: Input, requestId: string, decision: Decision)
    | Conflicted(input: Input)
    | Notifying(request: Request, result: ResultRow, reviewStatus: Option<ReviewStatus>, finalDecision: Option<Decision>)

  /** What a check returned. */
  datatype Answer =
    | Answered(input: Input, requestId: string, decision: Decision)
    | Refused(input: Input)

  datatype World = World(db: Db, phases: map<nat, Phase>, answers: seq<Answer>, minted: set<string>)

  datatype Step =
    | Begin(worker: nat, input: Input)
    | Decide(worker: nat, requestId: string, decision: Decision)
    | Save(worker: nat)
    | FindAgain(worker: nat)
    | Finalize(worker: nat, id: nat, reviewer: nat, status: ReviewStatus, decision: Decision, notes: string, at: int)
    | Notify(worker: nat, deliveryRow: nat, deliveryId: string, outcome: Outcome, at: int)
    | ClaimDelivery(deliveryRow: nat, maxAttempts: int, at: int)
    | SaveOutcome(deliveryRow: nat, outcome: Outcome, at: int)
    | Abandon(worker: nat)

  const START := World(EMPTY_DB, map[], [], {})

  function PhaseOf(s: World, worker: nat): Phase {
    if worker in s.phases then s.phases[worker] else Idle
  }

  function SetPhase(s: World, worker: nat, phase: Phase): World {
    s.(phases := s.phases[worker := phase])
  }

  predicate Keyed(input: Input) {
    input.clientId != 0 && input.externalId != ""
  }

  function OptionalId(id: nat): Option<nat> {
    if id == 0 then None else Some(id)
  }

  function RequestOf(input: Input, requestId: string): Request {
    Request(requestId, input.userId, OptionalId(input.clientId), input.externalId,
            Key(input.clientId, input.externalId))
  }

  function AnswerFrom(input: Input, stored: Stored): Answer {
    Answered(input, stored.result.requestId, stored.result.decision)
  }

  /** The body of the callback; an empty final decision falls back to the stored policy decision. */
  function FinalPayload(
    request: Request, result: ResultRow, reviewStatus: Option<ReviewStatus>, finalDecision: Option<Decision>): Payload
    requires request.clientId.Some?
  {
    Payload(request.requestId, request.clientId.value, request.externalId,
            if finalDecision.Some? then finalDecision.value else result.decision, reviewStatus)
  }

  /** Approve allows, reject blocks, and a mistake may be either. */
  predicate ReviewAction(status: ReviewStatus, decision: Decision) {
    || (status == Approved && decision == Allow)
    || (status == Rejected && decision == Block)
    || (status == Mistake && decision != Review)
  }

  predicate Enabled(s: World, step: Step) {
    match step
    case Begin(w, _) => PhaseOf(s, w).Idle?
    case Decide(w, requestId, _) => PhaseOf(s, w).Analyzing? && requestId !in s.minted
    case Save(w) => PhaseOf(s, w).Decided?
    case FindAgain(w) => PhaseOf(s, w).Conflicted?
    case Finalize(w, _, _, status, decision, _, _) => PhaseOf(s, w).Idle? && ReviewAction(status, decision)
    case Notify(w, row, _, outcome, _) =>
      PhaseOf(s, w).Notifying? && PhaseOf(s, w).request.clientId.Some?
      && row !in s.db.deliveries && outcome.status != Retrying
    case ClaimDelivery(row, maxAttempts, at) =>
      row in s.db.deliveries && Claimable(s.db.deliveries[row], maxAttempts, at)
    case SaveOutcome(row, outcome, _) => row in s.db.deliveries && outcome.status != Retrying
    case Abandon(_) => true
  }

  /** A saved check is answered and, when its decision is final, announced; a conflict sends a keyed check to look
      again. */
  function AfterSave(s: World, worker: nat): World
    requires PhaseOf(s, worker).Decided?
  {
    var p := PhaseOf(s, worker);
    var request := RequestOf(p.input, p.requestId);
    match SaveCheck(s.db, request, p.decision)
    case Ok(db) =>
      var next := if p.decision == Review then Idle else Notifying(request, db.results[|db.results| - 1], None, None);
      SetPhase(s, worker, next).(db := db, answers := s.answers + [Answered(p.input, p.requestId, p.decision)])
    case Err(_) =>
      if Key(p.input.clientId, p.input.externalId).Some? then SetPhase(s, worker, Conflicted(p.input))
      else SetPhase(s, worker, Idle).(answers := s.answers + [Refused(p.input)])
  }

  /** A finalization that does not find its request and result is rolled back. */
  function AfterFinalize(
    s: World, worker: nat, id: nat, reviewer: nat, status: ReviewStatus, decision: Decision, notes: string, at: int): World
  {
    match FinalizeCase(s.db, id, reviewer, status, decision, notes, at)
    case Err(_) => s
    case Ok(db) =>
      var c := db.cases[id - 1];
      var i := RequestIndex(db.requests, c.requestId);
      var j := ResultIndex(db.results, c.userId, c.requestId);
      if i < 0 || j < 0 then s
      else SetPhase(s, worker, Notifying(db.requests[i], db.results[j], Some(status), Some(decision))).(db := db)
  }

  function AfterNotify(s: World, worker: nat, row: nat, deliveryId: string, outcome: Outcome, at: int): World
    requires PhaseOf(s, worker).Notifying? && PhaseOf(s, worker).request.clientId.Some?
  {
    var p := PhaseOf(s, worker);
    var payload := FinalPayload(p.request, p.result, p.reviewStatus, p.finalDecision);
    var delivery := Delivery(deliveryId, p.request.requestId, p.request.clientId.value, payload, outcome.status, 1, at,
                             outcome.httpStatus, outcome.errorMessage);
    SetPhase(s, worker, Idle).(db := s.db.(deliveries := s.db.deliveries[row := delivery]))
  }

  function Apply(s: World, step: Step): World
    requires Enabled(s, step)
  {
    match step
    case Begin(w, input) =>
      var found := if Keyed(input) then FindByPair(s.db, input.clientId, input.externalId) else None;
      if found.Some? then s.(answers := s.answers + [AnswerFrom(input, found.value)])
      else SetPhase(s, w, Analyzing(input))
    case Decide(w, requestId, decision) =>
      SetPhase(s, w, Decided(PhaseOf(s, w).input, requestId, decision)).(minted := s.minted + {requestId})
    case Save(w) => AfterSave(s, w)
    case FindAgain(w) =>
      var input := PhaseOf(s, w).input;
      var found := FindByPair(s.db, input.clientId, input.externalId);
      SetPhase(s, w, Idle)
      .(answers := s.answers + [if found.Some? then AnswerFrom(input, found.value) else Refused(input)])
    case Finalize(w, id, reviewer, status, decision, notes, at) =>
      AfterFinalize(s, w, id, reviewer, status, decision, notes, at)
    case Notify(w, row, deliveryId, outcome, at) => AfterNotify(s, w, row, deliveryId, outcome, at)
    case ClaimDelivery(row, _, at) =>
      s.(db := s.db.(deliveries := s.db.deliveries[row := ClaimRow(s.db.deliveries[row], at)]))
    case SaveOutcome(row, outcome, at) =>
      s.(db := s.db.(deliveries := s.db.deliveries[row := OutcomeRow(s.db.deliveries[row], outcome, at)]))
    case Abandon(w) => SetPhase(s, w, Idle)
  }

  function RequestIndex(requests: seq<Request>, requestId: string): (i: int)
    ensures -1 <= i < |requests|
    ensures i >= 0 ==> requests[i].requestId == requestId
    ensures i < 0 ==> forall k :: 0 <= k < |requests| ==> requests[k].requestId != requestId
  {
    if requests == [] then -1
    else if requests[|requests| - 1].requestId == requestId then |requests| - 1
    else RequestIndex(requests[..|requests| - 1], requestId)
  }

  function Run(steps: seq<Step>): Option<World> {
    if steps == [] then Some(START)
    else
      var before := Run(steps[..|steps| - 1]);
      var step := steps[|steps| - 1];
      if before.Some? && Enabled(before.value, step) then Some(Apply(before.value, step)) else None
  }

  ghost predicate Reachable(s: World) {
    exists steps :: Run(steps) == Some(s)
  }

  lemma {:induction false} ReachByStep(s: World, step: Step)
    requires Reachable(s) && Enabled(s, step)
    ensures Reachable(Apply(s, step))
  {
    var steps :| Run(steps) == Some(s);
    assert (steps + [step])[..|steps|] == steps;
    assert Run(steps + [step]) == Some(Apply(s, step));
  }

  // ---------- The tables stay consistent ----------

  predicate RowMatches(request: Request, result: ResultRow) {
    result.requestId == request.requestId && result.userId == request.userId && result.clientId == request.clientId
  }

  predicate CaseSound(c: ReviewCase) {
    if c.status == Pending then c.finalDecision == None && c.reviewedAt == None
    else c.finalDecision.Some? && ReviewAction(c.status, c.finalDecision.value) && c.reviewedAt.Some?
  }

  /** One result per request, and unique request ids. */
  ghost predicate TablesSound(requests: seq<Request>, results: seq<ResultRow>) {
    && |results| == |requests|
    && (forall i :: 0 <= i < |requests| ==> RowMatches(requests[i], results[i]))
    && (forall i, j :: 0 <= i < j < |requests| ==> requests[i].requestId != requests[j].requestId)
  }

  predicate WellKeyed(request: Request) {
    && request.clientId != Some(0)
    && request.key == Key(if request.clientId.Some? then request.clientId.value else 0, request.externalId)
  }

  /** Every key is the key of its row's pair, and no key occurs twice. */
  ghost predicate KeysSound(requests: seq<Request>) {
    && (forall i :: 0 <= i < |requests| ==> WellKeyed(requests[i]))
    && (forall i, j :: 0 <= i < j < |requests| && requests[i].key.Some? ==> requests[i].key != requests[j].key)
  }

  ghost predicate HasCase(cases: seq<ReviewCase>, requestId: string) {
    exists c :: 0 <= c < |cases| && cases[c].requestId == requestId
  }

  ghost predicate HasReviewResult(results: seq<ResultRow>, c: ReviewCase) {
    exists i :: 0 <= i < |results| && results[i].requestId == c.requestId && results[i].userId == c.userId
                && results[i].clientId == c.clientId && results[i].decision == Review
  }

  /** Exactly one sound case for each review result, and none for any other. */
  ghost predicate CasesSound(results: seq<ResultRow>, cases: seq<ReviewCase>) {
    && (forall c :: 0 <= c < |cases| ==> CaseSound(cases[c]))
    && (forall c :: 0 <= c < |cases| ==> HasReviewResult(results, cases[c]))
    && (forall c, d :: 0 <= c < d < |cases| ==> cases[c].requestId != cases[d].requestId)
    && (forall i :: 0 <= i < |results| && results[i].decision == Review ==>
          HasCase(cases, results[i].requestId))
    && ResultsDecided(results, Review) == |cases|
  }

  ghost predicate DbSound(db: Db) {
    TablesSound(db.requests, db.results) && KeysSound(db.requests) && CasesSound(db.results, db.cases)
  }

  lemma InsertKeepsKeys(requests: seq<Request>, request: Request)
    requires KeysSound(requests) && WellKeyed(request) && !KeyTaken(requests, request.key)
    ensures KeysSound(requests + [request])
  {
    forall i | 0 <= i < |requests| && requests[i].key.Some?
      ensures requests[i].key != request.key
    {
    }
  }

  lemma HasMoreResults(results: seq<ResultRow>, row: ResultRow, c: ReviewCase)
    requires HasReviewResult(results, c)
    ensures HasReviewResult(results + [row], c)
  {
    var i :| 0 <= i < |results| && results[i].requestId == c.requestId && results[i].userId == c.userId
             && results[i].clientId == c.clientId && results[i].decision == Review;
    assert (results + [row])[i] == results[i];
  }

  lemma HasMoreCases(cases: seq<ReviewCase>, c: ReviewCase, requestId: string)
    requires HasCase(cases, requestId)
    ensures HasCase(cases + [c], requestId)
  {
    var k :| 0 <= k < |cases| && cases[k].requestId == requestId;
    assert (cases + [c])[k] == cases[k];
  }

  /** A result that needs no review adds no case. */
  lemma PlainResultKeepsCases(results: seq<ResultRow>, cases: seq<ReviewCase>, row: ResultRow)
    requires CasesSound(results, cases) && row.decision != Review
    ensures CasesSound(results + [row], cases)
  {
    assert (results + [row])[..|results|] == results;
    forall c | 0 <= c < |cases|
      ensures HasReviewResult(results + [row], cases[c])
    {
      HasMoreResults(results, row, cases[c]);
    }
  }

  /** A review result brings its own case. */
  lemma ReviewResultAddsCase(results: seq<ResultRow>, cases: seq<ReviewCase>, row: ResultRow, added: ReviewCase)
    requires CasesSound(results, cases) && row.decision == Review && CaseSound(added)
    requires added.requestId == row.requestId && added.userId == row.userId && added.clientId == row.clientId
    requires forall i :: 0 <= i < |results| ==> results[i].requestId != row.requestId
    ensures CasesSound(results + [row], cases + [added])
  {
    assert (results + [row])[..|results|] == results && (results + [row])[|results|] == row;
    forall c | 0 <= c < |cases|
      ensures HasReviewResult(results + [row], cases[c]) && cases[c].requestId != added.requestId
    {
      HasMoreResults(results, row, cases[c]);
      assert HasReviewResult(results, cases[c]);
    }
    forall i | 0 <= i < |results| && results[i].decision == Review
      ensures HasCase(cases + [added], results[i].requestId)
    {
      HasMoreCases(cases, added, results[i].requestId);
    }
    assert (cases + [added])[|cases|].requestId == row.requestId;
  }

  lemma InsertKeepsCases(db: Db, request: Request, decision: Decision)
    requires TablesSound(db.requests, db.results) && CasesSound(db.results, db.cases)
    requires !IdTaken(db.requests, request.requestId)
    ensures CasesSound(Inserted(db, request, decision).results, Inserted(db, request, decision).cases)
  {
    var after := Inserted(db, request, decision);
    var row := after.results[|db.results|];
    if decision == Review {
      forall i | 0 <= i < |db.results|
        ensures db.results[i].requestId != request.requestId
      {
        assert RowMatches(db.requests[i], db.results[i]);
      }
      ReviewResultAddsCase(db.results, db.cases, row, after.cases[|db.cases|]);
    } else {
      PlainResultKeepsCases(db.results, db.cases, row);
    }
  }

  lemma FinalizeKeepsCases(results: seq<ResultRow>, cases: seq<ReviewCase>, k: nat, after: ReviewCase)
    requires CasesSound(results, cases) && k < |cases| && CaseSound(after)
    requires after.requestId == cases[k].requestId && after.userId == cases[k].userId
    requires after.clientId == cases[k].clientId
    ensures CasesSound(results, cases[k := after])
  {
    assert HasReviewResult(results, cases[k]);
    assert HasReviewResult(results, after);
    forall i | 0 <= i < |results| && results[i].decision == Review
      ensures HasCase(cases[k := after], results[i].requestId)
    {
      assert HasCase(cases, results[i].requestId);
      var c :| 0 <= c < |cases| && cases[c].requestId == results[i].requestId;
      assert cases[k := after][c].requestId == cases[c].requestId;
    }
  }

  /** Request ids in flight are minted, and nobody else has or stored them. */
  ghost predicate IdsFresh(s: World) {
    && (forall i :: 0 <= i < |s.db.requests| ==> s.db.requests[i].requestId in s.minted)
    && (forall w :: PhaseOf(s, w).Decided? ==> PhaseOf(s, w).requestId in s.minted)
    && (forall v, w :: v != w && PhaseOf(s, v).Decided? && PhaseOf(s, w).Decided? ==>
          PhaseOf(s, v).requestId != PhaseOf(s, w).requestId)
    && (forall w :: PhaseOf(s, w).Decided? ==> !IdTaken(s.db.requests, PhaseOf(s, w).requestId))
  }

  ghost predicate Consistent(s: World) {
    DbSound(s.db) && IdsFresh(s)
  }

  lemma IdsFreshStep(s: World, step: Step)
    requires IdsFresh(s) && Enabled(s, step)
    ensures IdsFresh(Apply(s, step))
  {
    var t := Apply(s, step);
    forall w | PhaseOf(t, w).Decided?
      ensures PhaseOf(t, w) == PhaseOf(s, w) || (step.Decide? && step.worker == w && PhaseOf(t, w).requestId == step.requestId)
      ensures PhaseOf(t, w).requestId in t.minted && !IdTaken(t.db.requests, PhaseOf(t, w).requestId)
    {
      if PhaseOf(s, w).Decided? {
        assert !IdTaken(s.db.requests, PhaseOf(s, w).requestId);
      }
    }
  }

  lemma InsertKeepsDb(db: Db, request: Request, decision: Decision)
    requires DbSound(db) && WellKeyed(request) && SaveCheck(db, request, decision).Ok?
    ensures DbSound(Inserted(db, request, decision))
  {
    InsertKeepsKeys(db.requests, request);
    InsertKeepsCases(db, request, decision);
  }

  lemma FinalizeKeepsDb(
    db: Db, id: nat, reviewer: nat, status: ReviewStatus, decision: Decision, notes: string, at: int)
    requires DbSound(db) && ReviewAction(status, decision)
    requires FinalizeCase(db, id, reviewer, status, decision, notes, at).Ok?
    ensures DbSound(FinalizeCase(db, id, reviewer, status, decision, notes, at).value)
  {
    FinalizeKeepsCases(db.results, db.cases, id - 1,
                       FinalizedCase(db.cases[id - 1], reviewer, status, decision, notes, at));
  }

  lemma DbSoundStep(s: World, step: Step)
    requires DbSound(s.db) && Enabled(s, step)
    ensures DbSound(Apply(s, step).db)
  {
    match step
    case Save(w) =>
      var p := PhaseOf(s, w);
      if SaveCheck(s.db, RequestOf(p.input, p.requestId), p.decision).Ok? {
        InsertKeepsDb(s.db, RequestOf(p.input, p.requestId), p.decision);
      }
    case Finalize(_, id, reviewer, status, decision, notes, at) =>
      if FinalizeCase(s.db, id, reviewer, status, decision, notes, at).Ok? {
        FinalizeKeepsDb(s.db, id, reviewer, status, decision, notes, at);
      }
    case _ =>
  }

  // ---------- Idempotent checks ----------

  /** The request row of a (client, external id) pair. */
  predicate IsRowOf(requests: seq<Request>, i: int, clientId: nat, externalId: string) {
    0 <= i < |requests| && requests[i].clientId == Some(clientId) && requests[i].externalId == externalId
  }

  lemma OneRowPerPair(requests: seq<Request>, i: int, j: int, clientId: nat, externalId: string)
    requires KeysSound(requests) && clientId != 0 && externalId != ""
    requires IsRowOf(requests, i, clientId, externalId) && IsRowOf(requests, j, clientId, externalId)
    ensures i == j
  {
    assert WellKeyed(requests[i]) && WellKeyed(requests[j]);
  }

  /** The lookup finds the pair's row and its own result whenever the row exists. */
  lemma {:induction false} FindIsComplete(db: Db, i: int, clientId: nat, externalId: string)
    requires TablesSound(db.requests, db.results) && KeysSound(db.requests) && clientId != 0 && externalId != ""
    requires IsRowOf(db.requests, i, clientId, externalId)
    ensures FindByPair(db, clientId, externalId).Some?
    ensures FindByPair(db, clientId, externalId).value.request == db.requests[i]
    ensures FindByPair(db, clientId, externalId).value.result == db.results[i]
  {
    var k := PairIndex(db.requests, clientId, externalId);
    OneRowPerPair(db.requests, i, k, clientId, externalId);
    assert RowMatches(db.requests[i], db.results[i]);
    var j := ResultIndex(db.results, db.requests[i].userId, db.requests[i].requestId);
    assert RowMatches(db.requests[j], db.results[j]);
  }

  /** The lookup brings the request's own review case exactly when the policy asked for review. */
  lemma {:induction false} FindBringsTheCase(db: Db, clientId: nat, externalId: string)
    requires DbSound(db) && FindByPair(db, clientId, externalId).Some?
    ensures var found := FindByPair(db, clientId, externalId).value;
            && found.request in db.requests && found.result in db.results && found.result.requestId == found.request.requestId
            && (found.reviewCase.Some? <==> found.result.decision == Review)
            && (found.reviewCase.Some? ==>
                  found.reviewCase.value in db.cases && found.reviewCase.value.requestId == found.request.requestId)
  {
    var i := PairIndex(db.requests, clientId, externalId);
    var request := db.requests[i];
    var j := ResultIndex(db.results, request.userId, request.requestId);
    assert RowMatches(db.requests[j], db.results[j]);
    if db.results[j].decision == Review {
      assert HasCase(db.cases, request.requestId);
      var c :| 0 <= c < |db.cases| && db.cases[c].requestId == request.requestId;
      CaseOfItsRequest(db, i, c);
    }
    var k := CaseIndex(db.cases, request);
    if k >= 0 {
      CaseOfItsRequest(db, i, k);
    }
  }

  lemma {:induction false} CaseOfItsRequest(db: Db, i: nat, c: nat)
    requires DbSound(db) && i < |db.requests| && c < |db.cases| && db.cases[c].requestId == db.requests[i].requestId
    ensures IsCaseOf(db.cases[c], db.requests[i]) && db.results[i].decision == Review
  {
    assert HasReviewResult(db.results, db.cases[c]);
    var r :| 0 <= r < |db.results| && db.results[r].requestId == db.cases[c].requestId
             && db.results[r].userId == db.cases[c].userId && db.results[r].clientId == db.cases[c].clientId
             && db.results[r].decision == Review;
    assert RowMatches(db.requests[r], db.results[r]) && RowMatches(db.requests[i], db.results[i]);
  }

  /** A duplicate key means the very same pair, because the key is injective. */
  lemma {:induction false} ConflictMeansSamePair(s: World, worker: nat)
    requires Consistent(s) && PhaseOf(s, worker).Decided?
    requires SaveCheck(s.db, RequestOf(PhaseOf(s, worker).input, PhaseOf(s, worker).requestId),
                       PhaseOf(s, worker).decision).Err?
    ensures Keyed(PhaseOf(s, worker).input)
    ensures PairIndex(s.db.requests, PhaseOf(s, worker).input.clientId, PhaseOf(s, worker).input.externalId) >= 0
  {
    var p := PhaseOf(s, worker);
    var request := RequestOf(p.input, p.requestId);
    assert !IdTaken(s.db.requests, request.requestId);
    var i :| 0 <= i < |s.db.requests| && s.db.requests[i].key == request.key;
    assert WellKeyed(s.db.requests[i]);
    KeyInjective(s.db.requests[i].clientId.value, s.db.requests[i].externalId, p.input.clientId, p.input.externalId);
  }

  /** A keyed answer is the pair's stored request and decision. */
  predicate AnswerBacked(requests: seq<Request>, results: seq<ResultRow>, answer: Answer) {
    match answer
    case Refused(_) => false
    case Answered(input, requestId, decision) =>
      Keyed(input) ==>
        var i := PairIndex(requests, input.clientId, input.externalId);
        0 <= i < |results| && results[i].requestId == requestId && results[i].decision == decision
  }

  /** A worker sent back by a conflict has a row to find. */
  predicate ConflictBacked(requests: seq<Request>, p: Phase) {
    p.Conflicted? ==> Keyed(p.input) && PairIndex(requests, p.input.clientId, p.input.externalId) >= 0
  }

  ghost predicate AnswersBacked(s: World) {
    && (forall a :: 0 <= a < |s.answers| ==> AnswerBacked(s.db.requests, s.db.results, s.answers[a]))
    && (forall w :: ConflictBacked(s.db.requests, PhaseOf(s, w)))
  }

  lemma PairIndexStays(db: Db, request: Request, decision: Decision, clientId: nat, externalId: string)
    requires KeysSound(Inserted(db, request, decision).requests)
    requires clientId != 0 && externalId != "" && PairIndex(db.requests, clientId, externalId) >= 0
    ensures PairIndex(Inserted(db, request, decision).requests, clientId, externalId)
            == PairIndex(db.requests, clientId, externalId)
  {
    var after := Inserted(db, request, decision);
    OneRowPerPair(after.requests, PairIndex(db.requests, clientId, externalId),
                  PairIndex(after.requests, clientId, externalId), clientId, externalId);
  }

  lemma BackedStays(db: Db, request: Request, decision: Decision, answer: Answer)
    requires TablesSound(db.requests, db.results)
    requires KeysSound(Inserted(db, request, decision).requests)
    requires AnswerBacked(db.requests, db.results, answer)
    ensures AnswerBacked(Inserted(db, request, decision).requests, Inserted(db, request, decision).results, answer)
  {
    if Keyed(answer.input) {
      PairIndexStays(db, request, decision, answer.input.clientId, answer.input.externalId);
    }
  }

  lemma FoundIsBacked(db: Db, input: Input)
    requires TablesSound(db.requests, db.results) && KeysSound(db.requests) && Keyed(input)
    ensures PairIndex(db.requests, input.clientId, input.externalId) >= 0 <==>
            FindByPair(db, input.clientId, input.externalId).Some?
    ensures FindByPair(db, input.clientId, input.externalId).Some? ==>
              AnswerBacked(db.requests, db.results,
                           AnswerFrom(input, FindByPair(db, input.clientId, input.externalId).value))
  {
    var i := PairIndex(db.requests, input.clientId, input.externalId);
    if i >= 0 {
      FindIsComplete(db, i, input.clientId, input.externalId);
    }
  }

  lemma SavedIsBacked(db: Db, input: Input, requestId: string, decision: Decision)
    requires KeysSound(Inserted(db, RequestOf(input, requestId), decision).requests)
    requires |db.results| == |db.requests|
    ensures AnswerBacked(Inserted(db, RequestOf(input, requestId), decision).requests,
                         Inserted(db, RequestOf(input, requestId), decision).results,
                         Answered(input, requestId, decision))
  {
    var after := Inserted(db, RequestOf(input, requestId), decision);
    if Keyed(input) {
      assert IsRowOf(after.requests, |db.requests|, input.clientId, input.externalId);
      OneRowPerPair(after.requests, |db.requests|,
                    PairIndex(after.requests, input.clientId, input.externalId), input.clientId, input.externalId);
    }
  }

  lemma SaveKeepsAnswers(s: World, worker: nat)
    requires Consistent(s) && AnswersBacked(s) && Enabled(s, Save(worker))
    ensures AnswersBacked(Apply(s, Save(worker)))
  {
    var p := PhaseOf(s, worker);
    var request := RequestOf(p.input, p.requestId);
    var t := Apply(s, Save(worker));
    if SaveCheck(s.db, request, p.decision).Ok? {
      InsertKeepsKeys(s.db.requests, request);
      SavedIsBacked(s.db, p.input, p.requestId, p.decision);
      forall a | 0 <= a < |s.answers|
        ensures AnswerBacked(t.db.requests, t.db.results, s.answers[a])
      {
        BackedStays(s.db, request, p.decision, s.answers[a]);
      }
      forall w
        ensures ConflictBacked(t.db.requests, PhaseOf(t, w))
      {
        assert ConflictBacked(s.db.requests, PhaseOf(s, w));
        if PhaseOf(t, w).Conflicted? {
          PairIndexStays(s.db, request, p.decision, PhaseOf(s, w).input.clientId, PhaseOf(s, w).input.externalId);
        }
      }
    } else {
      ConflictMeansSamePair(s, worker);
      forall w
        ensures ConflictBacked(t.db.requests, PhaseOf(t, w))
      {
        assert ConflictBacked(s.db.requests, PhaseOf(s, w));
      }
    }
  }

  /** Steps that store no request and give no answer. */
  lemma {:induction false} QuietStepKeepsAnswers(s: World, t: World)
    requires AnswersBacked(s) && t.answers == s.answers
    requires t.db.requests == s.db.requests && t.db.results == s.db.results
    requires forall w :: PhaseOf(t, w).Conflicted? ==> PhaseOf(t, w) == PhaseOf(s, w)
    ensures AnswersBacked(t)
  {
    forall w
      ensures ConflictBacked(t.db.requests, PhaseOf(t, w))
    {
      assert ConflictBacked(s.db.requests, PhaseOf(s, w));
    }
  }

  lemma {:induction false} BeginKeepsAnswers(s: World, step: Step)
    requires Consistent(s) && AnswersBacked(s) && Enabled(s, step) && step.Begin?
    ensures AnswersBacked(Apply(s, step))
  {
    var t := Apply(s, step);
    if Keyed(step.input) {
      FoundIsBacked(s.db, step.input);
    }
    forall w
      ensures ConflictBacked(t.db.requests, PhaseOf(t, w))
    {
      assert ConflictBacked(s.db.requests, PhaseOf(s, w));
    }
  }

  lemma {:induction false} FindAgainKeepsAnswers(s: World, worker: nat)
    requires Consistent(s) && AnswersBacked(s) && Enabled(s, FindAgain(worker))
    ensures AnswersBacked(Apply(s, FindAgain(worker)))
  {
    var t := Apply(s, FindAgain(worker));
    assert ConflictBacked(s.db.requests, PhaseOf(s, worker));
    FoundIsBacked(s.db, PhaseOf(s, worker).input);
    forall w
      ensures ConflictBacked(t.db.requests, PhaseOf(t, w))
    {
      assert ConflictBacked(s.db.requests, PhaseOf(s, w));
    }
  }

  lemma {:induction false} AnswersBackedStep(s: World, step: Step)
    requires Consistent(s) && AnswersBacked(s) && Enabled(s, step)
    ensures AnswersBacked(Apply(s, step))
  {
    match step
    case Begin(_, _) => BeginKeepsAnswers(s, step);
    case Save(w) => SaveKeepsAnswers(s, w);
    case FindAgain(w) => FindAgainKeepsAnswers(s, w);
    case _ => QuietStepKeepsAnswers(s, Apply(s, step));
  }

  lemma {:induction false} RunKeepsAnswers(steps: seq<Step>)
    requires Run(steps).Some?
    ensures Consistent(Run(steps).value) && AnswersBacked(Run(steps).value)
  {
    if steps != [] {
      var before := steps[..|steps| - 1];
      RunKeepsAnswers(before);
      DbSoundStep(Run(before).value, steps[|steps| - 1]);
      IdsFreshStep(Run(before).value, steps[|steps| - 1]);
      AnswersBackedStep(Run(before).value, steps[|steps| - 1]);
    }
  }

  /** A repeated check is answered at once from the stored row, without another decision; any other check is analyzed. */
  lemma {:induction false} RepeatIsAnsweredAtOnce(s: World, worker: nat, input: Input)
    requires Reachable(s) && PhaseOf(s, worker).Idle?
    ensures Enabled(s, Begin(worker, input))
    ensures var t, keyed := Apply(s, Begin(worker, input)), input.clientId != 0 && input.externalId != "";
            && t.db == s.db
            && (forall i :: keyed && IsRowOf(s.db.requests, i, input.clientId, input.externalId) ==>
                  && PhaseOf(t, worker).Idle? && i < |s.db.results|
                  && t.answers == s.answers + [Answered(input, s.db.requests[i].requestId, s.db.results[i].decision)])
            && ((!keyed || forall i :: !IsRowOf(s.db.requests, i, input.clientId, input.externalId)) ==>
                  PhaseOf(t, worker) == Analyzing(input) && t.answers == s.answers)
  {
    var steps :| Run(steps) == Some(s);
    RunKeepsAnswers(steps);
    forall i | Keyed(input) && IsRowOf(s.db.requests, i, input.clientId, input.externalId)
      ensures FindByPair(s.db, input.clientId, input.externalId).Some?
      ensures FindByPair(s.db, input.clientId, input.externalId).value.request == s.db.requests[i]
      ensures FindByPair(s.db, input.clientId, input.externalId).value.result == s.db.results[i]
    {
      FindIsComplete(s.db, i, input.clientId, input.externalId);
      assert RowMatches(s.db.requests[i], s.db.results[i]);
    }
    FoundHasARow(s.db, input);
  }

  lemma {:induction false} FoundHasARow(db: Db, input: Input)
    ensures FindByPair(db, input.clientId, input.externalId).Some? ==>
              IsRowOf(db.requests, PairIndex(db.requests, input.clientId, input.externalId), input.clientId, input.externalId)
  {
  }

  predicate SamePair(a: Answer, b: Answer) {
    && a.Answered? && b.Answered? && Keyed(a.input)
    && a.input.clientId == b.input.clientId && a.input.externalId == b.input.externalId
  }

  /** However checks interleave: one request row per (client, external id), every answer given for a pair
      names the same request and decision, and no check ends in a conflict. */
  lemma {:induction false} ChecksAreIdempotent(s: World)
    requires Reachable(s)
    ensures forall i, j, c, x :: c != 0 && x != "" && IsRowOf(s.db.requests, i, c, x) && IsRowOf(s.db.requests, j, c, x) ==> i == j
    ensures forall a :: 0 <= a < |s.answers| ==> s.answers[a].Answered?
    ensures forall a, b :: 0 <= a < |s.answers| && 0 <= b < |s.answers| && SamePair(s.answers[a], s.answers[b]) ==>
              s.answers[a].requestId == s.answers[b].requestId && s.answers[a].decision == s.answers[b].decision
  {
    var steps :| Run(steps) == Some(s);
    RunKeepsAnswers(steps);
    forall i, j, c, x | c != 0 && x != "" && IsRowOf(s.db.requests, i, c, x) && IsRowOf(s.db.requests, j, c, x)
      ensures i == j
    {
      OneRowPerPair(s.db.requests, i, j, c, x);
    }
  }
}
