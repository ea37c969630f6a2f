/** Final-decision callbacks over whole runs: at most one delivery per request, never while its review is
    pending, and always carrying the decision that finally stands. */
module Notifications {
  import opened Results
  import opened ModerationTypes
  import opened Deliveries
  import opened ModerationStore
  import opened CheckProtocol

  function CaseOf(cases: seq<ReviewCase>, requestId: string): (c: int)
    ensures -1 <= c < |cases|
    ensures c >= 0 ==> cases[c].requestId == requestId
    ensures c < 0 ==> forall k :: 0 <= k < |cases| ==> cases[k].requestId != requestId
  {
    if cases == [] then -1
    else if cases[|cases| - 1].requestId == requestId then |cases| - 1
    else CaseOf(cases[..|cases| - 1], requestId)
  }

  /** A decision, with the review it came out of, if any. */
  datatype Verdict = Verdict(decision: Decision, reviewStatus: Option<ReviewStatus>)

  /** The verdict that stands: the policy's, or the human one when the policy asked for review. */
  function Standing(db: Db, requestId: string): Option<Verdict> {
    var i := RequestIndex(db.requests, requestId);
    if i < 0 || i >= |db.results| then None
    else if db.results[i].decision != Review then Some(Verdict(db.results[i].decision, None))
    else
      var c := CaseOf(db.cases, requestId);
      if c < 0 || db.cases[c].finalDecision == None then None
      else Some(Verdict(db.cases[c].finalDecision.value, Some(db.cases[c].status)))
  }

  function StoredRequest(requests: seq<Request>, requestId: string): Option<Request> {
    var i := RequestIndex(requests, requestId);
    if i < 0 then None else Some(requests[i])
  }

  function Announced(p: Phase): Verdict
    requires p.Notifying?
  {
    Verdict(if p.finalDecision.Some? then p.finalDecision.value else p.result.decision, p.reviewStatus)
  }

  /** The message names its request's client and external id and tells the standing verdict. */
  predicate Faithfully(db: Db, m: Payload) {
    && Standing(db, m.requestId) == Some(Verdict(m.decision, m.reviewStatus)) && m.decision != Review
    && var request := StoredRequest(db.requests, m.requestId);
       request.Some? && request.value.clientId == Some(m.clientId) && request.value.externalId == m.externalId
  }

  predicate DeliveryFaithful(db: Db, d: Delivery) {
    d.payload.requestId == d.requestId && d.payload.clientId == d.clientId && Faithfully(db, d.payload)
  }

  predicate NotifierFaithful(db: Db, p: Phase) {
    p.Notifying? ==>
      && Standing(db, p.request.requestId) == Some(Announced(p)) && Announced(p).decision != Review
      && StoredRequest(db.requests, p.request.requestId) == Some(p.request)
  }

  /** What a notifier sends is as faithful as what it knows. */
  lemma {:induction false} NotifierSends(db: Db, p: Phase)
    requires NotifierFaithful(db, p) && p.Notifying? && p.request.clientId.Some?
    ensures Faithfully(db, FinalPayload(p.request, p.result, p.reviewStatus, p.finalDecision))
  {
  }

  predicate Notifies(p: Phase, requestId: string) {
    p.Notifying? && p.request.requestId == requestId
  }

  ghost predicate Faithful(s: World) {
    && (forall row :: row in s.db.deliveries ==> DeliveryFaithful(s.db, s.db.deliveries[row]))
    && (forall w :: NotifierFaithful(s.db, PhaseOf(s, w)))
  }

  /** Each request has at most one delivery or one worker about to create it. */
  ghost predicate NotifiedOnce(s: World) {
    && (forall a, b :: a in s.db.deliveries && b in s.db.deliveries && a != b ==>
          s.db.deliveries[a].requestId != s.db.deliveries[b].requestId)
    && (forall w, row :: PhaseOf(s, w).Notifying? && row in s.db.deliveries ==>
          PhaseOf(s, w).request.requestId != s.db.deliveries[row].requestId)
    && (forall v, w :: v != w && PhaseOf(s, v).Notifying? && PhaseOf(s, w).Notifying? ==>
          PhaseOf(s, v).request.requestId != PhaseOf(s, w).request.requestId)
  }

  // ---------- The standing decision only appears, never changes ----------

  lemma StandingAfterInsert(db: Db, request: Request, decision: Decision, requestId: string)
    requires |db.requests| == |db.results| && !IdTaken(db.requests, request.requestId)
    requires forall c :: 0 <= c < |db.cases| ==> db.cases[c].requestId != request.requestId
    ensures requestId != request.requestId ==> Standing(Inserted(db, request, decision), requestId) == Standing(db, requestId)
    ensures Standing(Inserted(db, request, decision), request.requestId)
            == if decision == Review then None else Some(Verdict(decision, None))
    ensures Standing(db, request.requestId) == None
    ensures StoredRequest(Inserted(db, request, decision).requests, requestId)
            == if requestId == request.requestId then Some(request) else StoredRequest(db.requests, requestId)
  {
    var after := Inserted(db, request, decision);
    assert after.requests[..|db.requests|] == db.requests;
    if decision == Review {
      assert after.cases[..|db.cases|] == db.cases;
    }
  }

  lemma {:induction false} CaseOfAfterUpdate(cases: seq<ReviewCase>, k: nat, after: ReviewCase, requestId: string)
    requires k < |cases| && after.requestId == cases[k].requestId
    ensures CaseOf(cases[k := after], requestId) == CaseOf(cases, requestId)
  {
    var n := |cases| - 1;
    if k < n {
      assert cases[k := after][..n] == cases[..n][k := after];
      CaseOfAfterUpdate(cases[..n], k, after, requestId);
    } else {
      assert cases[k := after][..n] == cases[..n];
    }
  }

  lemma CasesNameRequests(db: Db, requestId: string, c: int)
    requires TablesSound(db.requests, db.results) && CasesSound(db.results, db.cases)
    requires 0 <= c < |db.cases| && db.cases[c].requestId == requestId
    ensures var i := RequestIndex(db.requests, requestId);
            && i >= 0 && db.results[i].requestId == requestId && db.results[i].decision == Review
            && ResultIndex(db.results, db.cases[c].userId, requestId) == i
    ensures IdTaken(db.requests, requestId)
    ensures CaseOf(db.cases, requestId) == c
  {
    assert HasReviewResult(db.results, db.cases[c]);
    var i :| 0 <= i < |db.results| && db.results[i].requestId == requestId && db.results[i].userId == db.cases[c].userId
             && db.results[i].clientId == db.cases[c].clientId && db.results[i].decision == Review;
    assert RowMatches(db.requests[i], db.results[i]);
    var j := ResultIndex(db.results, db.cases[c].userId, requestId);
    assert RowMatches(db.requests[j], db.results[j]);
  }

  /** Before a case is finalized its request has no standing decision; afterwards it has the human one. */
  lemma StandingAfterUpdate(db: Db, k: nat, after: ReviewCase, requestId: string)
    requires TablesSound(db.requests, db.results) && CasesSound(db.results, db.cases)
    requires k < |db.cases| && db.cases[k].status == Pending && after.requestId == db.cases[k].requestId
    ensures if requestId == db.cases[k].requestId
            then Standing(db, requestId) == None
                 && Standing(db.(cases := db.cases[k := after]), requestId)
                    == if after.finalDecision == None then None
                       else Some(Verdict(after.finalDecision.value, Some(after.status)))
            else Standing(db.(cases := db.cases[k := after]), requestId) == Standing(db, requestId)
  {
    CaseOfAfterUpdate(db.cases, k, after, requestId);
    if requestId == db.cases[k].requestId {
      assert CaseSound(db.cases[k]);
      CasesNameRequests(db, requestId, k);
    }
  }

  lemma StandingAfterFinalize(
    db: Db, id: nat, reviewer: nat, status: ReviewStatus, decision: Decision, notes: string, at: int, requestId: string)
    requires TablesSound(db.requests, db.results) && CasesSound(db.results, db.cases)
    requires FinalizeCase(db, id, reviewer, status, decision, notes, at).Ok?
    ensures var after := FinalizeCase(db, id, reviewer, status, decision, notes, at).value;
            if requestId == db.cases[id - 1].requestId
            then Standing(db, requestId) == None && Standing(after, requestId) == Some(Verdict(decision, Some(status)))
            else Standing(after, requestId) == Standing(db, requestId)
  {
    StandingAfterUpdate(db, id - 1, FinalizedCase(db.cases[id - 1], reviewer, status, decision, notes, at), requestId);
  }

  /** The database tables other than deliveries. */
  lemma StandingIgnoresDeliveries(a: Db, b: Db, requestId: string)
    requires a.requests == b.requests && a.results == b.results && a.cases == b.cases
    ensures Standing(a, requestId) == Standing(b, requestId)
  {
  }

  lemma NoNotifierFor(s: World, requestId: string)
    requires Faithful(s) && Standing(s.db, requestId) == None
    ensures forall w :: !Notifies(PhaseOf(s, w), requestId)
    ensures forall row :: row in s.db.deliveries ==> s.db.deliveries[row].requestId != requestId
  {
    forall w
      ensures !Notifies(PhaseOf(s, w), requestId)
    {
      assert NotifierFaithful(s.db, PhaseOf(s, w));
    }
    forall row | row in s.db.deliveries
      ensures s.db.deliveries[row].requestId != requestId
    {
      assert DeliveryFaithful(s.db, s.db.deliveries[row]);
    }
  }

  /** Standing decisions survive the step. */
  lemma StandingKept(s: World, step: Step, requestId: string)
    requires Consistent(s) && Enabled(s, step) && Standing(s.db, requestId).Some?
    ensures Standing(Apply(s, step).db, requestId) == Standing(s.db, requestId)
    ensures StoredRequest(Apply(s, step).db.requests, requestId) == StoredRequest(s.db.requests, requestId)
  {
    var t := Apply(s, step);
    match step
    case Save(w) =>
      var p := PhaseOf(s, w);
      if t.db != s.db {
        NewIdHasNoCase(s, w);
        StandingAfterInsert(s.db, RequestOf(p.input, p.requestId), p.decision, requestId);
      }
    case Finalize(_, id, reviewer, status, decision, notes, at) =>
      if t.db != s.db {
        StandingAfterFinalize(s.db, id, reviewer, status, decision, notes, at, requestId);
      }
    case _ =>
      StandingIgnoresDeliveries(t.db, s.db, requestId);
  }

  lemma NewIdHasNoCase(s: World, worker: nat)
    requires Consistent(s) && PhaseOf(s, worker).Decided?
    ensures !IdTaken(s.db.requests, PhaseOf(s, worker).requestId)
    ensures forall c :: 0 <= c < |s.db.cases| ==> s.db.cases[c].requestId != PhaseOf(s, worker).requestId
  {
    forall c | 0 <= c < |s.db.cases|
      ensures s.db.cases[c].requestId != PhaseOf(s, worker).requestId
    {
      CasesNameRequests(s.db, s.db.cases[c].requestId, c);
    }
  }

  /** A worker starts notifying for a request nobody notified. */
  lemma NewNotifier(s: World, t: World, worker: nat, requestId: string)
    requires NotifiedOnce(s) && t.db.deliveries == s.db.deliveries && Notifies(PhaseOf(t, worker), requestId)
    requires forall w :: w != worker ==> PhaseOf(t, w) == PhaseOf(s, w)
    requires forall w :: !Notifies(PhaseOf(s, w), requestId)
    requires forall row :: row in s.db.deliveries ==> s.db.deliveries[row].requestId != requestId
    ensures NotifiedOnce(t)
  {
    forall w | w != worker && PhaseOf(t, w).Notifying?
      ensures PhaseOf(t, w).request.requestId != requestId
    {
      assert !Notifies(PhaseOf(s, w), requestId);
    }
  }

  /** A worker that is not notifying afterwards takes nothing away, even when its delivery was stored. */
  lemma NotifierLeaves(s: World, t: World, worker: nat)
    requires NotifiedOnce(s) && !PhaseOf(t, worker).Notifying?
    requires forall w :: w != worker ==> PhaseOf(t, w) == PhaseOf(s, w)
    requires forall row :: row in t.db.deliveries ==>
               if row in s.db.deliveries then t.db.deliveries[row].requestId == s.db.deliveries[row].requestId
               else Notifies(PhaseOf(s, worker), t.db.deliveries[row].requestId)
    requires forall a, b :: a in t.db.deliveries && b in t.db.deliveries && a != b ==>
               a in s.db.deliveries || b in s.db.deliveries
    ensures NotifiedOnce(t)
  {
    forall w, row | PhaseOf(t, w).Notifying? && row in t.db.deliveries
      ensures PhaseOf(t, w).request.requestId != t.db.deliveries[row].requestId
    {
      assert w != worker && PhaseOf(t, w) == PhaseOf(s, w);
    }
    forall v, w | v != w && PhaseOf(t, v).Notifying? && PhaseOf(t, w).Notifying?
      ensures PhaseOf(t, v).request.requestId != PhaseOf(t, w).request.requestId
    {
      assert PhaseOf(t, v) == PhaseOf(s, v) && PhaseOf(t, w) == PhaseOf(s, w);
    }
  }

  lemma SaveApplied(s: World, worker: nat)
    requires Enabled(s, Save(worker))
    ensures var p, t := PhaseOf(s, worker), Apply(s, Save(worker));
            var request := RequestOf(p.input, p.requestId);
            if SaveCheck(s.db, request, p.decision).Ok? then
              && t.db == Inserted(s.db, request, p.decision)
              && (p.decision == Review ==> PhaseOf(t, worker).Idle?)
              && (p.decision != Review ==>
                    && Notifies(PhaseOf(t, worker), p.requestId) && Announced(PhaseOf(t, worker)) == Verdict(p.decision, None)
                    && PhaseOf(t, worker).request == request)
            else t.db == s.db && !PhaseOf(t, worker).Notifying?
  {
  }

  /** A save whose decision is final decides a request that was undecided, and starts its announcement. */
  lemma {:induction false} SaveDecides(s: World, worker: nat)
    requires Consistent(s) && Enabled(s, Save(worker)) && PhaseOf(s, worker).decision != Review
    ensures var p, t := PhaseOf(s, worker), Apply(s, Save(worker));
            SaveCheck(s.db, RequestOf(p.input, p.requestId), p.decision).Ok? ==>
              && Standing(s.db, p.requestId) == None && Standing(t.db, p.requestId) == Some(Verdict(p.decision, None))
              && Notifies(PhaseOf(t, worker), p.requestId) && Announced(PhaseOf(t, worker)) == Verdict(p.decision, None)
              && StoredRequest(t.db.requests, p.requestId) == Some(PhaseOf(t, worker).request)
  {
    var p := PhaseOf(s, worker);
    SaveApplied(s, worker);
    if SaveCheck(s.db, RequestOf(p.input, p.requestId), p.decision).Ok? {
      NewIdHasNoCase(s, worker);
      StandingAfterInsert(s.db, RequestOf(p.input, p.requestId), p.decision, p.requestId);
    }
  }

  lemma {:induction false} SaveStep(s: World, worker: nat)
    requires Consistent(s) && Faithful(s) && NotifiedOnce(s) && Enabled(s, Save(worker))
    ensures NotifierFaithful(Apply(s, Save(worker)).db, PhaseOf(Apply(s, Save(worker)), worker))
    ensures NotifiedOnce(Apply(s, Save(worker)))
  {
    var p := PhaseOf(s, worker);
    var t := Apply(s, Save(worker));
    SaveApplied(s, worker);
    if SaveCheck(s.db, RequestOf(p.input, p.requestId), p.decision).Ok? && p.decision != Review {
      SaveDecides(s, worker);
      NoNotifierFor(s, p.requestId);
      NewNotifier(s, t, worker, p.requestId);
    } else {
      NotifierLeaves(s, t, worker);
    }
  }

  /** A finalized case always finds its request and result, so its decision is always announced. */
  lemma {:induction false} FinalizeApplied(s: World, step: Step)
    requires DbSound(s.db) && step.Finalize? && Enabled(s, step)
    ensures var r := FinalizeCase(s.db, step.id, step.reviewer, step.status, step.decision, step.notes, step.at);
            if r.Ok? then
              && Apply(s, step).db == r.value
              && Notifies(PhaseOf(Apply(s, step), step.worker), s.db.cases[step.id - 1].requestId)
              && Announced(PhaseOf(Apply(s, step), step.worker)) == Verdict(step.decision, Some(step.status))
              && forall w :: w != step.worker ==> PhaseOf(Apply(s, step), w) == PhaseOf(s, w)
            else Apply(s, step) == s
  {
    var r := FinalizeCase(s.db, step.id, step.reviewer, step.status, step.decision, step.notes, step.at);
    if r.Ok? {
      CasesNameRequests(s.db, s.db.cases[step.id - 1].requestId, step.id - 1);
    }
  }

  /** The request announced is the stored one. */
  lemma {:induction false} FinalizeAnnouncesStored(s: World, step: Step)
    requires DbSound(s.db) && step.Finalize? && Enabled(s, step)
    requires FinalizeCase(s.db, step.id, step.reviewer, step.status, step.decision, step.notes, step.at).Ok?
    ensures PhaseOf(Apply(s, step), step.worker).Notifying? && Apply(s, step).db.requests == s.db.requests
    ensures StoredRequest(s.db.requests, s.db.cases[step.id - 1].requestId)
            == Some(PhaseOf(Apply(s, step), step.worker).request)
  {
    CasesNameRequests(s.db, s.db.cases[step.id - 1].requestId, step.id - 1);
  }

  /** A finalization decides a request that was undecided, and starts its announcement. */
  lemma {:induction false} FinalizeDecides(s: World, step: Step)
    requires DbSound(s.db) && step.Finalize? && Enabled(s, step)
    requires FinalizeCase(s.db, step.id, step.reviewer, step.status, step.decision, step.notes, step.at).Ok?
    ensures var t, requestId := Apply(s, step), s.db.cases[step.id - 1].requestId;
            && Standing(s.db, requestId) == None
            && Standing(t.db, requestId) == Some(Verdict(step.decision, Some(step.status)))
            && Notifies(PhaseOf(t, step.worker), requestId)
            && Announced(PhaseOf(t, step.worker)) == Verdict(step.decision, Some(step.status))
            && StoredRequest(t.db.requests, requestId) == Some(PhaseOf(t, step.worker).request)
            && t.db.deliveries == s.db.deliveries
            && forall w :: w != step.worker ==> PhaseOf(t, w) == PhaseOf(s, w)
  {
    FinalizeApplied(s, step);
    FinalizeAnnouncesStored(s, step);
    StandingAfterFinalize(s.db, step.id, step.reviewer, step.status, step.decision, step.notes, step.at,
                          s.db.cases[step.id - 1].requestId);
  }

  lemma {:induction false} FinalizeStep(s: World, step: Step)
    requires Consistent(s) && Faithful(s) && NotifiedOnce(s) && step.Finalize? && Enabled(s, step)
    requires FinalizeCase(s.db, step.id, step.reviewer, step.status, step.decision, step.notes, step.at).Ok?
    ensures NotifiedOnce(Apply(s, step))
    ensures NotifierFaithful(Apply(s, step).db, PhaseOf(Apply(s, step), step.worker))
  {
    var requestId := s.db.cases[step.id - 1].requestId;
    FinalizeDecides(s, step);
    NoNotifierFor(s, requestId);
    NewNotifier(s, Apply(s, step), step.worker, requestId);
  }

  /** A claim or an outcome leaves every row with its request. */
  lemma {:induction false} RetriesKeepRequests(s: World, t: World)
    requires NotifiedOnce(s) && t.phases == s.phases && t.db.deliveries.Keys == s.db.deliveries.Keys
    requires forall row :: row in s.db.deliveries ==> t.db.deliveries[row].requestId == s.db.deliveries[row].requestId
    ensures NotifiedOnce(t)
  {
    assert forall w :: PhaseOf(t, w) == PhaseOf(s, w);
  }

  lemma {:induction false} NotifyStep(s: World, step: Step)
    requires NotifiedOnce(s) && Enabled(s, step) && step.Notify?
    ensures NotifiedOnce(Apply(s, step))
  {
    NotifierLeaves(s, Apply(s, step), step.worker);
  }

  /** A check that begins, decides, looks again or gives up announces nothing. */
  lemma {:induction false} CheckingStep(s: World, step: Step)
    requires NotifiedOnce(s) && Enabled(s, step)
    requires step.Begin? || step.Decide? || step.FindAgain? || step.Abandon?
    ensures NotifiedOnce(Apply(s, step))
  {
    NotifierLeaves(s, Apply(s, step), step.worker);
  }

  lemma {:induction false} RetryStep(s: World, step: Step)
    requires NotifiedOnce(s) && Enabled(s, step) && (step.ClaimDelivery? || step.SaveOutcome?)
    ensures NotifiedOnce(Apply(s, step))
  {
    RetriesKeepRequests(s, Apply(s, step));
  }

  lemma {:induction false} NotifiedOnceStep(s: World, step: Step)
    requires Consistent(s) && Faithful(s) && NotifiedOnce(s) && Enabled(s, step)
    ensures NotifiedOnce(Apply(s, step))
  {
    match step
    case Save(w) => SaveStep(s, w);
    case Finalize(_, id, reviewer, status, decision, notes, at) =>
      if FinalizeCase(s.db, id, reviewer, status, decision, notes, at).Ok? {
        FinalizeStep(s, step);
      }
    case Notify(_, _, _, _, _) => NotifyStep(s, step);
    case ClaimDelivery(_, _, _) => RetryStep(s, step);
    case SaveOutcome(_, _, _) => RetryStep(s, step);
    case _ => CheckingStep(s, step);
  }

  lemma NotifierFaithfulStep(s: World, step: Step, w: nat)
    requires Consistent(s) && Faithful(s) && NotifiedOnce(s) && Enabled(s, step)
    ensures NotifierFaithful(Apply(s, step).db, PhaseOf(Apply(s, step), w))
  {
    var t := Apply(s, step);
    assert NotifierFaithful(s.db, PhaseOf(s, w));
    if step.Save? && step.worker == w {
      SaveStep(s, w);
    } else if step.Finalize? && step.worker == w && t != s {
      FinalizeStep(s, step);
    } else if PhaseOf(t, w).Notifying? {
      assert PhaseOf(t, w) == PhaseOf(s, w);
      StandingKept(s, step, PhaseOf(s, w).request.requestId);
    }
  }

  /** Only a notifier adds a delivery, and what it adds is what it announces. */
  lemma {:induction false} NewDeliveryAnnounces(s: World, step: Step, row: nat)
    requires Enabled(s, step) && row in Apply(s, step).db.deliveries && row !in s.db.deliveries
    ensures step.Notify?
    ensures var p, d := PhaseOf(s, step.worker), Apply(s, step).db.deliveries[row];
            && p.Notifying? && p.request.clientId.Some? && d.requestId == p.request.requestId
            && Some(d.clientId) == p.request.clientId
            && d.payload == FinalPayload(p.request, p.result, p.reviewStatus, p.finalDecision)
  {
  }

  lemma {:induction false} DeliveryFaithfulStep(s: World, step: Step, row: nat)
    requires Consistent(s) && Faithful(s) && Enabled(s, step) && row in Apply(s, step).db.deliveries
    ensures DeliveryFaithful(Apply(s, step).db, Apply(s, step).db.deliveries[row])
  {
    if row in s.db.deliveries {
      assert DeliveryFaithful(s.db, s.db.deliveries[row]);
      StepKeepsMessage(s, step, row);
      StandingKept(s, step, s.db.deliveries[row].requestId);
    } else {
      NewDeliveryAnnounces(s, step, row);
      NotifierSends(s.db, PhaseOf(s, step.worker));
      StandingKept(s, step, PhaseOf(s, step.worker).request.requestId);
    }
  }

  lemma FaithfulStep(s: World, step: Step)
    requires Consistent(s) && Faithful(s) && NotifiedOnce(s) && Enabled(s, step)
    ensures Faithful(Apply(s, step))
  {
    forall w
      ensures NotifierFaithful(Apply(s, step).db, PhaseOf(Apply(s, step), w))
    {
      NotifierFaithfulStep(s, step, w);
    }
    forall row | row in Apply(s, step).db.deliveries
      ensures DeliveryFaithful(Apply(s, step).db, Apply(s, step).db.deliveries[row])
    {
      DeliveryFaithfulStep(s, step, row);
    }
  }

  lemma {:induction false} NewFinalizerWasUndecided(s: World, step: Step)
    requires DbSound(s.db) && Enabled(s, step) && step.Finalize? && Apply(s, step) != s
    ensures Notifies(PhaseOf(Apply(s, step), step.worker), s.db.cases[step.id - 1].requestId)
    ensures Standing(s.db, s.db.cases[step.id - 1].requestId) == None
    ensures forall w :: w != step.worker ==> PhaseOf(Apply(s, step), w) == PhaseOf(s, w)
  {
    FinalizeDecides(s, step);
  }

  lemma {:induction false} NewSaverWasUndecided(s: World, worker: nat)
    requires Consistent(s) && Enabled(s, Save(worker)) && PhaseOf(Apply(s, Save(worker)), worker).Notifying?
    ensures Standing(s.db, PhaseOf(Apply(s, Save(worker)), worker).request.requestId) == None
  {
    SaveDecides(s, worker);
  }

  /** Only a save or a finalization starts an announcement. */
  lemma {:induction false} OthersDoNotStartNotifying(s: World, step: Step, worker: nat)
    requires Enabled(s, step) && PhaseOf(Apply(s, step), worker).Notifying?
    requires PhaseOf(Apply(s, step), worker) != PhaseOf(s, worker)
    ensures step.Save? || step.Finalize?
    ensures step.Save? ==> step.worker == worker
  {
  }

  /** Whoever starts to notify does so for a request that had no standing decision before. */
  lemma {:induction false} NewNotifierWasUndecided(s: World, step: Step, worker: nat)
    requires Consistent(s) && Enabled(s, step)
    requires PhaseOf(Apply(s, step), worker).Notifying? && PhaseOf(Apply(s, step), worker) != PhaseOf(s, worker)
    ensures Standing(s.db, PhaseOf(Apply(s, step), worker).request.requestId) == None
  {
    OthersDoNotStartNotifying(s, step, worker);
    if step.Save? {
      NewSaverWasUndecided(s, worker);
    } else {
      NewFinalizerWasUndecided(s, step);
    }
  }

  lemma {:induction false} RunNotifiesFaithfully(steps: seq<Step>)
    requires Run(steps).Some?
    ensures Faithful(Run(steps).value) && NotifiedOnce(Run(steps).value)
  {
    if steps != [] {
      var before, step := steps[..|steps| - 1], steps[|steps| - 1];
      RunNotifiesFaithfully(before);
      RunKeepsAnswers(before);
      FaithfulStep(Run(before).value, step);
      NotifiedOnceStep(Run(before).value, step);
    }
  }

  /** The case settles the review the way the message says. */
  predicate SettledAs(c: ReviewCase, m: Payload) {
    && c.requestId == m.requestId && c.status != Pending
    && m.reviewStatus == Some(c.status) && c.finalDecision == Some(m.decision)
  }

  /** The message is about request i: it names its client and external id, and says what the policy decided, with no
      review status, or, where the policy asked for review, what the reviewer decided, with the status of the case. */
  ghost predicate TellsRow(db: Db, m: Payload, i: nat) {
    && i < |db.requests| && i < |db.results|
    && db.requests[i].requestId == m.requestId && db.results[i].requestId == m.requestId
    && db.requests[i].clientId == Some(m.clientId) && db.requests[i].externalId == m.externalId
    && (m.decision == Allow || m.decision == Block)
    && if db.results[i].decision == Review then exists c :: 0 <= c < |db.cases| && SettledAs(db.cases[c], m)
       else m.decision == db.results[i].decision && m.reviewStatus == None
  }

  ghost predicate TellsTheTables(db: Db, m: Payload) {
    exists i: nat :: TellsRow(db, m, i)
  }

  lemma {:induction false} FaithfulTellsTheTables(db: Db, m: Payload)
    requires DbSound(db) && Faithfully(db, m)
    ensures TellsTheTables(db, m)
  {
    var i := RequestIndex(db.requests, m.requestId);
    assert RowMatches(db.requests[i], db.results[i]);
    if db.results[i].decision == Review {
      var c := CaseOf(db.cases, m.requestId);
      assert CaseSound(db.cases[c]);
      assert SettledAs(db.cases[c], m);
    }
    assert TellsRow(db, m, i);
  }

  /** In every reachable state each request has at most one delivery, none while its review is pending, and every stored
      delivery tells what the tables say. */
  lemma {:induction false} OneFaithfulNotification(s: World)
    requires Reachable(s)
    ensures forall a, b :: a in s.db.deliveries && b in s.db.deliveries && a != b ==>
              s.db.deliveries[a].requestId != s.db.deliveries[b].requestId
    ensures forall row :: row in s.db.deliveries ==>
              var d := s.db.deliveries[row];
              d.payload.requestId == d.requestId && d.payload.clientId == d.clientId && TellsTheTables(s.db, d.payload)
    ensures forall c, row :: 0 <= c < |s.db.cases| && s.db.cases[c].status == Pending && row in s.db.deliveries ==>
              s.db.deliveries[row].requestId != s.db.cases[c].requestId
  {
    var steps :| Run(steps) == Some(s);
    RunNotifiesFaithfully(steps);
    RunKeepsAnswers(steps);
    forall row | row in s.db.deliveries
      ensures DeliveryFaithful(s.db, s.db.deliveries[row]) && TellsTheTables(s.db, s.db.deliveries[row].payload)
    {
      FaithfulTellsTheTables(s.db, s.db.deliveries[row].payload);
    }
    forall c | 0 <= c < |s.db.cases| && s.db.cases[c].status == Pending
      ensures Standing(s.db, s.db.cases[c].requestId) == None
    {
      CasesNameRequests(s.db, s.db.cases[c].requestId, c);
      assert CaseSound(s.db.cases[c]);
    }
  }

  predicate KeptMessage(before: Rows, after: Rows, row: nat) {
    row in before ==>
      && row in after && after[row].payload == before[row].payload && after[row].deliveryId == before[row].deliveryId
      && after[row].requestId == before[row].requestId && after[row].clientId == before[row].clientId
  }

  lemma {:induction false} StepKeepsMessage(s: World, step: Step, row: nat)
    requires Enabled(s, step)
    ensures KeptMessage(s.db.deliveries, Apply(s, step).db.deliveries, row)
  {
  }

  /** A delivery stored at any moment of a run is there ever after, with the same payload and delivery id, so every
      retry resends what was first sent. */
  lemma {:induction false} DeliveriesKeepTheirMessage(steps: seq<Step>, earlier: nat, row: nat)
    requires Run(steps).Some? && earlier <= |steps|
    ensures Run(steps[..earlier]).Some?
    ensures KeptMessage(Run(steps[..earlier]).value.db.deliveries, Run(steps).value.db.deliveries, row)
  {
    if earlier == |steps| {
      assert steps[..earlier] == steps;
    } else {
      var before := steps[..|steps| - 1];
      assert before[..earlier] == steps[..earlier];
      DeliveriesKeepTheirMessage(before, earlier, row);
      StepKeepsMessage(Run(before).value, steps[|steps| - 1], row);
    }
  }
}
