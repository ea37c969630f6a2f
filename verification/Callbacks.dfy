/** Final-decision callbacks from the first attempt to the last retry: the service of CheckProtocol and the retriers of
    RetryProtocol over one delivery table, with everything that is sent on record. */
module Callbacks {
  import opened Results
  import opened ModerationTypes
  import opened Deliveries
  import opened ModerationStore
  import C = CheckProtocol
  import R = RetryProtocol
  import N = Notifications

  /** What a client's server receives. */
  datatype Callback = Callback(deliveryId: string, payload: Payload)

  /** A first attempt whose record is still to be stored. */
  datatype Draft = Draft(deliveryId: string, ending: Ending)

  /** drafts are the first attempts of workers; ids are all delivery ids drawn. */
  datatype World = World(
    service: C.World, retriers: R.World, drafts: map<nat, Draft>, ids: set<string>, sent: seq<Callback>)

  const START := World(C.START, R.START, map[], {}, [])

  /** Serve is any step of a check or a review, Retry any step of a retrier; the two meet in the delivery table only. */
  datatype Step =
    | Serve(check: C.Step)
    | FirstAttempt(worker: nat, deliveryId: string, ending: Ending)
    | Record(worker: nat, row: nat, at: int)
    | Retry(retry: R.Step)

  /** Storing a first attempt is a step of the service. */
  function Notification(w: World, worker: nat, row: nat, at: int): C.Step
    requires worker in w.drafts
  {
    C.Notify(worker, row, w.drafts[worker].deliveryId, AttemptOutcome(w.drafts[worker].ending), at)
  }

  predicate Enabled(cfg: R.Config, w: World, step: Step) {
    match step
    case Serve(check) =>
      C.Enabled(w.service, check) && !check.Notify? && !check.ClaimDelivery? && !check.SaveOutcome?
    case FirstAttempt(worker, deliveryId, _) =>
      && C.PhaseOf(w.service, worker).Notifying? && C.PhaseOf(w.service, worker).request.clientId.Some?
      && worker !in w.drafts && deliveryId !in w.ids
    case Record(worker, row, at) => worker in w.drafts && C.Enabled(w.service, Notification(w, worker, row, at))
    case Retry(retry) => R.Enabled(cfg, w.retriers, retry) && !retry.Insert?
  }

  function CallbackOf(p: C.Phase, deliveryId: string): Callback
    requires p.Notifying? && p.request.clientId.Some?
  {
    Callback(deliveryId, C.FinalPayload(p.request, p.result, p.reviewStatus, p.finalDecision))
  }

  function WithDeliveries(s: C.World, rows: Rows): C.World {
    s.(db := s.db.(deliveries := rows))
  }

  function WithInserted(r: R.World, row: nat, delivery: Delivery): R.World {
    r.(rows := r.rows[row := delivery], inserted := r.inserted[row := delivery])
  }

  /** The sends a retrier's step adds to its own record. */
  function NewSends(before: seq<R.Send>, after: seq<R.Send>): seq<Callback> {
    if |after| > |before| then [Callback(after[|after| - 1].deliveryId, after[|after| - 1].payload)] else []
  }

  function Apply(cfg: R.Config, w: World, step: Step): World
    requires Enabled(cfg, w, step)
  {
    match step
    case Serve(check) =>
      w.(service := C.Apply(w.service, check), drafts := if check.Abandon? then w.drafts - {check.worker} else w.drafts)
    case FirstAttempt(worker, deliveryId, ending) =>
      w.(drafts := w.drafts[worker := Draft(deliveryId, ending)], ids := w.ids + {deliveryId},
         sent := if Reached(Dispatched(ending)) then w.sent + [CallbackOf(C.PhaseOf(w.service, worker), deliveryId)] else w.sent)
    case Record(worker, row, at) =>
      var service := C.Apply(w.service, Notification(w, worker, row, at));
      w.(service := service, retriers := WithInserted(w.retriers, row, service.db.deliveries[row]),
         drafts := w.drafts - {worker})
    case Retry(retry) =>
      var retriers := R.Apply(cfg, w.retriers, retry);
      w.(service := WithDeliveries(w.service, retriers.rows), retriers := retriers,
         sent := w.sent + NewSends(w.retriers.sends, retriers.sends))
  }

  function Run(cfg: R.Config, steps: seq<Step>): Option<World> {
    if steps == [] then Some(START)
    else
      var before := Run(cfg, steps[..|steps| - 1]);
      var step := steps[|steps| - 1];
      if before.Some? && Enabled(cfg, before.value, step) then Some(Apply(cfg, before.value, step)) else None
  }

  // ---------- Each half is a run of its own protocol ----------

  ghost predicate Refines(cfg: R.Config, w: World) {
    w.service.db.deliveries == w.retriers.rows && C.Reachable(w.service) && R.Reachable(cfg, w.retriers)
  }

  /** Delivery ids of drafts are drawn and used by nobody else. */
  ghost predicate DraftsFresh(w: World) {
    && (forall worker :: worker in w.drafts ==>
          && C.PhaseOf(w.service, worker).Notifying? && C.PhaseOf(w.service, worker).request.clientId.Some?
          && w.drafts[worker].deliveryId in w.ids)
    && (forall a, b :: a in w.drafts && b in w.drafts && a != b ==>
          w.drafts[a].deliveryId != w.drafts[b].deliveryId)
    && (forall row :: row in w.retriers.rows ==> w.retriers.rows[row].deliveryId in w.ids)
    && (forall worker, row :: worker in w.drafts && row in w.retriers.rows ==>
          w.retriers.rows[row].deliveryId != w.drafts[worker].deliveryId)
  }

  /** A retrier's step is a claim or a saved outcome of the service's own machine, or leaves the table alone: the saved
      row is the locked one, so nothing but status, time and error can differ. */
  lemma {:induction false} RetryRefinesService(cfg: R.Config, s: C.World, r: R.World, step: R.Step)
    requires s.db.deliveries == r.rows && C.Reachable(s) && R.Reachable(cfg, r)
    requires R.Enabled(cfg, r, step) && !step.Insert?
    ensures C.Reachable(WithDeliveries(s, R.Apply(cfg, r, step).rows))
  {
    var rows := R.Apply(cfg, r, step).rows;
    if step.ClaimRowStep? && rows != r.rows {
      var p := R.PhaseOf(r, step.worker);
      var claim := C.ClaimDelivery(p.id, R.MaxAttemptsFor(cfg, p.manual), p.at);
      C.ReachByStep(s, claim);
      assert C.Apply(s, claim) == WithDeliveries(s, rows);
    } else if step.SaveRow? {
      var p := R.PhaseOf(r, step.worker);
      SavedRowIsLocked(cfg, r, step.worker);
      var save := C.SaveOutcome(p.id, RecordedOutcome(p.dispatch), p.writtenAt);
      C.ReachByStep(s, save);
      assert C.Apply(s, save) == WithDeliveries(s, rows);
    } else {
      assert rows == r.rows;
      assert WithDeliveries(s, rows) == s;
    }
  }

  lemma {:induction false} SavedRowIsLocked(cfg: R.Config, r: R.World, worker: nat)
    requires R.Reachable(cfg, r) && R.Enabled(cfg, r, R.SaveRow(worker))
    ensures var p := R.PhaseOf(r, worker); p.id in r.rows && r.rows[p.id] == p.row
  {
    var steps :| R.Run(cfg, steps) == Some(r);
    R.RunKeepsCounts(cfg, steps);
    assert R.HoldsLock(r, worker, R.PhaseOf(r, worker).id);
  }

  /** Storing a first attempt is an insertion the retriers allow: one attempt, settled, under a fresh id. */
  lemma {:induction false} RecordRefinesRetriers(cfg: R.Config, w: World, step: Step)
    requires Refines(cfg, w) && DraftsFresh(w) && Enabled(cfg, w, step) && step.Record?
    ensures R.Reachable(cfg, Apply(cfg, w, step).retriers)
  {
    var delivery := Apply(cfg, w, step).service.db.deliveries[step.row];
    assert delivery.deliveryId == w.drafts[step.worker].deliveryId;
    var r := R.ReachByStep(cfg, w.retriers, R.Insert(step.row, delivery));
    assert r == WithInserted(w.retriers, step.row, delivery);
  }

  lemma {:induction false} RefinesStep(cfg: R.Config, w: World, step: Step)
    requires Refines(cfg, w) && DraftsFresh(w) && Enabled(cfg, w, step)
    ensures Refines(cfg, Apply(cfg, w, step))
  {
    match step
    case Serve(check) =>
      C.ReachByStep(w.service, check);
      ServeKeepsDeliveries(w.service, check);
    case FirstAttempt(_, _, _) =>
    case Record(worker, row, at) =>
      C.ReachByStep(w.service, Notification(w, worker, row, at));
      RecordRefinesRetriers(cfg, w, step);
    case Retry(retry) =>
      RetryRefinesService(cfg, w.service, w.retriers, retry);
      var r := R.ReachByStep(cfg, w.retriers, retry);
  }

  lemma {:induction false} ServeKeepsDeliveries(s: C.World, check: C.Step)
    requires C.Enabled(s, check) && !check.Notify? && !check.ClaimDelivery? && !check.SaveOutcome?
    ensures C.Apply(s, check).db.deliveries == s.db.deliveries
  {
  }

  /** A worker about to announce a decision waits: no check or review step but giving up moves it. */
  lemma {:induction false} NotifierWaits(s: C.World, check: C.Step, worker: nat)
    requires C.Enabled(s, check) && !check.Notify? && C.PhaseOf(s, worker).Notifying?
    ensures C.PhaseOf(C.Apply(s, check), worker) == C.PhaseOf(s, worker) || (check.Abandon? && check.worker == worker)
  {
  }

  lemma {:induction false} ServeKeepsDrafts(cfg: R.Config, w: World, step: Step)
    requires DraftsFresh(w) && Enabled(cfg, w, step) && step.Serve?
    ensures DraftsFresh(Apply(cfg, w, step))
  {
    var t := Apply(cfg, w, step);
    forall worker | worker in t.drafts
      ensures C.PhaseOf(t.service, worker) == C.PhaseOf(w.service, worker)
    {
      NotifierWaits(w.service, step.check, worker);
    }
  }

  lemma {:induction false} RecordKeepsDrafts(cfg: R.Config, w: World, step: Step)
    requires DraftsFresh(w) && Enabled(cfg, w, step) && step.Record?
    ensures DraftsFresh(Apply(cfg, w, step))
  {
    var t := Apply(cfg, w, step);
    assert t.retriers.rows[step.row].deliveryId == w.drafts[step.worker].deliveryId;
  }

  lemma {:induction false} FirstAttemptKeepsDrafts(cfg: R.Config, w: World, step: Step)
    requires DraftsFresh(w) && Enabled(cfg, w, step) && step.FirstAttempt?
    ensures DraftsFresh(Apply(cfg, w, step))
  {
  }

  lemma {:induction false} RetryKeepsMessages(cfg: R.Config, r: R.World, step: R.Step)
    requires R.Reachable(cfg, r) && R.Enabled(cfg, r, step) && !step.Insert?
    ensures var rows := R.Apply(cfg, r, step).rows;
            rows.Keys == r.rows.Keys && forall row :: row in rows ==> R.SameMessage(rows[row], r.rows[row])
  {
    if step.SaveRow? {
      SavedRowIsLocked(cfg, r, step.worker);
    }
  }

  lemma {:induction false} RetryKeepsDrafts(cfg: R.Config, w: World, step: Step)
    requires Refines(cfg, w) && DraftsFresh(w) && Enabled(cfg, w, step) && step.Retry?
    ensures DraftsFresh(Apply(cfg, w, step))
  {
    var t := Apply(cfg, w, step);
    RetryKeepsMessages(cfg, w.retriers, step.retry);
    assert forall worker :: C.PhaseOf(t.service, worker) == C.PhaseOf(w.service, worker);
  }

  lemma {:induction false} DraftsFreshStep(cfg: R.Config, w: World, step: Step)
    requires Refines(cfg, w) && DraftsFresh(w) && Enabled(cfg, w, step)
    ensures DraftsFresh(Apply(cfg, w, step))
  {
    match step
    case Serve(_) => ServeKeepsDrafts(cfg, w, step);
    case FirstAttempt(_, _, _) => FirstAttemptKeepsDrafts(cfg, w, step);
    case Record(_, _, _) => RecordKeepsDrafts(cfg, w, step);
    case Retry(_) => RetryKeepsDrafts(cfg, w, step);
  }

  /** With the retriers' own code in place of assumptions, every run is a run of the service and a run of the retriers
      over one table, so what CheckProtocol, ReviewStats, Notifications and RetryProtocol prove holds of it. */
  lemma {:induction false} RunRefinesBoth(cfg: R.Config, steps: seq<Step>)
    requires Run(cfg, steps).Some?
    ensures Refines(cfg, Run(cfg, steps).value) && DraftsFresh(Run(cfg, steps).value)
  {
    if steps == [] {
      assert C.Run([]) == Some(C.START);
      assert R.Run(cfg, []) == Some(R.START);
    } else {
      var before := steps[..|steps| - 1];
      RunRefinesBoth(cfg, before);
      RefinesStep(cfg, Run(cfg, before).value, steps[|steps| - 1]);
      DraftsFreshStep(cfg, Run(cfg, before).value, steps[|steps| - 1]);
    }
  }

  // ---------- Everything that is sent ----------

  /** One request, one delivery id, one payload. */
  predicate Agree(a: Callback, b: Callback) {
    && (a.payload.requestId == b.payload.requestId <==> a.deliveryId == b.deliveryId)
    && (a.deliveryId == b.deliveryId ==> a.payload == b.payload)
  }

  function Stored(d: Delivery): Callback {
    Callback(d.deliveryId, d.payload)
  }

  predicate Standing(db: Db, callback: Callback) {
    N.Faithfully(db, callback.payload)
  }

  ghost predicate SentStanding(w: World) {
    forall i :: 0 <= i < |w.sent| ==> Standing(w.service.db, w.sent[i])
  }

  /** A worker that has not sent yet announces a request nothing was sent for; one that has agrees with what was. */
  predicate WorkerAgrees(w: World, worker: nat, callback: Callback) {
    var p := C.PhaseOf(w.service, worker);
    if worker in w.drafts then p.Notifying? && p.request.clientId.Some? && Agree(callback, CallbackOf(p, w.drafts[worker].deliveryId))
    else p.Notifying? ==> p.request.requestId != callback.payload.requestId
  }

  predicate AgreesWithAll(w: World, callback: Callback) {
    && callback.deliveryId in w.ids
    && (forall j :: 0 <= j < |w.sent| ==> Agree(callback, w.sent[j]))
    && (forall row :: row in w.retriers.rows ==> Agree(callback, Stored(w.retriers.rows[row])))
  }

  ghost predicate SentAgrees(w: World) {
    && (forall i :: 0 <= i < |w.sent| ==> AgreesWithAll(w, w.sent[i]))
    && (forall i, worker :: 0 <= i < |w.sent| ==> WorkerAgrees(w, worker, w.sent[i]))
  }

  lemma ServiceFacts(s: C.World)
    requires C.Reachable(s)
    ensures C.Consistent(s) && N.Faithful(s) && N.NotifiedOnce(s)
  {
    var steps :| C.Run(steps) == Some(s);
    C.RunKeepsAnswers(steps);
    N.RunNotifiesFaithfully(steps);
  }

  /** A retrier sends the message of the row as it is stored. */
  lemma {:induction false} RetrySendsStored(cfg: R.Config, r: R.World, step: R.Step) returns (row: nat)
    requires R.Reachable(cfg, r) && R.Enabled(cfg, r, step) && !step.Insert?
    requires |R.Apply(cfg, r, step).sends| > |r.sends|
    ensures row in r.rows && NewSends(r.sends, R.Apply(cfg, r, step).sends) == [Stored(r.rows[row])]
  {
    var t := R.ReachByStep(cfg, r, step);
    var steps :| R.Run(cfg, steps) == Some(t);
    R.RunKeepsCounts(cfg, steps);
    var send := t.sends[|t.sends| - 1];
    assert R.IsMessageOf(t.inserted, send.id, send.deliveryId, send.payload);
    row := send.id;
    assert R.SameMessage(t.rows[row], t.inserted[row]);
  }

  lemma {:induction false} FirstCallbackStands(s: C.World, worker: nat, deliveryId: string)
    requires N.Faithful(s) && C.PhaseOf(s, worker).Notifying? && C.PhaseOf(s, worker).request.clientId.Some?
    ensures Standing(s.db, CallbackOf(C.PhaseOf(s, worker), deliveryId))
  {
    N.NotifierSends(s.db, C.PhaseOf(s, worker));
  }

  lemma {:induction false} StoredCallbackStands(s: C.World, row: nat)
    requires N.Faithful(s) && row in s.db.deliveries
    ensures Standing(s.db, Stored(s.db.deliveries[row]))
    ensures s.db.deliveries[row].payload.requestId == s.db.deliveries[row].requestId
  {
    assert N.DeliveryFaithful(s.db, s.db.deliveries[row]);
  }

  lemma {:induction false} StandingStays(s: C.World, check: C.Step, callback: Callback)
    requires C.Consistent(s) && C.Enabled(s, check) && Standing(s.db, callback)
    ensures Standing(C.Apply(s, check).db, callback)
  {
    N.StandingKept(s, check, callback.payload.requestId);
  }

  lemma {:induction false} SentStandingStep(cfg: R.Config, w: World, step: Step)
    requires Refines(cfg, w) && SentStanding(w) && Enabled(cfg, w, step)
    ensures SentStanding(Apply(cfg, w, step))
  {
    var t := Apply(cfg, w, step);
    ServiceFacts(w.service);
    forall i | 0 <= i < |t.sent|
      ensures Standing(t.service.db, t.sent[i])
    {
      match step
      case Serve(check) => StandingStays(w.service, check, w.sent[i]);
      case Record(worker, row, at) => StandingStays(w.service, Notification(w, worker, row, at), w.sent[i]);
      case FirstAttempt(worker, deliveryId, _) => FirstCallbackStands(w.service, worker, deliveryId);
      case Retry(retry) =>
        if i >= |w.sent| {
          var row := RetrySendsStored(cfg, w.retriers, retry);
          StoredCallbackStands(w.service, row);
        }
        N.StandingIgnoresDeliveries(t.service.db, w.service.db, t.sent[i].payload.requestId);
    }
  }

  /** A callback that agrees with all others and with every worker may be sent. */
  lemma {:induction false} SendKeepsAgreement(w: World, callback: Callback, t: World)
    requires SentAgrees(w) && AgreesWithAll(w, callback) && t == w.(sent := w.sent + [callback])
    requires forall worker :: WorkerAgrees(w, worker, callback)
    ensures SentAgrees(t)
  {
    forall i | 0 <= i < |t.sent|
      ensures AgreesWithAll(t, t.sent[i])
    {
      assert i < |w.sent| ==> AgreesWithAll(w, w.sent[i]) && Agree(callback, w.sent[i]);
    }
    forall i, worker | 0 <= i < |t.sent|
      ensures WorkerAgrees(t, worker, t.sent[i])
    {
      if i < |w.sent| {
        assert WorkerAgrees(w, worker, w.sent[i]);
      } else {
        assert WorkerAgrees(w, worker, callback);
      }
    }
  }

  lemma {:induction false} ServeKeepsAgreement(cfg: R.Config, w: World, step: Step)
    requires Refines(cfg, w) && SentAgrees(w) && SentStanding(w) && Enabled(cfg, w, step) && step.Serve?
    ensures SentAgrees(Apply(cfg, w, step))
  {
    var t := Apply(cfg, w, step);
    ServiceFacts(w.service);
    forall i | 0 <= i < |t.sent|
      ensures AgreesWithAll(t, t.sent[i])
    {
      assert AgreesWithAll(w, w.sent[i]);
    }
    forall i, worker | 0 <= i < |t.sent|
      ensures WorkerAgrees(t, worker, t.sent[i])
    {
      assert WorkerAgrees(w, worker, w.sent[i]) && Standing(w.service.db, w.sent[i]);
      if C.PhaseOf(w.service, worker).Notifying? {
        NotifierWaits(w.service, step.check, worker);
      }
      if C.PhaseOf(t.service, worker).Notifying? && C.PhaseOf(t.service, worker) != C.PhaseOf(w.service, worker) {
        N.NewNotifierWasUndecided(w.service, step.check, worker);
      }
    }
  }

  lemma {:induction false} DraftKeepsAgreement(cfg: R.Config, w: World, step: Step, t: World)
    requires SentAgrees(w) && Enabled(cfg, w, step) && step.FirstAttempt?
    requires t == w.(drafts := w.drafts[step.worker := Draft(step.deliveryId, step.ending)], ids := w.ids + {step.deliveryId})
    ensures SentAgrees(t)
  {
    forall i | 0 <= i < |t.sent|
      ensures AgreesWithAll(t, t.sent[i])
    {
      assert AgreesWithAll(w, w.sent[i]);
    }
    forall i, worker | 0 <= i < |t.sent|
      ensures WorkerAgrees(t, worker, t.sent[i])
    {
      assert WorkerAgrees(w, worker, w.sent[i]) && AgreesWithAll(w, w.sent[i]);
    }
  }

  lemma {:induction false} FirstAttemptKeepsAgreement(cfg: R.Config, w: World, step: Step)
    requires Refines(cfg, w) && DraftsFresh(w) && SentAgrees(w) && Enabled(cfg, w, step) && step.FirstAttempt?
    ensures SentAgrees(Apply(cfg, w, step))
  {
    var drafted := w.(drafts := w.drafts[step.worker := Draft(step.deliveryId, step.ending)], ids := w.ids + {step.deliveryId});
    var p := C.PhaseOf(w.service, step.worker);
    var callback := CallbackOf(p, step.deliveryId);
    ServiceFacts(w.service);
    DraftKeepsAgreement(cfg, w, step, drafted);
    forall j | 0 <= j < |w.sent|
      ensures Agree(callback, w.sent[j])
    {
      assert WorkerAgrees(drafted, step.worker, w.sent[j]);
    }
    forall row | row in w.retriers.rows
      ensures Agree(callback, Stored(w.retriers.rows[row]))
    {
      StoredCallbackStands(w.service, row);
    }
    forall worker
      ensures WorkerAgrees(drafted, worker, callback)
    {
      assert worker != step.worker && C.PhaseOf(w.service, worker).Notifying? ==>
          C.PhaseOf(w.service, worker).request.requestId != p.request.requestId;
    }
    if Reached(Dispatched(step.ending)) {
      SendKeepsAgreement(drafted, callback, Apply(cfg, w, step));
    }
  }

  lemma {:induction false} RecordKeepsAgreement(cfg: R.Config, w: World, step: Step)
    requires DraftsFresh(w) && SentAgrees(w) && Enabled(cfg, w, step) && step.Record?
    ensures SentAgrees(Apply(cfg, w, step))
  {
    var t := Apply(cfg, w, step);
    assert Stored(t.retriers.rows[step.row]) == CallbackOf(C.PhaseOf(w.service, step.worker), w.drafts[step.worker].deliveryId);
    forall i | 0 <= i < |t.sent|
      ensures AgreesWithAll(t, t.sent[i])
    {
      assert AgreesWithAll(w, w.sent[i]) && WorkerAgrees(w, step.worker, w.sent[i]);
    }
    forall i, worker | 0 <= i < |t.sent|
      ensures WorkerAgrees(t, worker, t.sent[i])
    {
      assert WorkerAgrees(w, worker, w.sent[i]);
    }
  }

  /** Rows that keep their message keep every agreement. */
  lemma {:induction false} RowsKeepAgreement(w: World, rows: Rows, t: World)
    requires SentAgrees(w) && t.sent == w.sent && t.ids == w.ids && t.drafts == w.drafts && t.retriers.rows == rows
    requires t.service == WithDeliveries(w.service, rows)
    requires rows.Keys == w.retriers.rows.Keys
    requires forall row :: row in rows ==> R.SameMessage(rows[row], w.retriers.rows[row])
    ensures SentAgrees(t)
  {
    forall i | 0 <= i < |t.sent|
      ensures AgreesWithAll(t, t.sent[i])
    {
      assert AgreesWithAll(w, w.sent[i]);
      forall row | row in rows
        ensures Agree(t.sent[i], Stored(rows[row]))
      {
        assert Stored(rows[row]) == Stored(w.retriers.rows[row]);
      }
    }
    forall i, worker | 0 <= i < |t.sent|
      ensures WorkerAgrees(t, worker, t.sent[i])
    {
      assert WorkerAgrees(w, worker, w.sent[i]);
      assert C.PhaseOf(t.service, worker) == C.PhaseOf(w.service, worker);
    }
  }

  lemma {:induction false} StoredAgreesWithAll(cfg: R.Config, w: World, row: nat)
    requires Refines(cfg, w) && DraftsFresh(w) && SentAgrees(w) && row in w.retriers.rows
    ensures AgreesWithAll(w, Stored(w.retriers.rows[row]))
    ensures forall worker :: WorkerAgrees(w, worker, Stored(w.retriers.rows[row]))
  {
    var callback := Stored(w.retriers.rows[row]);
    ServiceFacts(w.service);
    StoredCallbackStands(w.service, row);
    forall j | 0 <= j < |w.sent|
      ensures Agree(callback, w.sent[j])
    {
      assert AgreesWithAll(w, w.sent[j]);
    }
    forall other | other in w.retriers.rows
      ensures Agree(callback, Stored(w.retriers.rows[other]))
    {
      StoredCallbackStands(w.service, other);
      IdsDistinct(cfg, w.retriers, row, other);
    }
    forall worker
      ensures WorkerAgrees(w, worker, callback)
    {
      assert C.PhaseOf(w.service, worker).Notifying? ==>
          C.PhaseOf(w.service, worker).request.requestId != w.service.db.deliveries[row].requestId;
    }
  }

  lemma {:induction false} IdsDistinct(cfg: R.Config, r: R.World, a: nat, b: nat)
    requires R.Reachable(cfg, r) && a in r.rows && b in r.rows
    ensures a != b ==> r.rows[a].deliveryId != r.rows[b].deliveryId
  {
    var steps :| R.Run(cfg, steps) == Some(r);
    R.RunKeepsCounts(cfg, steps);
  }

  lemma {:induction false} RetryKeepsAgreement(cfg: R.Config, w: World, step: Step)
    requires Refines(cfg, w) && DraftsFresh(w) && SentAgrees(w) && Enabled(cfg, w, step) && step.Retry?
    ensures SentAgrees(Apply(cfg, w, step))
  {
    var t := Apply(cfg, w, step);
    var rows := t.retriers.rows;
    var moved := t.(sent := w.sent);
    RetryKeepsMessages(cfg, w.retriers, step.retry);
    RowsKeepAgreement(w, rows, moved);
    if |t.retriers.sends| > |w.retriers.sends| {
      var row := RetrySendsStored(cfg, w.retriers, step.retry);
      RefinesStep(cfg, w, step);
      DraftsFreshStep(cfg, w, step);
      StoredAgreesWithAll(cfg, moved, row);
      assert Stored(rows[row]) == Stored(w.retriers.rows[row]);
      SendKeepsAgreement(moved, Stored(rows[row]), t);
    } else {
      assert t == moved;
    }
  }

  lemma {:induction false} SentAgreesStep(cfg: R.Config, w: World, step: Step)
    requires Refines(cfg, w) && DraftsFresh(w) && SentAgrees(w) && SentStanding(w) && Enabled(cfg, w, step)
    ensures SentAgrees(Apply(cfg, w, step))
  {
    match step
    case Serve(_) => ServeKeepsAgreement(cfg, w, step);
    case FirstAttempt(_, _, _) => FirstAttemptKeepsAgreement(cfg, w, step);
    case Record(_, _, _) => RecordKeepsAgreement(cfg, w, step);
    case Retry(_) => RetryKeepsAgreement(cfg, w, step);
  }

  lemma {:induction false} RunSendsFaithfully(cfg: R.Config, steps: seq<Step>)
    requires Run(cfg, steps).Some?
    ensures SentStanding(Run(cfg, steps).value) && SentAgrees(Run(cfg, steps).value)
  {
    if steps != [] {
      var before, step := steps[..|steps| - 1], steps[|steps| - 1];
      RunSendsFaithfully(cfg, before);
      RunRefinesBoth(cfg, before);
      SentStandingStep(cfg, Run(cfg, before).value, step);
      SentAgreesStep(cfg, Run(cfg, before).value, step);
    }
  }

  /** End to end: however checks, reviews, first attempts, records and retries of any number of workers interleave, and
      however late outcome writes land, every callback ever sent tells what the tables say of its request: client,
      external id, the decision that stands, and the review it came out of. All callbacks of one request carry one
      delivery id and one payload, no other request has that id, and the delivery stored for the request is that
      callback. */
  lemma {:induction false} EveryCallbackIsFaithful(cfg: R.Config, steps: seq<Step>)
    requires Run(cfg, steps).Some?
    ensures var w := Run(cfg, steps).value;
            && (forall i :: 0 <= i < |w.sent| ==> N.TellsTheTables(w.service.db, w.sent[i].payload))
            && (forall i, j :: 0 <= i < |w.sent| && 0 <= j < |w.sent| ==> Agree(w.sent[i], w.sent[j]))
            && (forall i, row :: 0 <= i < |w.sent| && row in w.service.db.deliveries ==>
                  Agree(w.sent[i], Stored(w.service.db.deliveries[row])))
  {
    RunSendsFaithfully(cfg, steps);
    RunRefinesBoth(cfg, steps);
    var w := Run(cfg, steps).value;
    ServiceFacts(w.service);
    forall i | 0 <= i < |w.sent|
      ensures AgreesWithAll(w, w.sent[i]) && N.TellsTheTables(w.service.db, w.sent[i].payload)
    {
      assert Standing(w.service.db, w.sent[i]);
      N.FaithfulTellsTheTables(w.service.db, w.sent[i].payload);
    }
  }

  /** While its review is pending nothing is sent for a request. */
  lemma {:induction false} NothingIsSentWhilePending(cfg: R.Config, steps: seq<Step>, i: nat, c: nat)
    requires Run(cfg, steps).Some? && i < |Run(cfg, steps).value.sent| && c < |Run(cfg, steps).value.service.db.cases|
    ensures var w := Run(cfg, steps).value;
            w.service.db.cases[c].status == Pending ==>
              w.sent[i].payload.requestId != w.service.db.cases[c].requestId
  {
    RunSendsFaithfully(cfg, steps);
    RunRefinesBoth(cfg, steps);
    var w := Run(cfg, steps).value;
    ServiceFacts(w.service);
    assert Standing(w.service.db, w.sent[i]);
    N.CasesNameRequests(w.service.db, w.service.db.cases[c].requestId, c);
    assert C.CaseSound(w.service.db.cases[c]);
  }

  // ---------- What is marked as delivered ----------

  ghost predicate OnRecord(sent: seq<Callback>, callback: Callback) {
    exists i :: 0 <= i < |sent| && sent[i] == callback
  }

  ghost predicate SendsOnRecord(sends: seq<R.Send>, sent: seq<Callback>) {
    forall i :: 0 <= i < |sends| ==> OnRecord(sent, Callback(sends[i].deliveryId, sends[i].payload))
  }

  ghost predicate InsertedOnRecord(inserted: Rows, sent: seq<Callback>) {
    forall row :: row in inserted && inserted[row].status == Succeeded ==> OnRecord(sent, Stored(inserted[row]))
  }

  /** A worker whose first attempt was delivered. */
  ghost predicate DraftOnRecord(p: C.Phase, draft: Draft, sent: seq<Callback>) {
    draft.ending == Delivered ==>
      p.Notifying? && p.request.clientId.Some? && OnRecord(sent, CallbackOf(p, draft.deliveryId))
  }

  ghost predicate DraftsOnRecord(service: C.World, drafts: map<nat, Draft>, sent: seq<Callback>) {
    forall worker :: worker in drafts ==> DraftOnRecord(C.PhaseOf(service, worker), drafts[worker], sent)
  }

  /** Whatever the retriers sent, a first attempt delivered, or an inserted row calls delivered is on record as sent. */
  ghost predicate DeliveriesOnRecord(w: World) {
    && SendsOnRecord(w.retriers.sends, w.sent)
    && InsertedOnRecord(w.retriers.inserted, w.sent)
    && DraftsOnRecord(w.service, w.drafts, w.sent)
  }

  lemma {:induction false} StaysOnRecord(sent: seq<Callback>, more: seq<Callback>, callback: Callback)
    requires OnRecord(sent, callback)
    ensures OnRecord(sent + more, callback)
  {
    var i :| 0 <= i < |sent| && sent[i] == callback;
    assert (sent + more)[i] == callback;
  }

  lemma {:induction false} LastIsOnRecord(sent: seq<Callback>, callback: Callback)
    ensures OnRecord(sent + [callback], callback)
  {
    assert (sent + [callback])[|sent|] == callback;
  }

  lemma {:induction false} MoreOnRecord(w: World, sent: seq<Callback>)
    requires DeliveriesOnRecord(w) && forall callback :: OnRecord(w.sent, callback) ==> OnRecord(sent, callback)
    ensures DeliveriesOnRecord(w.(sent := sent))
  {
    forall worker | worker in w.drafts
      ensures DraftOnRecord(C.PhaseOf(w.service, worker), w.drafts[worker], sent)
    {
      assert DraftOnRecord(C.PhaseOf(w.service, worker), w.drafts[worker], w.sent);
    }
  }

  lemma {:induction false} AddedToRecord(w: World, added: seq<Callback>)
    requires DeliveriesOnRecord(w)
    ensures DeliveriesOnRecord(w.(sent := w.sent + added))
  {
    forall callback | OnRecord(w.sent, callback)
      ensures OnRecord(w.sent + added, callback)
    {
      StaysOnRecord(w.sent, added, callback);
    }
    MoreOnRecord(w, w.sent + added);
  }

  lemma {:induction false} FirstAttemptOnRecord(cfg: R.Config, w: World, step: Step)
    requires DeliveriesOnRecord(w) && Enabled(cfg, w, step) && step.FirstAttempt?
    ensures DeliveriesOnRecord(Apply(cfg, w, step))
  {
    if Reached(Dispatched(step.ending)) {
      var callback := CallbackOf(C.PhaseOf(w.service, step.worker), step.deliveryId);
      AddedToRecord(w, [callback]);
      LastIsOnRecord(w.sent, callback);
    }
  }

  lemma {:induction false} SendsStayOnRecord(before: seq<R.Send>, after: seq<R.Send>, sent: seq<Callback>)
    requires SendsOnRecord(before, sent) && (after == before || (|after| == |before| + 1 && before <= after))
    ensures SendsOnRecord(after, sent + NewSends(before, after))
  {
    forall i | 0 <= i < |after|
      ensures OnRecord(sent + NewSends(before, after), Callback(after[i].deliveryId, after[i].payload))
    {
      if i < |before| {
        StaysOnRecord(sent, NewSends(before, after), Callback(before[i].deliveryId, before[i].payload));
      } else {
        LastIsOnRecord(sent, Callback(after[i].deliveryId, after[i].payload));
      }
    }
  }

  lemma {:induction false} RetrySends(cfg: R.Config, r: R.World, step: R.Step)
    requires R.Enabled(cfg, r, step) && !step.Insert?
    ensures var t := R.Apply(cfg, r, step);
            t.inserted == r.inserted && (t.sends == r.sends || (|t.sends| == |r.sends| + 1 && r.sends <= t.sends))
  {
  }

  lemma {:induction false} RetryOnRecord(cfg: R.Config, w: World, step: Step)
    requires DeliveriesOnRecord(w) && Enabled(cfg, w, step) && step.Retry?
    ensures DeliveriesOnRecord(Apply(cfg, w, step))
  {
    var t := Apply(cfg, w, step);
    RetrySends(cfg, w.retriers, step.retry);
    SendsStayOnRecord(w.retriers.sends, t.retriers.sends, w.sent);
    AddedToRecord(w, NewSends(w.retriers.sends, t.retriers.sends));
    forall worker | worker in t.drafts
      ensures DraftOnRecord(C.PhaseOf(t.service, worker), t.drafts[worker], t.sent)
    {
      assert C.PhaseOf(t.service, worker) == C.PhaseOf(w.service, worker);
      assert DraftOnRecord(C.PhaseOf(w.service, worker), w.drafts[worker], t.sent);
    }
  }

  lemma {:induction false} RecordOnRecord(cfg: R.Config, w: World, step: Step)
    requires DeliveriesOnRecord(w) && DraftsFresh(w) && Enabled(cfg, w, step) && step.Record?
    ensures DeliveriesOnRecord(Apply(cfg, w, step))
  {
    var t := Apply(cfg, w, step);
    var p, draft := C.PhaseOf(w.service, step.worker), w.drafts[step.worker];
    assert Stored(t.retriers.rows[step.row]) == CallbackOf(p, draft.deliveryId) && DraftOnRecord(p, draft, w.sent);
    forall worker | worker in t.drafts
      ensures DraftOnRecord(C.PhaseOf(t.service, worker), t.drafts[worker], t.sent)
    {
      assert DraftOnRecord(C.PhaseOf(w.service, worker), w.drafts[worker], w.sent);
    }
  }

  lemma {:induction false} ServeOnRecord(cfg: R.Config, w: World, step: Step)
    requires DeliveriesOnRecord(w) && DraftsFresh(w) && Enabled(cfg, w, step) && step.Serve?
    ensures DeliveriesOnRecord(Apply(cfg, w, step))
  {
    var t := Apply(cfg, w, step);
    forall worker | worker in t.drafts
      ensures DraftOnRecord(C.PhaseOf(t.service, worker), t.drafts[worker], t.sent)
    {
      NotifierWaits(w.service, step.check, worker);
      assert DraftOnRecord(C.PhaseOf(w.service, worker), w.drafts[worker], w.sent);
    }
  }

  lemma {:induction false} RunKeepsRecord(cfg: R.Config, steps: seq<Step>)
    requires Run(cfg, steps).Some?
    ensures DeliveriesOnRecord(Run(cfg, steps).value)
  {
    if steps != [] {
      var before, step := steps[..|steps| - 1], steps[|steps| - 1];
      RunKeepsRecord(cfg, before);
      RunRefinesBoth(cfg, before);
      match step
      case Serve(_) => ServeOnRecord(cfg, Run(cfg, before).value, step);
      case FirstAttempt(_, _, _) => FirstAttemptOnRecord(cfg, Run(cfg, before).value, step);
      case Record(_, _, _) => RecordOnRecord(cfg, Run(cfg, before).value, step);
      case Retry(_) => RetryOnRecord(cfg, Run(cfg, before).value, step);
    }
  }

  /** A delivery is marked succeeded only if its very callback was sent, by the first attempt or by a retry. */
  lemma {:induction false} SucceededWasSent(cfg: R.Config, steps: seq<Step>, row: nat)
    requires Run(cfg, steps).Some? && row in Run(cfg, steps).value.service.db.deliveries
    ensures var w := Run(cfg, steps).value;
            w.service.db.deliveries[row].status == Succeeded ==> OnRecord(w.sent, Stored(w.service.db.deliveries[row]))
  {
    RunKeepsRecord(cfg, steps);
    RunRefinesBoth(cfg, steps);
    var w := Run(cfg, steps).value;
    var retries :| R.Run(cfg, retries) == Some(w.retriers);
    R.RunKeepsCounts(cfg, retries);
    if w.retriers.rows[row].status == Succeeded && R.WasSent(w.retriers, row) {
      var i :| 0 <= i < |w.retriers.sends| && w.retriers.sends[i].id == row;
      assert R.IsMessageOf(w.retriers.inserted, row, w.retriers.sends[i].deliveryId, w.retriers.sends[i].payload);
      assert R.SameMessage(w.retriers.rows[row], w.retriers.inserted[row]);
    }
  }
}
