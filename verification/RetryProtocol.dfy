/** Automatic and manual webhook retriers, interleaved in any order, over one delivery table.
    A retrier reads its clock, claims the row with one conditional UPDATE, starts a five second
    context for the outcome write, dispatches, and saves the whole row under a row lock. */
module RetryProtocol {
  import opened Results
  import opened ModerationTypes
  import opened Deliveries

  /** skew: how far a worker's clock may be from global time.
      delay: the longest time from reading the claim time to starting the write context.
      maxAttempts: the cap of automatic retries, which the service refuses below 2. */
  datatype AnyConfig = Config(skew: nat, delay: nat, maxAttempts: nat)

  type Config = cfg: AnyConfig | cfg.maxAttempts > 1 witness Config(0, 0, 2)

  /** One retrier; every phase after ReadClock remembers the claim time `at` and the moment `read` it was read. */
  datatype Phase =
    | Idle
    | Stamped(id: nat, manual: bool, at: int, read: int)
    | Claimed(id: nat, at: int, read: int, claim: nat)
    | Working(id: nat, at: int, read: int, claim: nat, deadline: int, deliveryId: string, payload: Payload,
              ended: Option<Dispatch>)
    | Writing(id: nat, at: int, read: int, claim: nat, deadline: int, row: Delivery, dispatch: Dispatch,
              writtenAt: int)

  datatype Claim = Claim(id: nat, worker: nat, manual: bool, at: int)

  /** A landed outcome write: the claim of the writer, the latest claim on the row, the status it replaced, and how the
      writer's attempt had ended. */
  datatype Write = Write(id: nat, claim: nat, latest: int, replaced: Status, dispatch: Dispatch)

  datatype Send = Send(id: nat, deliveryId: string, payload: Payload)

  datatype World = World(
    clock: int,
    rows: Rows,
    inserted: Rows,
    locks: map<nat, nat>,
    phases: map<nat, Phase>,
    claims: seq<Claim>,
    writes: seq<Write>,
    sends: seq<Send>)

  datatype Step =
    | Tick(elapsed: nat)
    | Insert(id: nat, delivery: Delivery)
    | ReadClock(worker: nat, id: nat, manual: bool, at: int)
    | ClaimRowStep(worker: nat)
    | StartAttempt(worker: nat)
    | Attempt(worker: nat, dispatch: Dispatch)
    | LockRow(worker: nat, writtenAt: int)
    | SaveRow(worker: nat)
    | Abandon(worker: nat)

  const START := World(0, map[], map[], map[], map[], [], [], [])

  function PhaseOf(s: World, worker: nat): Phase {
    if worker in s.phases then s.phases[worker] else Idle
  }

  function MaxAttemptsFor(cfg: Config, manual: bool): int {
    if manual then 0 else cfg.maxAttempts
  }

  /** Which steps the code, the row locks and the expiring write context allow. */
  predicate Enabled(cfg: Config, s: World, step: Step) {
    match step
    case Tick(_) => true
    case Insert(id, d) =>
      id !in s.rows && d.attemptCount == 1 && d.status != Retrying
      && forall other :: other in s.rows ==> s.rows[other].deliveryId != d.deliveryId
    case ReadClock(w, _, _, at) =>
      PhaseOf(s, w).Idle? && s.clock - cfg.skew <= at <= s.clock + cfg.skew
    case ClaimRowStep(w) =>
      var p := PhaseOf(s, w);
      p.Stamped? && p.id !in s.locks
    case StartAttempt(w) =>
      var p := PhaseOf(s, w);
      p.Claimed? && s.clock <= p.read + cfg.delay && p.id in s.rows
    case Attempt(w, _) =>
      var p := PhaseOf(s, w);
      p.Working? && p.ended.None?
    case LockRow(w, _) =>
      var p := PhaseOf(s, w);
      p.Working? && p.ended.Some? && p.id !in s.locks && p.id in s.rows && s.clock <= p.deadline
    case SaveRow(w) =>
      var p := PhaseOf(s, w);
      p.Writing? && s.clock <= p.deadline
    case Abandon(w) => true
  }

  function Apply(cfg: Config, s: World, step: Step): World
    requires Enabled(cfg, s, step)
  {
    match step
    case Tick(elapsed) => s.(clock := s.clock + elapsed)
    case Insert(id, d) => s.(rows := s.rows[id := d], inserted := s.inserted[id := d])
    case ReadClock(w, id, manual, at) => SetPhase(s, w, Stamped(id, manual, at, s.clock))
    case ClaimRowStep(w) =>
      var p := PhaseOf(s, w);
      if p.id in s.rows && Claimable(s.rows[p.id], MaxAttemptsFor(cfg, p.manual), p.at) then
        SetPhase(s, w, Claimed(p.id, p.at, p.read, |s.claims|))
        .(rows := s.rows[p.id := ClaimRow(s.rows[p.id], p.at)],
          claims := s.claims + [Claim(p.id, w, p.manual, p.at)])
      else
        SetPhase(s, w, Idle)
    case StartAttempt(w) =>
      var p := PhaseOf(s, w);
      var row := s.rows[p.id];
      SetPhase(s, w, Working(p.id, p.at, p.read, p.claim, s.clock + STATUS_UPDATE_TIMEOUT,
                             row.deliveryId, row.payload, None))
    case Attempt(w, dispatch) =>
      var p := PhaseOf(s, w);
      SetPhase(s, w, p.(ended := Some(dispatch)))
      .(sends := if Reached(dispatch) then s.sends + [Send(p.id, p.deliveryId, p.payload)] else s.sends)
    case LockRow(w, writtenAt) =>
      var p := PhaseOf(s, w);
      SetPhase(s, w, Writing(p.id, p.at, p.read, p.claim, p.deadline, s.rows[p.id], p.ended.value, writtenAt))
      .(locks := s.locks[p.id := w])
    case SaveRow(w) =>
      var p := PhaseOf(s, w);
      var replaced := if p.id in s.rows then s.rows[p.id].status else p.row.status;
      SetPhase(s, w, Idle)
      .(rows := s.rows[p.id := OutcomeRow(p.row, RecordedOutcome(p.dispatch), p.writtenAt)],
        locks := s.locks - {p.id},
        writes := s.writes + [Write(p.id, p.claim, LatestClaim(s.claims, p.id), replaced, p.dispatch)])
    case Abandon(w) =>
      var p := PhaseOf(s, w);
      SetPhase(s, w, Idle).(locks := if p.Writing? then s.locks - {p.id} else s.locks)
  }

  function SetPhase(s: World, worker: nat, phase: Phase): World {
    s.(phases := s.phases[worker := phase])
  }

  /** The state after a run, or None when some step was not enabled. */
  function Run(cfg: Config, steps: seq<Step>): Option<World> {
    if steps == [] then Some(START)
    else
      var before := Run(cfg, steps[..|steps| - 1]);
      var step := steps[|steps| - 1];
      if before.Some? && Enabled(cfg, before.value, step) then Some(Apply(cfg, before.value, step)) else None
  }

  ghost predicate Reachable(cfg: Config, s: World) {
    exists steps :: Run(cfg, steps) == Some(s)
  }

  // ---------- Counting claims ----------

  function LatestClaim(claims: seq<Claim>, id: nat): (latest: int)
    ensures -1 <= latest < |claims|
    ensures latest >= 0 ==> claims[latest].id == id
    ensures forall i :: latest < i < |claims| ==> claims[i].id != id
  {
    if claims == [] then -1
    else if claims[|claims| - 1].id == id then |claims| - 1
    else LatestClaim(claims[..|claims| - 1], id)
  }

  function ClaimsOn(claims: seq<Claim>, id: nat): nat {
    if claims == [] then 0
    else ClaimsOn(claims[..|claims| - 1], id) + if claims[|claims| - 1].id == id then 1 else 0
  }

  function AutoClaimsOn(claims: seq<Claim>, id: nat): nat {
    if claims == [] then 0
    else
      var last := claims[|claims| - 1];
      AutoClaimsOn(claims[..|claims| - 1], id) + if last.id == id && !last.manual then 1 else 0
  }

  lemma CountsAfterClaim(claims: seq<Claim>, claim: Claim, id: nat)
    ensures LatestClaim(claims + [claim], id) == if claim.id == id then |claims| else LatestClaim(claims, id)
    ensures ClaimsOn(claims + [claim], id) == ClaimsOn(claims, id) + if claim.id == id then 1 else 0
    ensures AutoClaimsOn(claims + [claim], id) ==
            AutoClaimsOn(claims, id) + if claim.id == id && !claim.manual then 1 else 0
  {
    assert (claims + [claim])[..|claims|] == claims;
  }

  // ---------- What every run keeps, whatever the clocks do ----------

  predicate HoldsLock(s: World, worker: nat, id: nat) {
    PhaseOf(s, worker).Writing? && PhaseOf(s, worker).id == id
  }

  /** A lock belongs to the one worker writing that row, and the row has not moved since it was read. */
  ghost predicate LocksGuardRows(s: World) {
    && (forall id :: id in s.locks ==> HoldsLock(s, s.locks[id], id))
    && (forall w, id :: HoldsLock(s, w, id) ==>
          id in s.locks && s.locks[id] == w && id in s.rows && s.rows[id] == PhaseOf(s, w).row)
  }

  /** attempt_count is one plus the committed claims, and automatic claims stop below the cap. */
  predicate RowCounted(cfg: Config, rows: Rows, claims: seq<Claim>, id: nat) {
    && (id in rows ==> rows[id].attemptCount == 1 + ClaimsOn(claims, id))
    && AutoClaimsOn(claims, id) <= ClaimsOn(claims, id)
    && AutoClaimsOn(claims, id) < cfg.maxAttempts
  }

  ghost predicate AttemptsCounted(cfg: Config, s: World) {
    && (forall c :: 0 <= c < |s.claims| ==> s.claims[c].id in s.rows)
    && (forall id :: RowCounted(cfg, s.rows, s.claims, id))
  }

  predicate SameMessage(a: Delivery, b: Delivery) {
    a.deliveryId == b.deliveryId && a.payload == b.payload && a.requestId == b.requestId && a.clientId == b.clientId
  }

  /** Rows never go away or change their message, and no two rows share a delivery id. */
  ghost predicate RowsStable(s: World) {
    && s.rows.Keys == s.inserted.Keys
    && (forall id :: id in s.rows ==> SameMessage(s.rows[id], s.inserted[id]))
    && (forall a, b :: a in s.rows && b in s.rows && a != b ==> s.rows[a].deliveryId != s.rows[b].deliveryId)
  }

  predicate IsMessageOf(inserted: Rows, id: nat, deliveryId: string, payload: Payload) {
    id in inserted && deliveryId == inserted[id].deliveryId && payload == inserted[id].payload
  }

  /** Everything sent, or about to be sent, is the message the row was inserted with. */
  ghost predicate SendsFaithful(s: World) {
    && (forall i :: 0 <= i < |s.sends| ==>
          IsMessageOf(s.inserted, s.sends[i].id, s.sends[i].deliveryId, s.sends[i].payload))
    && WorkersFaithful(s)
  }

  ghost predicate WorkersFaithful(s: World) {
    forall w :: PhaseOf(s, w).Working? ==>
      IsMessageOf(s.inserted, PhaseOf(s, w).id, PhaseOf(s, w).deliveryId, PhaseOf(s, w).payload)
  }

  ghost predicate WasSent(s: World, id: nat) {
    exists i :: 0 <= i < |s.sends| && s.sends[i].id == id
  }

  /** The attempt a phase is about to record. */
  function Ended(p: Phase): Option<Dispatch> {
    if p.Working? then p.ended else if p.Writing? then Some(p.dispatch) else None
  }

  /** Nobody records success for a message that was not dispatched. */
  ghost predicate SuccessWasSent(s: World) {
    && (forall id :: id in s.rows && s.rows[id].status == Succeeded ==>
          (id in s.inserted && s.inserted[id].status == Succeeded) || WasSent(s, id))
    && PendingSuccessWasSent(s)
  }

  predicate RecordsSuccess(p: Phase) {
    Ended(p) == Some(Dispatched(Delivered))
  }

  ghost predicate PendingSuccessWasSent(s: World) {
    forall w :: RecordsSuccess(PhaseOf(s, w)) ==> WasSent(s, PhaseOf(s, w).id)
  }

  /** A step that neither takes nor gives back a lock, and changes no locked row. */
  lemma {:induction false} LocksUntouched(s: World, t: World)
    requires LocksGuardRows(s) && t.locks == s.locks
    requires forall w, id :: HoldsLock(t, w, id) <==> HoldsLock(s, w, id)
    requires forall w :: PhaseOf(s, w).Writing? ==> PhaseOf(t, w) == PhaseOf(s, w)
    requires forall id :: id in s.locks && id in s.rows ==> id in t.rows && t.rows[id] == s.rows[id]
    ensures LocksGuardRows(t)
  {
  }

  lemma {:induction false} LockKeepsLocks(cfg: Config, s: World, step: Step)
    requires LocksGuardRows(s) && Enabled(cfg, s, step) && step.LockRow?
    ensures LocksGuardRows(Apply(cfg, s, step))
  {
    var t := Apply(cfg, s, step);
    forall w, id
      ensures HoldsLock(t, w, id) <==> HoldsLock(s, w, id) || (w == step.worker && id == PhaseOf(s, w).id)
    {
    }
    assert HoldsLock(t, step.worker, PhaseOf(s, step.worker).id);
  }

  /** Saving or abandoning gives up the worker's own lock and no other. */
  lemma {:induction false} UnlockKeepsLocks(cfg: Config, s: World, step: Step)
    requires LocksGuardRows(s) && Enabled(cfg, s, step) && (step.SaveRow? || (step.Abandon? && PhaseOf(s, step.worker).Writing?))
    ensures LocksGuardRows(Apply(cfg, s, step))
  {
    var t := Apply(cfg, s, step);
    assert HoldsLock(s, step.worker, PhaseOf(s, step.worker).id);
    forall w, id
      ensures HoldsLock(t, w, id) <==> HoldsLock(s, w, id) && w != step.worker
    {
    }
  }

  lemma {:induction false} LocksGuardRowsStep(cfg: Config, s: World, step: Step)
    requires LocksGuardRows(s) && Enabled(cfg, s, step)
    ensures LocksGuardRows(Apply(cfg, s, step))
  {
    if step.LockRow? {
      LockKeepsLocks(cfg, s, step);
    } else if step.SaveRow? || (step.Abandon? && PhaseOf(s, step.worker).Writing?) {
      UnlockKeepsLocks(cfg, s, step);
    } else {
      LocksUntouched(s, Apply(cfg, s, step));
    }
  }

  lemma RowCountedAfterClaim(cfg: Config, rows: Rows, claims: seq<Claim>, claim: Claim, id: nat)
    requires RowCounted(cfg, rows, claims, id)
    requires claim.id in rows && Claimable(rows[claim.id], MaxAttemptsFor(cfg, claim.manual), claim.at)
    ensures RowCounted(cfg, rows[claim.id := ClaimRow(rows[claim.id], claim.at)], claims + [claim], id)
  {
    CountsAfterClaim(claims, claim, id);
  }

  lemma {:induction false} AttemptsCountedStep(cfg: Config, s: World, step: Step)
    requires LocksGuardRows(s) && AttemptsCounted(cfg, s) && Enabled(cfg, s, step)
    ensures AttemptsCounted(cfg, Apply(cfg, s, step))
  {
    var t := Apply(cfg, s, step);
    if step.Insert? {
      NoClaimsOn(s.claims, step.id);
    } else if step.SaveRow? {
      assert HoldsLock(s, step.worker, PhaseOf(s, step.worker).id);
    }
    forall id
      ensures RowCounted(cfg, t.rows, t.claims, id)
    {
      assert RowCounted(cfg, s.rows, s.claims, id);
      if step.ClaimRowStep? && t.claims != s.claims {
        RowCountedAfterClaim(cfg, s.rows, s.claims, t.claims[|s.claims|], id);
      }
    }
  }

  lemma {:induction false} NoClaimsOn(claims: seq<Claim>, id: nat)
    requires forall c :: 0 <= c < |claims| ==> claims[c].id != id
    ensures ClaimsOn(claims, id) == 0
  {
    if claims != [] {
      NoClaimsOn(claims[..|claims| - 1], id);
    }
  }

  lemma {:induction false} InsertKeepsRowsStable(cfg: Config, s: World, step: Step)
    requires RowsStable(s) && Enabled(cfg, s, step) && step.Insert?
    ensures RowsStable(Apply(cfg, s, step))
  {
  }

  lemma {:induction false} ClaimKeepsRowsStable(cfg: Config, s: World, worker: nat)
    requires RowsStable(s) && Enabled(cfg, s, ClaimRowStep(worker))
    ensures RowsStable(Apply(cfg, s, ClaimRowStep(worker)))
  {
  }

  /** The saved row is the locked one with a new outcome. */
  lemma {:induction false} SaveKeepsRowsStable(cfg: Config, s: World, worker: nat)
    requires LocksGuardRows(s) && RowsStable(s) && Enabled(cfg, s, SaveRow(worker))
    ensures RowsStable(Apply(cfg, s, SaveRow(worker)))
  {
    assert HoldsLock(s, worker, PhaseOf(s, worker).id);
  }

  lemma {:induction false} RowsStableStep(cfg: Config, s: World, step: Step)
    requires LocksGuardRows(s) && RowsStable(s) && Enabled(cfg, s, step)
    ensures RowsStable(Apply(cfg, s, step))
  {
    match step
    case Insert(_, _) => InsertKeepsRowsStable(cfg, s, step);
    case ClaimRowStep(w) => ClaimKeepsRowsStable(cfg, s, w);
    case SaveRow(w) => SaveKeepsRowsStable(cfg, s, w);
    case _ =>
      var t := Apply(cfg, s, step);
      assert t.rows == s.rows && t.inserted == s.inserted;
  }

  /** A worker starts with the message of its row. */
  lemma {:induction false} StartsFaithfully(cfg: Config, s: World, worker: nat)
    requires RowsStable(s) && WorkersFaithful(s) && Enabled(cfg, s, StartAttempt(worker))
    ensures WorkersFaithful(Apply(cfg, s, StartAttempt(worker)))
  {
    var t := Apply(cfg, s, StartAttempt(worker));
    assert SameMessage(s.rows[PhaseOf(s, worker).id], s.inserted[PhaseOf(s, worker).id]);
    forall w | PhaseOf(t, w).Working?
      ensures IsMessageOf(t.inserted, PhaseOf(t, w).id, PhaseOf(t, w).deliveryId, PhaseOf(t, w).payload)
    {
      assert w != worker ==> PhaseOf(t, w) == PhaseOf(s, w);
    }
  }

  lemma {:induction false} WorkersFaithfulStep(cfg: Config, s: World, step: Step)
    requires RowsStable(s) && WorkersFaithful(s) && Enabled(cfg, s, step)
    ensures WorkersFaithful(Apply(cfg, s, step))
  {
    if step.StartAttempt? {
      StartsFaithfully(cfg, s, step.worker);
    } else {
      var t := Apply(cfg, s, step);
      forall w | PhaseOf(t, w).Working?
        ensures IsMessageOf(t.inserted, PhaseOf(t, w).id, PhaseOf(t, w).deliveryId, PhaseOf(t, w).payload)
      {
        assert PhaseOf(s, w).Working? && PhaseOf(t, w).id == PhaseOf(s, w).id;
      }
    }
  }

  lemma {:induction false} SendsFaithfulStep(cfg: Config, s: World, step: Step)
    requires RowsStable(s) && SendsFaithful(s) && Enabled(cfg, s, step)
    ensures SendsFaithful(Apply(cfg, s, step))
  {
    var t := Apply(cfg, s, step);
    WorkersFaithfulStep(cfg, s, step);
    forall i | 0 <= i < |t.sends|
      ensures IsMessageOf(t.inserted, t.sends[i].id, t.sends[i].deliveryId, t.sends[i].payload)
    {
      assert i < |s.sends| || step.Attempt?;
    }
  }

  lemma {:induction false} StaysSent(cfg: Config, s: World, step: Step, id: nat)
    requires Enabled(cfg, s, step) && WasSent(s, id)
    ensures WasSent(Apply(cfg, s, step), id)
  {
    var i :| 0 <= i < |s.sends| && s.sends[i].id == id;
    assert Apply(cfg, s, step).sends[i] == s.sends[i];
  }

  lemma {:induction false} PendingSuccessWasSentStep(cfg: Config, s: World, step: Step)
    requires PendingSuccessWasSent(s) && Enabled(cfg, s, step)
    ensures PendingSuccessWasSent(Apply(cfg, s, step))
  {
    var t := Apply(cfg, s, step);
    forall w | RecordsSuccess(PhaseOf(t, w))
      ensures WasSent(t, PhaseOf(t, w).id)
    {
      if RecordsSuccess(PhaseOf(s, w)) && PhaseOf(s, w).id == PhaseOf(t, w).id {
        StaysSent(cfg, s, step, PhaseOf(s, w).id);
      } else {
        assert step.Attempt? && Reached(step.dispatch) && t.sends[|s.sends|].id == PhaseOf(t, w).id;
      }
    }
  }

  lemma {:induction false} SuccessWasSentStep(cfg: Config, s: World, step: Step)
    requires SuccessWasSent(s) && RowsStable(s) && Enabled(cfg, s, step)
    ensures SuccessWasSent(Apply(cfg, s, step))
  {
    var t := Apply(cfg, s, step);
    PendingSuccessWasSentStep(cfg, s, step);
    forall id | id in t.rows && t.rows[id].status == Succeeded
      ensures (id in t.inserted && t.inserted[id].status == Succeeded) || WasSent(t, id)
    {
      if WasSent(s, id) {
        StaysSent(cfg, s, step, id);
      } else if step.SaveRow? {
        assert RecordsSuccess(PhaseOf(s, step.worker)) ==> WasSent(s, PhaseOf(s, step.worker).id);
      }
    }
  }

  lemma {:induction false} RunKeepsCounts(cfg: Config, steps: seq<Step>)
    requires Run(cfg, steps).Some?
    ensures var s := Run(cfg, steps).value;
            LocksGuardRows(s) && AttemptsCounted(cfg, s) && RowsStable(s) && SendsFaithful(s) && SuccessWasSent(s)
  {
    if steps != [] {
      var before := steps[..|steps| - 1];
      RunKeepsCounts(cfg, before);
      LocksGuardRowsStep(cfg, Run(cfg, before).value, steps[|steps| - 1]);
      AttemptsCountedStep(cfg, Run(cfg, before).value, steps[|steps| - 1]);
      RowsStableStep(cfg, Run(cfg, before).value, steps[|steps| - 1]);
      SendsFaithfulStep(cfg, Run(cfg, before).value, steps[|steps| - 1]);
      SuccessWasSentStep(cfg, Run(cfg, before).value, steps[|steps| - 1]);
    }
  }

  // ---------- What a settled row shows ----------

  function LastWrite(writes: seq<Write>, id: nat): (last: int)
    ensures -1 <= last < |writes|
    ensures last >= 0 ==> writes[last].id == id
    ensures forall i :: last < i < |writes| ==> writes[i].id != id
  {
    if writes == [] then -1
    else if writes[|writes| - 1].id == id then |writes| - 1
    else LastWrite(writes[..|writes| - 1], id)
  }

  /** A row nobody is retrying shows its last recorded attempt, or the one it was inserted with. */
  predicate RowShowsLastAttempt(rows: Rows, inserted: Rows, writes: seq<Write>, id: nat) {
    id in rows && rows[id].status != Retrying ==>
      var last := LastWrite(writes, id);
      if last >= 0 then Shows(rows[id], writes[last].dispatch) else id in inserted && rows[id] == inserted[id]
  }

  ghost predicate RowsShowLastAttempts(s: World) {
    && (forall i :: 0 <= i < |s.writes| ==> s.writes[i].id in s.rows)
    && forall id :: RowShowsLastAttempt(s.rows, s.inserted, s.writes, id)
  }

  lemma {:induction false} SavedRowShows(cfg: Config, s: World, worker: nat, id: nat)
    requires LocksGuardRows(s) && Enabled(cfg, s, SaveRow(worker))
    requires RowShowsLastAttempt(s.rows, s.inserted, s.writes, id)
    ensures var t := Apply(cfg, s, SaveRow(worker));
            PhaseOf(s, worker).id in s.rows && RowShowsLastAttempt(t.rows, t.inserted, t.writes, id)
  {
    var t := Apply(cfg, s, SaveRow(worker));
    assert HoldsLock(s, worker, PhaseOf(s, worker).id);
    assert t.writes[..|s.writes|] == s.writes;
  }

  lemma {:induction false} RowsShowStep(cfg: Config, s: World, step: Step)
    requires LocksGuardRows(s) && RowsShowLastAttempts(s) && Enabled(cfg, s, step)
    ensures RowsShowLastAttempts(Apply(cfg, s, step))
  {
    var t := Apply(cfg, s, step);
    forall id
      ensures RowShowsLastAttempt(t.rows, t.inserted, t.writes, id)
    {
      assert RowShowsLastAttempt(s.rows, s.inserted, s.writes, id);
      if step.SaveRow? {
        SavedRowShows(cfg, s, step.worker, id);
      }
    }
    if step.SaveRow? {
      SavedRowShows(cfg, s, step.worker, PhaseOf(s, step.worker).id);
    }
  }

  /** In every run a row that is not being retried shows how its last recorded attempt ended. */
  lemma {:induction false} SettledRowsShowTheirLastAttempt(cfg: Config, steps: seq<Step>)
    requires Run(cfg, steps).Some?
    ensures RowsShowLastAttempts(Run(cfg, steps).value)
  {
    if steps != [] {
      var before := steps[..|steps| - 1];
      SettledRowsShowTheirLastAttempt(cfg, before);
      RunKeepsCounts(cfg, before);
      RowsShowStep(cfg, Run(cfg, before).value, steps[|steps| - 1]);
    }
  }

  /** For every interleaving, however late writes land: attempt_count counts the committed claims, automatic
      claims on a row stay below the cap, every retry resends the inserted message under its delivery id, and
      no row is marked succeeded without a dispatch. */
  lemma {:induction false} NoAttemptIsLost(cfg: Config, s: World)
    requires Reachable(cfg, s)
    ensures s.rows.Keys == s.inserted.Keys
    ensures forall id :: id in s.rows ==> s.rows[id].attemptCount == 1 + ClaimsOn(s.claims, id)
    ensures forall id :: AutoClaimsOn(s.claims, id) <= cfg.maxAttempts - 1
    ensures forall id :: id in s.rows ==> SameMessage(s.rows[id], s.inserted[id])
    ensures forall i :: 0 <= i < |s.sends| ==>
              IsMessageOf(s.inserted, s.sends[i].id, s.sends[i].deliveryId, s.sends[i].payload)
    ensures forall id :: id in s.rows && s.rows[id].status == Succeeded ==>
              s.inserted[id].status == Succeeded || WasSent(s, id)
  {
    var steps :| Run(cfg, steps) == Some(s);
    RunKeepsCounts(cfg, steps);
    forall id
      ensures id in s.rows ==> s.rows[id].attemptCount == 1 + ClaimsOn(s.claims, id)
      ensures AutoClaimsOn(s.claims, id) <= cfg.maxAttempts - 1
    {
      assert RowCounted(cfg, s.rows, s.claims, id);
    }
  }

  // ---------- Automatic retrying stops ----------

  function AutoTotal(claims: seq<Claim>): nat {
    if claims == [] then 0
    else AutoTotal(claims[..|claims| - 1]) + if claims[|claims| - 1].manual then 0 else 1
  }

  function ClaimsOff(claims: seq<Claim>, id: nat): seq<Claim> {
    if claims == [] then []
    else ClaimsOff(claims[..|claims| - 1], id) + if claims[|claims| - 1].id == id then [] else [claims[|claims| - 1]]
  }

  lemma {:induction false} AutoTotalSplits(claims: seq<Claim>, id: nat)
    ensures AutoTotal(claims) == AutoClaimsOn(claims, id) + AutoTotal(ClaimsOff(claims, id))
    ensures forall other :: AutoClaimsOn(ClaimsOff(claims, id), other) <= AutoClaimsOn(claims, other)
    ensures forall c :: c in ClaimsOff(claims, id) ==> c in claims && c.id != id
  {
    if claims != [] {
      var front, last := claims[..|claims| - 1], claims[|claims| - 1];
      AutoTotalSplits(front, id);
      var off := ClaimsOff(front, id);
      if last.id != id {
        assert (off + [last])[..|off|] == off;
        forall other {
          CountsAfterClaim(off, last, other);
        }
      } else {
        assert off + [] == off;
      }
    }
  }

  lemma {:induction false} AutoTotalBound(claims: seq<Claim>, ids: set<nat>, each: nat)
    requires forall i :: 0 <= i < |claims| ==> claims[i].id in ids
    requires forall id :: AutoClaimsOn(claims, id) <= each
    ensures AutoTotal(claims) <= each * |ids|
    decreases ids
  {
    if ids == {} {
    } else {
      var id :| id in ids;
      AutoTotalSplits(claims, id);
      forall i | 0 <= i < |ClaimsOff(claims, id)|
        ensures ClaimsOff(claims, id)[i].id in ids - {id}
      {
        assert ClaimsOff(claims, id)[i] in ClaimsOff(claims, id);
      }
      AutoTotalBound(ClaimsOff(claims, id), ids - {id}, each);
      assert each * |ids| == each * |ids - {id}| + each;
    }
  }

  /** However many batches run and whatever operators retry by hand, the automatic claims of a run are
      bounded by the rows it created, so automatic retrying stops. */
  lemma {:induction false} AutomaticRetriesStop(cfg: Config, s: World)
    requires Reachable(cfg, s)
    ensures AutoTotal(s.claims) <= (cfg.maxAttempts - 1) * |s.rows|
  {
    var steps :| Run(cfg, steps) == Some(s);
    RunKeepsCounts(cfg, steps);
    forall id
      ensures AutoClaimsOn(s.claims, id) <= cfg.maxAttempts - 1
    {
      assert RowCounted(cfg, s.rows, s.claims, id);
    }
    AutoTotalBound(s.claims, s.rows.Keys, cfg.maxAttempts - 1);
  }

  // ---------- Lease exclusivity ----------

  /** The write context expires before any other worker can see the lease as stale. */
  predicate DelayFitsLease(cfg: Config) {
    cfg.delay + STATUS_UPDATE_TIMEOUT + 2 * cfg.skew <= RETRY_LEASE
  }

  predicate Holding(p: Phase) {
    p.Claimed? || p.Working? || p.Writing?
  }

  /** A claim whose outcome write can still land. */
  predicate Live(cfg: Config, s: World, worker: nat) {
    var p := PhaseOf(s, worker);
    (p.Claimed? && s.clock <= p.read + cfg.delay) || ((p.Working? || p.Writing?) && s.clock <= p.deadline)
  }

  predicate HolderFenced(cfg: Config, s: World, worker: nat) {
    var p := PhaseOf(s, worker);
    Holding(p) ==>
      && p.claim < |s.claims|
      && s.claims[p.claim] == Claim(p.id, worker, s.claims[p.claim].manual, p.at)
      && p.id in s.rows
      && p.read - cfg.skew <= p.at
      && (p.claim == LatestClaim(s.claims, p.id) ==>
            s.rows[p.id].status == Retrying && s.rows[p.id].lastAttemptAt == p.at)
      && (p.claim != LatestClaim(s.claims, p.id) ==> s.clock + cfg.skew > p.at + RETRY_LEASE)
      && (!p.Claimed? ==> p.deadline <= p.read + cfg.delay + STATUS_UPDATE_TIMEOUT)
  }

  /** A holder whose row was taken over is already past its lease. */
  ghost predicate TakeoversAreLate(cfg: Config, s: World) {
    && (forall w :: HolderFenced(cfg, s, w))
    && (forall w :: PhaseOf(s, w).Stamped? ==>
          PhaseOf(s, w).at <= s.clock + cfg.skew && PhaseOf(s, w).read - cfg.skew <= PhaseOf(s, w).at)
  }

  ghost predicate WritesOwnTheirClaims(s: World) {
    forall i :: 0 <= i < |s.writes| ==> s.writes[i].claim == s.writes[i].latest && s.writes[i].replaced == Retrying
  }

  lemma LiveHolderIsLatest(cfg: Config, s: World, worker: nat)
    requires DelayFitsLease(cfg) && TakeoversAreLate(cfg, s) && Live(cfg, s, worker)
    ensures PhaseOf(s, worker).claim == LatestClaim(s.claims, PhaseOf(s, worker).id)
  {
    assert HolderFenced(cfg, s, worker);
  }

  lemma NewHolderFenced(cfg: Config, s: World, claimer: nat)
    requires TakeoversAreLate(cfg, s) && Enabled(cfg, s, ClaimRowStep(claimer))
    ensures HolderFenced(cfg, Apply(cfg, s, ClaimRowStep(claimer)), claimer)
  {
    var t := Apply(cfg, s, ClaimRowStep(claimer));
    if t.claims != s.claims {
      CountsAfterClaim(s.claims, t.claims[|s.claims|], PhaseOf(t, claimer).id);
    }
  }

  /** A takeover of a row still held needs a clock already past the holder's lease. */
  lemma OldHolderFenced(cfg: Config, s: World, claimer: nat, worker: nat)
    requires worker != claimer && TakeoversAreLate(cfg, s) && Enabled(cfg, s, ClaimRowStep(claimer))
    ensures HolderFenced(cfg, Apply(cfg, s, ClaimRowStep(claimer)), worker)
  {
    var t := Apply(cfg, s, ClaimRowStep(claimer));
    assert HolderFenced(cfg, s, worker);
    var p, c := PhaseOf(s, worker), PhaseOf(s, claimer);
    assert PhaseOf(t, worker) == p;
    if t.claims != s.claims && Holding(p) {
      CountsAfterClaim(s.claims, t.claims[|s.claims|], p.id);
      if p.id == c.id && p.claim == LatestClaim(s.claims, p.id) {
        assert p.at < c.at - RETRY_LEASE && c.at <= s.clock + cfg.skew;
      }
    }
  }

  lemma HolderFencedSave(cfg: Config, s: World, saver: nat, worker: nat)
    requires DelayFitsLease(cfg) && TakeoversAreLate(cfg, s) && Enabled(cfg, s, SaveRow(saver))
    ensures HolderFenced(cfg, Apply(cfg, s, SaveRow(saver)), worker)
  {
    LiveHolderIsLatest(cfg, s, saver);
    assert HolderFenced(cfg, s, saver) && HolderFenced(cfg, s, worker);
  }

  lemma HolderFencedStep(cfg: Config, s: World, step: Step, worker: nat)
    requires TakeoversAreLate(cfg, s) && Enabled(cfg, s, step)
    requires !step.ClaimRowStep? && !step.SaveRow?
    ensures HolderFenced(cfg, Apply(cfg, s, step), worker)
  {
    assert HolderFenced(cfg, s, worker);
  }

  lemma {:induction false} TakeoversAreLateStep(cfg: Config, s: World, step: Step)
    requires DelayFitsLease(cfg) && TakeoversAreLate(cfg, s) && Enabled(cfg, s, step)
    ensures TakeoversAreLate(cfg, Apply(cfg, s, step))
  {
    var t := Apply(cfg, s, step);
    forall w
      ensures HolderFenced(cfg, t, w)
    {
      match step
      case ClaimRowStep(claimer) =>
        if w == claimer {
          NewHolderFenced(cfg, s, claimer);
        } else {
          OldHolderFenced(cfg, s, claimer, w);
        }
      case SaveRow(saver) => HolderFencedSave(cfg, s, saver, w);
      case _ => HolderFencedStep(cfg, s, step, w);
    }
    forall w | PhaseOf(t, w).Stamped?
      ensures PhaseOf(t, w).at <= t.clock + cfg.skew && PhaseOf(t, w).read - cfg.skew <= PhaseOf(t, w).at
    {
      assert PhaseOf(s, w).Stamped? || step.ReadClock?;
    }
  }

  lemma WritesOwnTheirClaimsStep(cfg: Config, s: World, step: Step)
    requires DelayFitsLease(cfg) && TakeoversAreLate(cfg, s) && Enabled(cfg, s, step) && WritesOwnTheirClaims(s)
    ensures WritesOwnTheirClaims(Apply(cfg, s, step))
  {
    if step.SaveRow? {
      LiveHolderIsLatest(cfg, s, step.worker);
      assert HolderFenced(cfg, s, step.worker);
    }
  }

  lemma {:induction false} RunKeepsExclusivity(cfg: Config, steps: seq<Step>)
    requires DelayFitsLease(cfg) && Run(cfg, steps).Some?
    ensures var s := Run(cfg, steps).value; TakeoversAreLate(cfg, s) && WritesOwnTheirClaims(s)
  {
    if steps != [] {
      var before, step := steps[..|steps| - 1], steps[|steps| - 1];
      var s := Run(cfg, before).value;
      RunKeepsExclusivity(cfg, before);
      RunKeepsCounts(cfg, before);
      TakeoversAreLateStep(cfg, s, step);
      WritesOwnTheirClaimsStep(cfg, s, step);
    }
  }

  /** When the delay fits the lease, at most one claim per row can still write its outcome, and no step of any
      run takes a row out of succeeded. */
  lemma {:induction false} LeaseIsExclusive(cfg: Config, s: World)
    requires DelayFitsLease(cfg) && Reachable(cfg, s)
    ensures forall a, b :: Live(cfg, s, a) && Live(cfg, s, b) && PhaseOf(s, a).id == PhaseOf(s, b).id ==> a == b
    ensures forall step, id :: Enabled(cfg, s, step) && id in s.rows && s.rows[id].status == Succeeded ==>
              id in Apply(cfg, s, step).rows && Apply(cfg, s, step).rows[id].status == Succeeded
  {
    var steps :| Run(cfg, steps) == Some(s);
    RunKeepsExclusivity(cfg, steps);
    forall a, b | Live(cfg, s, a) && Live(cfg, s, b) && PhaseOf(s, a).id == PhaseOf(s, b).id
      ensures a == b
    {
      LiveHolderIsLatest(cfg, s, a);
      LiveHolderIsLatest(cfg, s, b);
      assert HolderFenced(cfg, s, a) && HolderFenced(cfg, s, b);
    }
    forall step, id | Enabled(cfg, s, step) && id in s.rows && s.rows[id].status == Succeeded
      ensures id in Apply(cfg, s, step).rows && Apply(cfg, s, step).rows[id].status == Succeeded
    {
      if step.SaveRow? {
        LiveHolderIsLatest(cfg, s, step.worker);
        assert HolderFenced(cfg, s, step.worker);
      }
    }
  }

  // ---------- The bound is exact ----------

  lemma ReachByStep(cfg: Config, s: World, step: Step) returns (t: World)
    requires Reachable(cfg, s) && Enabled(cfg, s, step)
    ensures t == Apply(cfg, s, step) && Reachable(cfg, t)
  {
    var steps :| Run(cfg, steps) == Some(s);
    assert (steps + [step])[..|steps|] == steps;
    t := Apply(cfg, s, step);
    assert Run(cfg, steps + [step]) == Some(t);
  }

  /** When worker 1's clock may first call worker 0's lease stale. */
  function TakeoverTime(cfg: Config): nat {
    if RETRY_LEASE - 2 * cfg.skew + 1 >= 0 then RETRY_LEASE - 2 * cfg.skew + 1 else 0
  }

  lemma FirstClaim(cfg: Config) returns (s: World)
    ensures Reachable(cfg, s) && s.clock == 0 && s.locks == map[] && s.writes == [] && PhaseOf(s, 1).Idle?
    ensures 0 in s.rows && s.rows[0].status == Retrying && s.rows[0].lastAttemptAt == 0 - cfg.skew
    ensures PhaseOf(s, 0) == Claimed(0, 0 - cfg.skew, 0, 0) && s.claims == [Claim(0, 0, true, 0 - cfg.skew)]
  {
    var row := Delivery("d", "r", 1, Payload("r", 1, "", Allow, None), Failed, 1, 0, None, "");
    assert Run(cfg, []) == Some(START);
    s := ReachByStep(cfg, START, Insert(0, row));
    s := ReachByStep(cfg, s, ReadClock(0, 0, true, 0 - cfg.skew));
    s := ReachByStep(cfg, s, ClaimRowStep(0));
  }

  lemma SlowClaimer(cfg: Config) returns (s: World)
    requires !DelayFitsLease(cfg)
    ensures Reachable(cfg, s) && s.clock == TakeoverTime(cfg) && s.locks == map[] && s.writes == []
    ensures 0 in s.rows && s.rows[0].status == Retrying && s.rows[0].lastAttemptAt == 0 - cfg.skew
    ensures PhaseOf(s, 0).Working? && PhaseOf(s, 0).id == 0 && PhaseOf(s, 0).ended.None?
    ensures PhaseOf(s, 0).claim == 0 && PhaseOf(s, 0).deadline >= s.clock && PhaseOf(s, 1).Idle?
    ensures s.claims == [Claim(0, 0, true, 0 - cfg.skew)]
  {
    var takeover := TakeoverTime(cfg);
    var started := if cfg.delay <= takeover then cfg.delay else takeover;
    s := FirstClaim(cfg);
    s := ReachByStep(cfg, s, Tick(started));
    s := ReachByStep(cfg, s, StartAttempt(0));
    s := ReachByStep(cfg, s, Tick(takeover - started));
  }

  predicate FirstHolderStillWorking(s: World) {
    var p := PhaseOf(s, 0);
    p.Working? && p.id == 0 && p.ended.None? && p.claim == 0 && p.deadline >= s.clock
  }

  lemma TakeoverStarts(cfg: Config) returns (s: World)
    requires !DelayFitsLease(cfg)
    ensures Reachable(cfg, s) && s.locks == map[] && s.writes == [] && |s.claims| == 2 && s.claims[1].id == 0
    ensures 0 in s.rows && FirstHolderStillWorking(s)
    ensures PhaseOf(s, 1).Working? && PhaseOf(s, 1).id == 0 && PhaseOf(s, 1).ended.None?
    ensures PhaseOf(s, 1).deadline >= s.clock
  {
    s := SlowClaimer(cfg);
    s := ReachByStep(cfg, s, ReadClock(1, 0, true, TakeoverTime(cfg) + cfg.skew));
    s := ReachByStep(cfg, s, ClaimRowStep(1));
    s := ReachByStep(cfg, s, StartAttempt(1));
  }

  lemma TakeoverSucceeds(cfg: Config) returns (s: World)
    requires !DelayFitsLease(cfg)
    ensures Reachable(cfg, s) && s.locks == map[] && |s.writes| == 1 && |s.claims| == 2 && s.claims[1].id == 0
    ensures 0 in s.rows && s.rows[0].status == Succeeded && FirstHolderStillWorking(s)
  {
    s := TakeoverStarts(cfg);
    s := ReachByStep(cfg, s, Attempt(1, Dispatched(Delivered)));
    s := ReachByStep(cfg, s, LockRow(1, s.clock));
    s := ReachByStep(cfg, s, SaveRow(1));
  }

  /** One millisecond past the bound, a slow claimer overwrites another worker's succeeded outcome. */
  lemma LateWriteOverwritesSuccess(cfg: Config) returns (s: World)
    requires !DelayFitsLease(cfg)
    ensures Reachable(cfg, s)
    ensures |s.writes| == 2 && s.writes[1].claim != s.writes[1].latest && s.writes[1].replaced == Succeeded
    ensures 0 in s.rows && s.rows[0].status == Failed
  {
    s := TakeoverSucceeds(cfg);
    s := ReachByStep(cfg, s, Attempt(0, Dispatched(Unanswered(true, "webhook delivery timed out"))));
    s := ReachByStep(cfg, s, LockRow(0, s.clock));
    s := ReachByStep(cfg, s, SaveRow(0));
  }

  /** Every outcome write of every run lands on the claim that produced it exactly when the slowest claim,
      the write timeout and twice the clock skew fit in the lease. */
  lemma {:induction false} ExclusiveExactlyWhenDelayFits(cfg: Config)
    ensures (forall s :: Reachable(cfg, s) ==> WritesOwnTheirClaims(s)) <==> cfg.delay + 5_000 + 2 * cfg.skew <= 120_000
  {
    if DelayFitsLease(cfg) {
      forall s | Reachable(cfg, s)
        ensures WritesOwnTheirClaims(s)
      {
        var steps :| Run(cfg, steps) == Some(s);
        RunKeepsExclusivity(cfg, steps);
      }
    } else {
      var s := LateWriteOverwritesSuccess(cfg);
      assert !WritesOwnTheirClaims(s);
    }
  }
}
