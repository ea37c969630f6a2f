/** What the waiting bound of RetryBatch asks of the other workers and of the batch's own writes follows from the lease:
    stretches of RetryProtocol runs, and the batch's turns in them, are fair whenever clocks move forward. */
module RetryFairness {
  import opened Results
  import opened Deliveries
  import R = RetryProtocol
  import B = RetryBatch

  /** What a step does to the table, as RetryBatch sees it. */
  function Effect(cfg: R.Config, s: R.World, step: R.Step): seq<B.Other>
    requires R.Enabled(cfg, s, step)
  {
    match step
    case Insert(id, delivery) => [B.OtherInsert(id, delivery)]
    case ClaimRowStep(worker) =>
      var p := R.PhaseOf(s, worker);
      if p.id in s.rows && Claimable(s.rows[p.id], R.MaxAttemptsFor(cfg, p.manual), p.at)
      then [B.OtherClaim(p.id, R.MaxAttemptsFor(cfg, p.manual), p.at)] else []
    case SaveRow(worker) =>
      var p := R.PhaseOf(s, worker);
      [B.OtherOutcome(p.id, RecordedOutcome(p.dispatch), p.writtenAt)]
    case _ => []
  }

  /** Every time a step writes into the table is later than all times in it. */
  ghost predicate Forward(cfg: R.Config, s: R.World, step: R.Step)
    requires R.Enabled(cfg, s, step)
  {
    match step
    case Insert(_, delivery) => B.Later(s.rows, delivery.lastAttemptAt)
    case ClaimRowStep(worker) => Effect(cfg, s, step) != [] ==> B.Later(s.rows, R.PhaseOf(s, worker).at)
    case SaveRow(worker) => B.Later(s.rows, R.PhaseOf(s, worker).writtenAt)
    case _ => true
  }

  /** A write that lands replaces the row as it stands, and the row is still being retried. */
  lemma {:induction false} LandingWriteIsFair(cfg: R.Config, s: R.World, worker: nat)
    requires R.DelayFitsLease(cfg) && R.Reachable(cfg, s) && R.Enabled(cfg, s, R.SaveRow(worker))
    ensures var p := R.PhaseOf(s, worker);
            && p.id in s.rows && s.rows[p.id] == p.row && s.rows[p.id].status == Retrying
  {
    var steps :| R.Run(cfg, steps) == Some(s);
    R.RunKeepsCounts(cfg, steps);
    R.RunKeepsExclusivity(cfg, steps);
    R.LiveHolderIsLatest(cfg, s, worker);
    assert R.HolderFenced(cfg, s, worker);
    assert R.HoldsLock(s, worker, R.PhaseOf(s, worker).id);
  }

  lemma {:induction false} OneFairOther(rows: Rows, other: B.Other)
    requires B.FairOther(rows, other)
    ensures B.FairOthers(rows, [other]) && B.ApplyOthers(rows, [other]) == B.ApplyOther(rows, other)
  {
    var rest: seq<B.Other> := [other][1..];
    assert rest == [];
  }

  lemma {:induction false} StepIsFair(cfg: R.Config, s: R.World, step: R.Step)
    requires R.DelayFitsLease(cfg) && R.Reachable(cfg, s) && R.Enabled(cfg, s, step) && Forward(cfg, s, step)
    ensures B.FairOthers(s.rows, Effect(cfg, s, step))
    ensures B.ApplyOthers(s.rows, Effect(cfg, s, step)) == R.Apply(cfg, s, step).rows
  {
    if Effect(cfg, s, step) != [] {
      if step.SaveRow? {
        LandingWriteIsFair(cfg, s, step.worker);
      }
      OneFairOther(s.rows, Effect(cfg, s, step)[0]);
      assert Effect(cfg, s, step) == [Effect(cfg, s, step)[0]];
    }
  }

  // ---------- Stretches of a run ----------

  function RunFrom(cfg: R.Config, s: R.World, steps: seq<R.Step>): Option<R.World>
    decreases |steps|
  {
    if steps == [] then Some(s)
    else if R.Enabled(cfg, s, steps[0]) then RunFrom(cfg, R.Apply(cfg, s, steps[0]), steps[1..]) else None
  }

  function Effects(cfg: R.Config, s: R.World, steps: seq<R.Step>): seq<B.Other>
    requires RunFrom(cfg, s, steps).Some?
    decreases |steps|
  {
    if steps == [] then []
    else Effect(cfg, s, steps[0]) + Effects(cfg, R.Apply(cfg, s, steps[0]), steps[1..])
  }

  ghost predicate AllForward(cfg: R.Config, s: R.World, steps: seq<R.Step>)
    requires RunFrom(cfg, s, steps).Some?
    decreases |steps|
  {
    steps != [] ==> Forward(cfg, s, steps[0]) && AllForward(cfg, R.Apply(cfg, s, steps[0]), steps[1..])
  }

  lemma {:induction false} FairJoined(rows: Rows, a: seq<B.Other>, b: seq<B.Other>)
    requires B.FairOthers(rows, a) && B.FairOthers(B.ApplyOthers(rows, a), b)
    ensures B.FairOthers(rows, a + b) && B.ApplyOthers(rows, a + b) == B.ApplyOthers(B.ApplyOthers(rows, a), b)
    decreases |a|
  {
    if a == [] {
      assert a + b == b;
    } else {
      assert (a + b)[1..] == a[1..] + b;
      FairJoined(B.ApplyOther(rows, a[0]), a[1..], b);
    }
  }

  /** Any stretch of a run is a fair sequence of other workers' doings with the same table at its end. */
  lemma {:induction false} StretchIsFair(cfg: R.Config, s: R.World, steps: seq<R.Step>)
    requires R.DelayFitsLease(cfg) && R.Reachable(cfg, s) && RunFrom(cfg, s, steps).Some? && AllForward(cfg, s, steps)
    ensures B.FairOthers(s.rows, Effects(cfg, s, steps))
    ensures B.ApplyOthers(s.rows, Effects(cfg, s, steps)) == RunFrom(cfg, s, steps).value.rows
    ensures R.Reachable(cfg, RunFrom(cfg, s, steps).value)
    decreases |steps|
  {
    if steps != [] {
      StepIsFair(cfg, s, steps[0]);
      var t := R.ReachByStep(cfg, s, steps[0]);
      StretchIsFair(cfg, t, steps[1..]);
      FairJoined(s.rows, Effect(cfg, s, steps[0]), Effects(cfg, t, steps[1..]));
    }
  }

  // ---------- A turn of the batch ----------

  /** The batch worker claims after the steps in before, and writes after those in during; both hold steps of any
      worker, its own attempt included. */
  datatype TurnRun = TurnRun(worker: nat, before: seq<R.Step>, during: seq<R.Step>)

  ghost predicate IsTurn(cfg: R.Config, s: R.World, run: TurnRun, id: nat) {
    && RunFrom(cfg, s, run.before).Some? && AllForward(cfg, s, run.before)
    && var claiming := RunFrom(cfg, s, run.before).value;
    && R.Enabled(cfg, claiming, R.ClaimRowStep(run.worker)) && Effect(cfg, claiming, R.ClaimRowStep(run.worker)) != []
    && Forward(cfg, claiming, R.ClaimRowStep(run.worker))
    && R.PhaseOf(claiming, run.worker).id == id && !R.PhaseOf(claiming, run.worker).manual
    && var claimed := R.Apply(cfg, claiming, R.ClaimRowStep(run.worker));
    && RunFrom(cfg, claimed, run.during).Some? && AllForward(cfg, claimed, run.during)
    && var writing := RunFrom(cfg, claimed, run.during).value;
    && R.Enabled(cfg, writing, R.SaveRow(run.worker)) && Forward(cfg, writing, R.SaveRow(run.worker))
    && R.PhaseOf(writing, run.worker).id == id
  }

  /** The turn as the batch sees it: what the others do before the claim and before the write, and how its own attempt
      ended. */
  function TurnOf(cfg: R.Config, s: R.World, run: TurnRun, id: nat): B.Turn
    requires IsTurn(cfg, s, run, id)
  {
    var claiming := RunFrom(cfg, s, run.before).value;
    var claimed := R.Apply(cfg, claiming, R.ClaimRowStep(run.worker));
    var writing := RunFrom(cfg, claimed, run.during).value;
    B.Turn(Effects(cfg, s, run.before), R.PhaseOf(claiming, run.worker).at, R.PhaseOf(writing, run.worker).dispatch,
           Effects(cfg, claimed, run.during), R.PhaseOf(writing, run.worker).writtenAt, true)
  }

  function AfterTurn(cfg: R.Config, s: R.World, run: TurnRun, id: nat): R.World
    requires IsTurn(cfg, s, run, id)
  {
    var claimed := R.Apply(cfg, RunFrom(cfg, s, run.before).value, R.ClaimRowStep(run.worker));
    R.Apply(cfg, RunFrom(cfg, claimed, run.during).value, R.SaveRow(run.worker))
  }

  /** A turn of the batch inside a run of all retriers is a fair turn, whose writes land on rows being retried; it leaves
      the table as the run does, and when it records a delivery the message did go out. */
  lemma {:induction false} TurnIsFair(cfg: R.Config, s: R.World, run: TurnRun, id: nat, now: int)
    requires R.DelayFitsLease(cfg) && R.Reachable(cfg, s) && IsTurn(cfg, s, run, id)
    requires now <= TurnOf(cfg, s, run, id).claimAt
    ensures B.FairTurn(s.rows, id, cfg.maxAttempts, now, TurnOf(cfg, s, run, id))
    ensures B.RetryOne(s.rows, id, cfg.maxAttempts, TurnOf(cfg, s, run, id)).0 == AfterTurn(cfg, s, run, id).rows
    ensures TurnOf(cfg, s, run, id).dispatch == Dispatched(Delivered) ==> R.WasSent(AfterTurn(cfg, s, run, id), id)
  {
    StretchIsFair(cfg, s, run.before);
    var claiming := RunFrom(cfg, s, run.before).value;
    var claimed := R.ReachByStep(cfg, claiming, R.ClaimRowStep(run.worker));
    StretchIsFair(cfg, claimed, run.during);
    var writing := RunFrom(cfg, claimed, run.during).value;
    LandingWriteIsFair(cfg, writing, run.worker);
    DeliveredWasSent(cfg, writing, run.worker);
  }

  /** An attempt that ended in a delivery is on record as sent. */
  lemma {:induction false} DeliveredWasSent(cfg: R.Config, s: R.World, worker: nat)
    requires R.Reachable(cfg, s) && R.Enabled(cfg, s, R.SaveRow(worker))
    ensures R.PhaseOf(s, worker).dispatch == Dispatched(Delivered) ==>
              R.WasSent(R.Apply(cfg, s, R.SaveRow(worker)), R.PhaseOf(s, worker).id)
  {
    var steps :| R.Run(cfg, steps) == Some(s);
    R.RunKeepsCounts(cfg, steps);
    if R.RecordsSuccess(R.PhaseOf(s, worker)) {
      R.StaysSent(cfg, s, R.SaveRow(worker), R.PhaseOf(s, worker).id);
    }
  }
}
