/** The operator statistics add up in every reachable state, and a finalized case is settled. */
module ReviewStats {
  import opened Results
  import opened ModerationTypes
  import opened Deliveries
  import opened ModerationStore
  import CheckProtocol
  import ReviewPages

  lemma {:induction false} ResultsPartition(results: seq<ResultRow>)
    ensures ResultsDecided(results, Allow) + ResultsDecided(results, Review) + ResultsDecided(results, Block)
            == |results|
  {
    if results != [] {
      ResultsPartition(results[..|results| - 1]);
    }
  }

  lemma {:induction false} CasesPartition(cases: seq<ReviewCase>)
    requires forall c :: 0 <= c < |cases| ==> CheckProtocol.CaseSound(cases[c])
    ensures CasesIn(cases, Pending) + CasesReviewed(cases) == |cases|
    ensures CasesFinally(cases, Allow) + CasesFinally(cases, Block) == CasesReviewed(cases)
    ensures CasesIn(cases, Mistake) <= CasesReviewed(cases)
  {
    if cases != [] {
      assert CheckProtocol.CaseSound(cases[|cases| - 1]);
      CasesPartition(cases[..|cases| - 1]);
    }
  }

  lemma DeliveriesPartition(rows: Rows)
    ensures |DeliveriesIn(rows, Succeeded)| + |DeliveriesIn(rows, Failed)| + |DeliveriesIn(rows, Retrying)| == |rows|
  {
    var a, b, c := DeliveriesIn(rows, Succeeded), DeliveriesIn(rows, Failed), DeliveriesIn(rows, Retrying);
    assert rows.Keys == a + b + c;
    assert |a + b| == |a| + |b|;
    assert |a + b + c| == |a + b| + |c|;
  }

  /** The share of part in the whole, between 0 and 1; of nothing it is 0. */
  predicate IsShare(rate: real, part: nat, whole: nat) {
    0.0 <= rate <= 1.0 && (if whole == 0 then rate == 0.0 else rate * whole as real == part as real)
  }

  predicate AddsUp(stats: Stats) {
    && stats.allowed + stats.blocked + stats.pendingReview == stats.totalModerated
    && stats.mistakes <= stats.reviewed
    && IsShare(stats.mistakeRate, stats.mistakes, stats.reviewed)
    && stats.webhookSucceeded + stats.webhookFailed + stats.webhookRetrying == stats.webhookTotal
  }

  lemma {:induction false} RateIsShare(part: nat, whole: nat)
    requires part <= whole
    ensures IsShare(if whole > 0 then part as real / whole as real else 0.0, part, whole)
  {
  }

  lemma SoundCasesAddUp(db: Db)
    requires forall c :: 0 <= c < |db.cases| ==> CheckProtocol.CaseSound(db.cases[c])
    requires ResultsDecided(db.results, Review) == |db.cases|
    ensures AddsUp(StatsOf(db))
    ensures StatsOf(db).reviewed == CasesFinally(db.cases, Allow) + CasesFinally(db.cases, Block)
  {
    ResultsPartition(db.results);
    CasesPartition(db.cases);
    DeliveriesPartition(db.deliveries);
    RateIsShare(CasesIn(db.cases, Mistake), CasesReviewed(db.cases));
  }

  /** Every moderated text is allowed, blocked or pending, whatever checks, reviews and retries are in flight. */
  lemma {:induction false} StatsAddUp(s: CheckProtocol.World)
    requires CheckProtocol.Reachable(s)
    ensures AddsUp(StatsOf(s.db))
    ensures StatsOf(s.db).reviewed == CasesFinally(s.db.cases, Allow) + CasesFinally(s.db.cases, Block)
  {
    var steps :| CheckProtocol.Run(steps) == Some(s);
    CheckProtocol.RunKeepsAnswers(steps);
    SoundCasesAddUp(s.db);
  }

  /** Finalizing one case moves exactly one text from pending to its final side. */
  lemma {:induction false} FinalizeMovesOne(
    s: CheckProtocol.World, id: nat, reviewer: nat, status: ReviewStatus, decision: Decision, notes: string, at: int)
    requires CheckProtocol.Reachable(s) && CheckProtocol.ReviewAction(status, decision)
    requires FinalizeCase(s.db, id, reviewer, status, decision, notes, at).Ok?
    ensures var before, after := StatsOf(s.db), StatsOf(FinalizeCase(s.db, id, reviewer, status, decision, notes, at).value);
            && after.totalModerated == before.totalModerated
            && after.pendingReview == before.pendingReview - 1
            && after.reviewed == before.reviewed + 1
            && after.allowed == before.allowed + (if decision == Allow then 1 else 0)
            && after.blocked == before.blocked + (if decision == Block then 1 else 0)
            && after.mistakes == before.mistakes + (if status == Mistake then 1 else 0)
  {
    var c := s.db.cases[id - 1];
    CountsAfterFinalize(s.db.cases, id - 1, FinalizedCase(c, reviewer, status, decision, notes, at));
  }

  /** A saved check adds one text, on the side of its decision, or pending when a human must decide. */
  lemma {:induction false} CheckCountsOnce(db: Db, request: Request, decision: Decision)
    requires SaveCheck(db, request, decision).Ok?
    ensures var before, after := StatsOf(db), StatsOf(SaveCheck(db, request, decision).value);
            && after.totalModerated == before.totalModerated + 1
            && after.allowed == before.allowed + (if decision == Allow then 1 else 0)
            && after.blocked == before.blocked + (if decision == Block then 1 else 0)
            && after.pendingReview == before.pendingReview + (if decision == Review then 1 else 0)
            && after.reviewed == before.reviewed && after.mistakes == before.mistakes
  {
    var after := Inserted(db, request, decision);
    assert after.results[..|db.results|] == db.results;
    if decision == Review {
      assert after.cases[..|db.cases|] == db.cases;
    }
  }

  /** A stored delivery is counted once, under its status. */
  lemma {:induction false} DeliveryCountsOnce(db: Db, row: nat, delivery: Delivery)
    requires row !in db.deliveries
    ensures var before, after := StatsOf(db), StatsOf(db.(deliveries := db.deliveries[row := delivery]));
            && after.webhookTotal == before.webhookTotal + 1
            && after.webhookSucceeded == before.webhookSucceeded + (if delivery.status == Succeeded then 1 else 0)
            && after.webhookFailed == before.webhookFailed + (if delivery.status == Failed then 1 else 0)
            && after.webhookRetrying == before.webhookRetrying + (if delivery.status == Retrying then 1 else 0)
  {
    var after := db.deliveries[row := delivery];
    OneMoreRow(db.deliveries, row, delivery, after);
    DeliveriesInAfter(db.deliveries, row, delivery, after, Succeeded);
    DeliveriesInAfter(db.deliveries, row, delivery, after, Failed);
    DeliveriesInAfter(db.deliveries, row, delivery, after, Retrying);
  }

  lemma {:induction false} OneMoreRow(rows: Rows, row: nat, delivery: Delivery, after: Rows)
    requires row !in rows && after == rows[row := delivery]
    ensures |after| == |rows| + 1
  {
    assert after.Keys == rows.Keys + {row};
  }

  lemma {:induction false} DeliveriesInAfter(rows: Rows, row: nat, delivery: Delivery, after: Rows, status: Status)
    requires row !in rows && after == rows[row := delivery]
    ensures DeliveriesIn(after, status) == if delivery.status == status then DeliveriesIn(rows, status) + {row} else DeliveriesIn(rows, status)
    ensures row !in DeliveriesIn(rows, status)
  {
  }

  lemma {:induction false} CountsAfterFinalize(cases: seq<ReviewCase>, k: nat, after: ReviewCase)
    requires k < |cases| && cases[k].status == Pending && after.status != Pending && after.finalDecision.Some?
    ensures var updated := cases[k := after];
            && CasesIn(updated, Pending) == CasesIn(cases, Pending) - 1
            && CasesReviewed(updated) == CasesReviewed(cases) + 1
            && CasesIn(updated, Mistake) == CasesIn(cases, Mistake) + (if after.status == Mistake then 1 else 0)
            && CasesFinally(updated, Allow)
               == CasesFinally(cases, Allow) + (if after.finalDecision == Some(Allow) then 1 else 0)
            && CasesFinally(updated, Block)
               == CasesFinally(cases, Block) + (if after.finalDecision == Some(Block) then 1 else 0)
  {
    var n := |cases| - 1;
    if k == n {
      assert cases[k := after][..n] == cases[..n];
    } else {
      CountsAfterFinalize(cases[..n], k, after);
      assert cases[k := after][..n] == cases[..n][k := after];
    }
  }

  /** A human decision is taken once: whatever anyone does afterwards, a finalized case stays as it is. */
  lemma {:induction false} FinalizedCasesAreSettled(steps: seq<CheckProtocol.Step>, earlier: nat, c: nat)
    requires CheckProtocol.Run(steps).Some? && earlier <= |steps|
    ensures CheckProtocol.Run(steps[..earlier]).Some?
    ensures var first, now := CheckProtocol.Run(steps[..earlier]).value.db.cases, CheckProtocol.Run(steps).value.db.cases;
            c < |first| && first[c].status != Pending ==> c < |now| && now[c] == first[c]
  {
    if earlier == |steps| {
      assert steps[..earlier] == steps;
    } else {
      var before := steps[..|steps| - 1];
      assert before[..earlier] == steps[..earlier];
      FinalizedCasesAreSettled(before, earlier, c);
    }
  }

  /** The decision on record in a finalized case is that of one finalize step of the run, with its reviewer, its notes and
      its time. */
  ghost predicate DecidedInRun(steps: seq<CheckProtocol.Step>, c: ReviewCase, id: nat) {
    exists k :: 0 <= k < |steps| && DecidedByStep(steps[k], c, id)
  }

  predicate DecidedByStep(step: CheckProtocol.Step, c: ReviewCase, id: nat) {
    && step.Finalize? && step.id == id && c.status == step.status && c.reviewerId == Some(step.reviewer)
    && c.finalDecision == Some(step.decision) && c.notes == step.notes && c.reviewedAt == Some(step.at)
  }

  lemma {:induction false} FinalizedCasesNameTheirReviewer(steps: seq<CheckProtocol.Step>, c: nat)
    requires CheckProtocol.Run(steps).Some? && c < |CheckProtocol.Run(steps).value.db.cases|
    requires CheckProtocol.Run(steps).value.db.cases[c].status != Pending
    ensures DecidedInRun(steps, CheckProtocol.Run(steps).value.db.cases[c], c + 1)
  {
    if steps != [] {
      var before, step := steps[..|steps| - 1], steps[|steps| - 1];
      var s, t := CheckProtocol.Run(before).value, CheckProtocol.Run(steps).value;
      if c < |s.db.cases| && s.db.cases[c].status != Pending {
        FinalizedCasesNameTheirReviewer(before, c);
        assert t.db.cases[c] == s.db.cases[c];
        var k :| 0 <= k < |before| && DecidedByStep(before[k], s.db.cases[c], c + 1);
        assert steps[k] == before[k];
      } else {
        assert DecidedByStep(step, t.db.cases[c], c + 1);
      }
    }
  }

  /** Until it is finalized a case names no reviewer and holds no notes. */
  lemma {:induction false} PendingCasesAreBlank(steps: seq<CheckProtocol.Step>, c: nat)
    requires CheckProtocol.Run(steps).Some? && c < |CheckProtocol.Run(steps).value.db.cases|
    requires CheckProtocol.Run(steps).value.db.cases[c].status == Pending
    ensures var pending := CheckProtocol.Run(steps).value.db.cases[c]; pending.reviewerId == None && pending.notes == ""
  {
    if steps != [] {
      var before, step := steps[..|steps| - 1], steps[|steps| - 1];
      var s, t := CheckProtocol.Run(before).value, CheckProtocol.Run(steps).value;
      if c < |s.db.cases| {
        assert t.db.cases[c] == s.db.cases[c];
        PendingCasesAreBlank(before, c);
      }
    }
  }

  /** In every reachable state an approved case is allowed, a rejected one blocked, a mistake one or the other, and a
      pending one undecided. */
  lemma {:induction false} StatusesMeanTheirDecisions(s: CheckProtocol.World, c: nat)
    requires CheckProtocol.Reachable(s) && c < |s.db.cases|
    ensures match s.db.cases[c].status
            case Pending => s.db.cases[c].finalDecision == None && s.db.cases[c].reviewedAt == None
            case Approved => s.db.cases[c].finalDecision == Some(Allow)
            case Rejected => s.db.cases[c].finalDecision == Some(Block)
            case Mistake => s.db.cases[c].finalDecision == Some(Allow) || s.db.cases[c].finalDecision == Some(Block)
    ensures s.db.cases[c].status != Pending ==> s.db.cases[c].reviewedAt.Some?
  {
    var steps :| CheckProtocol.Run(steps) == Some(s);
    CheckProtocol.RunKeepsAnswers(steps);
    assert CheckProtocol.CaseSound(s.db.cases[c]);
  }

  lemma StepEvolves(s: CheckProtocol.World, step: CheckProtocol.Step)
    requires CheckProtocol.Enabled(s, step) && ReviewPages.Numbered(s.db.cases)
    ensures ReviewPages.Numbered(CheckProtocol.Apply(s, step).db.cases)
    ensures ReviewPages.Evolves(s.db.cases, CheckProtocol.Apply(s, step).db.cases)
  {
  }

  lemma {:induction false} RunsNumberCases(steps: seq<CheckProtocol.Step>)
    requires CheckProtocol.Run(steps).Some?
    ensures ReviewPages.Numbered(CheckProtocol.Run(steps).value.db.cases)
  {
    if steps != [] {
      RunsNumberCases(steps[..|steps| - 1]);
      StepEvolves(CheckProtocol.Run(steps[..|steps| - 1]).value, steps[|steps| - 1]);
    }
  }

  lemma {:induction false} RunsEvolveCases(steps: seq<CheckProtocol.Step>, earlier: nat)
    requires CheckProtocol.Run(steps).Some? && earlier <= |steps|
    ensures CheckProtocol.Run(steps[..earlier]).Some?
    ensures ReviewPages.Evolves(CheckProtocol.Run(steps[..earlier]).value.db.cases, CheckProtocol.Run(steps).value.db.cases)
  {
    if earlier == |steps| {
      assert steps[..earlier] == steps;
    } else {
      var before := steps[..|steps| - 1];
      assert before[..earlier] == steps[..earlier];
      RunsEvolveCases(before, earlier);
      RunsNumberCases(before);
      StepEvolves(CheckProtocol.Run(before).value, steps[|steps| - 1]);
      ReviewPages.EvolvesTransitive(CheckProtocol.Run(before[..earlier]).value.db.cases,
                                    CheckProtocol.Run(before).value.db.cases, CheckProtocol.Run(steps).value.db.cases);
    }
  }

  /** The case tables of a run are what paging relies on: numbered, timed exactly when finalized, and evolving. */
  lemma {:induction false} RunTablesCanBePaged(steps: seq<CheckProtocol.Step>, earlier: nat)
    requires CheckProtocol.Run(steps).Some? && earlier <= |steps|
    ensures CheckProtocol.Run(steps[..earlier]).Some?
    ensures var first, now := CheckProtocol.Run(steps[..earlier]).value.db.cases, CheckProtocol.Run(steps).value.db.cases;
            && ReviewPages.Numbered(now)
            && ReviewPages.Evolves(first, now)
            && forall i :: 0 <= i < |now| ==> (now[i].reviewedAt.Some? <==> now[i].status != Pending)
  {
    RunsNumberCases(steps);
    RunsEvolveCases(steps, earlier);
    CheckProtocol.RunKeepsAnswers(steps);
    var now := CheckProtocol.Run(steps).value.db.cases;
    forall i | 0 <= i < |now|
      ensures now[i].reviewedAt.Some? <==> now[i].status != Pending
    {
      assert CheckProtocol.CaseSound(now[i]);
    }
  }
}
