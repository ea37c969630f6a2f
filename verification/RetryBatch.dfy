/** One automatic retry batch, with other workers acting between its statements, and how long a
    failed delivery can wait for its turn over many batches. */
module RetryBatch {
  import opened Results
  import opened Deliveries

  const MAX_BATCH_LIMIT := 100

  /** What another worker may do to the table between two statements of the batch. */
  datatype Other =
    | OtherClaim(id: nat, maxAttempts: int, at: int)
    | OtherOutcome(id: nat, outcome: Outcome, at: int)
    | OtherInsert(id: nat, delivery: Delivery)

  /** Everything outside the batch's control during one delivery's turn. */
  datatype Turn = Turn(
    beforeClaim: seq<Other>, claimAt: int, dispatch: Dispatch, beforeWrite: seq<Other>, writeAt: int, writeLands: bool)

  datatype RetryError = ClaimConflict | Unavailable

  datatype InputError = BadLimit | BadMaxAttempts

  datatype Output = Output(attempted: nat, succeeded: nat, failed: nat, skipped: nat)

  function ApplyOther(rows: Rows, other: Other): Rows {
    match other
    case OtherClaim(id, maxAttempts, at) =>
      if id in rows && Claimable(rows[id], maxAttempts, at) then rows[id := ClaimRow(rows[id], at)] else rows
    case OtherOutcome(id, outcome, at) =>
      if id in rows then rows[id := OutcomeRow(rows[id], outcome, at)] else rows
    case OtherInsert(id, delivery) =>
      if id in rows then rows else rows[id := delivery]
  }

  function ApplyOthers(rows: Rows, others: seq<Other>): Rows
    decreases |others|
  {
    if others == [] then rows else ApplyOthers(ApplyOther(rows, others[0]), others[1..])
  }

  /** Rows and result after one claimed delivery's turn. */
  function RetryOne(rows: Rows, id: nat, maxAttempts: int, turn: Turn): (Rows, Result<Delivery, RetryError>) {
    var atClaim := ApplyOthers(rows, turn.beforeClaim);
    if id !in atClaim then (atClaim, Err(Unavailable))
    else if !Claimable(atClaim[id], maxAttempts, turn.claimAt) then (atClaim, Err(ClaimConflict))
    else
      var atWrite := ApplyOthers(atClaim[id := ClaimRow(atClaim[id], turn.claimAt)], turn.beforeWrite);
      if !turn.writeLands || id !in atWrite then (atWrite, Err(Unavailable))
      else
        var after := atWrite[id := OutcomeRow(atWrite[id], RecordedOutcome(turn.dispatch), turn.writeAt)];
        (after, if turn.dispatch.Dispatched? then Ok(after[id]) else Err(Unavailable))
  }

  function Counted(output: Output, r: Result<Delivery, RetryError>): Output {
    match r
    case Err(ClaimConflict) => output.(skipped := output.skipped + 1)
    case Err(Unavailable) => output.(attempted := output.attempted + 1, failed := output.failed + 1)
    case Ok(d) =>
      if d.status == Succeeded then output.(attempted := output.attempted + 1, succeeded := output.succeeded + 1)
      else output.(attempted := output.attempted + 1, failed := output.failed + 1)
  }

  /** The first n turns of a batch over list. */
  function RunTurns(rows: Rows, list: seq<nat>, n: nat, maxAttempts: int, turns: nat -> Turn): (Rows, Output)
    requires n <= |list|
  {
    if n == 0 then (rows, Output(0, 0, 0, 0))
    else
      var (before, output) := RunTurns(rows, list, n - 1, maxAttempts, turns);
      var (after, r) := RetryOne(before, list[n - 1], maxAttempts, turns(n - 1));
      (after, Counted(output, r))
  }

  class RetryService {
    const store: DeliveryStore

    constructor (store: DeliveryStore)
      ensures this.store == store
    {
      this.store := store;
    }

    method OtherWorkersAct(others: seq<Other>)
      modifies store
      ensures store.rows == ApplyOthers(old(store.rows), others)
    {
      store.rows := ApplyOthers(store.rows, others);
    }

    method RecordFailure(id: nat, message: string, turn: Turn)
      modifies store
      ensures store.rows == if turn.writeLands && id in old(store.rows)
                            then old(store.rows)[id := OutcomeRow(old(store.rows)[id], Outcome(Failed, None, message), turn.writeAt)]
                            else old(store.rows)
    {
      if turn.writeLands {
        var _ := store.UpdateAttempt(id, Outcome(Failed, None, message), turn.writeAt);
      }
    }

    method RetryDelivery(id: nat, maxAttempts: int, turn: Turn) returns (r: Result<Delivery, RetryError>)
      modifies store
      ensures (store.rows, r) == RetryOne(old(store.rows), id, maxAttempts, turn)
    {
      OtherWorkersAct(turn.beforeClaim);
      var claimed := store.Claim(id, maxAttempts, turn.claimAt);
      if claimed.Err? {
        return Err(if claimed.error == Conflict then ClaimConflict else Unavailable);
      }
      OtherWorkersAct(turn.beforeWrite);
      match turn.dispatch {
        case LookupFailed =>
          RecordFailure(id, "webhook client lookup failed", turn);
          return Err(Unavailable);
        case ClientMissing =>
          RecordFailure(id, "Webhook client not found", turn);
          return Err(Unavailable);
        case PayloadUndecodable =>
          RecordFailure(id, "webhook payload decode failed", turn);
          return Err(Unavailable);
        case Dispatched(ending) =>
          if !turn.writeLands {
            return Err(Unavailable);
          }
          var outcome := AttemptOutcome(ending);
          var updated := store.UpdateAttempt(id, outcome, turn.writeAt);
          if updated.Err? {
            return Err(Unavailable);
          }
          return Ok(updated.value);
      }
    }

    /** Rejects bad input untouched; otherwise takes the oldest retryable rows in turn and accounts for each. */
    method RetryFailed(limit: int, maxAttempts: int, now: int, turns: nat -> Turn)
      returns (r: Result<Output, InputError>, list: seq<nat>)
      modifies store
      ensures r == Err(BadLimit) <==> !(0 < limit <= 100)
      ensures r == Err(BadMaxAttempts) <==> 0 < limit <= 100 && maxAttempts <= 1
      ensures r.Err? ==> store.rows == old(store.rows)
      ensures r.Ok? ==>
        && IsRetryList(old(store.rows), limit, maxAttempts, now - RETRY_LEASE, list)
        && (store.rows, r.value) == RunTurns(old(store.rows), list, |list|, maxAttempts, turns)
    {
      list := [];
      if limit <= 0 || limit > MAX_BATCH_LIMIT {
        return Err(BadLimit), [];
      }
      if maxAttempts <= 1 {
        return Err(BadMaxAttempts), [];
      }
      list := store.ListRetryable(limit, maxAttempts, now - RETRY_LEASE);
      var output := RetryEach(list, maxAttempts, turns);
      return Ok(output), list;
    }

    method RetryEach(list: seq<nat>, maxAttempts: int, turns: nat -> Turn) returns (output: Output)
      modifies store
      ensures (store.rows, output) == RunTurns(old(store.rows), list, |list|, maxAttempts, turns)
    {
      output := Output(0, 0, 0, 0);
      var i := 0;
      while i < |list|
        invariant 0 <= i <= |list|
        invariant (store.rows, output) == RunTurns(old(store.rows), list, i, maxAttempts, turns)
      {
        var result := RetryDelivery(list[i], maxAttempts, turns(i));
        output := Count(output, result);
        i := i + 1;
      }
    }

    static method Count(output: Output, result: Result<Delivery, RetryError>) returns (counted: Output)
      ensures counted == Counted(output, result)
    {
      if result == Err(ClaimConflict) {
        return output.(skipped := output.skipped + 1);
      }
      counted := output.(attempted := output.attempted + 1);
      if result.Ok? && result.value.status == Succeeded {
        counted := counted.(succeeded := counted.succeeded + 1);
      } else {
        counted := counted.(failed := counted.failed + 1);
      }
    }
  }

  // ---------- Accounting ----------

  predicate Undisturbed(turn: Turn, now: int) {
    turn.beforeClaim == [] && now <= turn.claimAt
  }

  /** Other workers only add rows and change them. */
  lemma {:induction false} OthersKeepRows(rows: Rows, others: seq<Other>)
    ensures rows.Keys <= ApplyOthers(rows, others).Keys
    decreases |others|
  {
    if others != [] {
      OthersKeepRows(ApplyOther(rows, others[0]), others[1..]);
    }
  }

  /** At its turn the row is there, and free to be claimed. */
  predicate Claims(rows: Rows, id: nat, maxAttempts: int, turn: Turn) {
    var atClaim := ApplyOthers(rows, turn.beforeClaim);
    id in atClaim && Claimable(atClaim[id], maxAttempts, turn.claimAt)
  }

  /** At its turn the row is there, but somebody else holds or has settled it. */
  predicate Skips(rows: Rows, id: nat, maxAttempts: int, turn: Turn) {
    var atClaim := ApplyOthers(rows, turn.beforeClaim);
    id in atClaim && !Claimable(atClaim[id], maxAttempts, turn.claimAt)
  }

  /** The row was claimed, its message delivered, and that was written. */
  predicate Succeeds(rows: Rows, id: nat, maxAttempts: int, turn: Turn) {
    Claims(rows, id, maxAttempts, turn) && turn.dispatch == Dispatched(Delivered) && turn.writeLands
  }

  /** What a turn leaves behind: a write that lands shows how the dispatch ended, and the caller is given the row when
      there was a dispatch; without a landed write nobody but the others and the claim touch the table. */
  lemma {:induction false} TurnShowsItsDispatch(rows: Rows, id: nat, maxAttempts: int, turn: Turn)
    ensures var (after, r) := RetryOne(rows, id, maxAttempts, turn);
            && (Claims(rows, id, maxAttempts, turn) && turn.writeLands ==>
                  && id in after && Shows(after[id], turn.dispatch) && after[id].lastAttemptAt == turn.writeAt
                  && r == if turn.dispatch.Dispatched? then Ok(after[id]) else Err(Unavailable))
            && (Claims(rows, id, maxAttempts, turn) && !turn.writeLands ==> r == Err(Unavailable))
            && (r == Err(ClaimConflict) <==> Skips(rows, id, maxAttempts, turn))
            && (!Claims(rows, id, maxAttempts, turn) ==> r.Err? && after == ApplyOthers(rows, turn.beforeClaim))
            && (r.Ok? && r.value.status == Succeeded <==> Succeeds(rows, id, maxAttempts, turn))
  {
    if Claims(rows, id, maxAttempts, turn) {
      var atClaim := ApplyOthers(rows, turn.beforeClaim);
      OthersKeepRows(atClaim[id := ClaimRow(atClaim[id], turn.claimAt)], turn.beforeWrite);
    }
  }

  datatype TurnEnd = Success | Skip | Failure

  function EndOf(rows: Rows, id: nat, maxAttempts: int, turn: Turn): TurnEnd {
    if Succeeds(rows, id, maxAttempts, turn) then Success else if Skips(rows, id, maxAttempts, turn) then Skip else Failure
  }

  /** How many of the first n turns, each on the table its predecessors left, end that way. */
  function TurnsEnding(end: TurnEnd, rows: Rows, list: seq<nat>, n: nat, maxAttempts: int, turns: nat -> Turn): nat
    requires n <= |list|
  {
    if n == 0 then 0
    else
      var before := RunTurns(rows, list, n - 1, maxAttempts, turns).0;
      TurnsEnding(end, rows, list, n - 1, maxAttempts, turns)
      + if EndOf(before, list[n - 1], maxAttempts, turns(n - 1)) == end then 1 else 0
  }

  /** succeeded counts the turns whose message was delivered and recorded so, skipped those whose row was there and no
      longer free, and failed all others. */
  lemma {:induction false} BatchCountsItsTurns(rows: Rows, list: seq<nat>, n: nat, maxAttempts: int, turns: nat -> Turn)
    requires n <= |list|
    ensures var output := RunTurns(rows, list, n, maxAttempts, turns).1;
            && output.succeeded == TurnsEnding(Success, rows, list, n, maxAttempts, turns)
            && output.skipped == TurnsEnding(Skip, rows, list, n, maxAttempts, turns)
            && output.failed == TurnsEnding(Failure, rows, list, n, maxAttempts, turns)
  {
    if n > 0 {
      BatchCountsItsTurns(rows, list, n - 1, maxAttempts, turns);
      TurnIsCounted(RunTurns(rows, list, n - 1, maxAttempts, turns).0, list[n - 1], maxAttempts, turns(n - 1),
                    RunTurns(rows, list, n - 1, maxAttempts, turns).1);
    }
  }

  lemma {:induction false} TurnIsCounted(rows: Rows, id: nat, maxAttempts: int, turn: Turn, output: Output)
    ensures var end, counted := EndOf(rows, id, maxAttempts, turn), Counted(output, RetryOne(rows, id, maxAttempts, turn).1);
            && counted.succeeded == output.succeeded + (if end == Success then 1 else 0)
            && counted.skipped == output.skipped + (if end == Skip then 1 else 0)
            && counted.failed == output.failed + (if end == Failure then 1 else 0)
  {
    TurnShowsItsDispatch(rows, id, maxAttempts, turn);
  }

  /** Every listed row is counted once: attempted is succeeded plus failed, and the rest were skipped. */
  lemma {:induction false} BatchAccounts(rows: Rows, list: seq<nat>, n: nat, maxAttempts: int, turns: nat -> Turn)
    requires n <= |list|
    ensures var output := RunTurns(rows, list, n, maxAttempts, turns).1;
            output.attempted == output.succeeded + output.failed && output.attempted + output.skipped == n
  {
    if n > 0 {
      BatchAccounts(rows, list, n - 1, maxAttempts, turns);
    }
  }

  /** With nobody else touching the table, a row that was listed is still claimable at its turn, so nothing is
      skipped: the listing filter is sound for the claim. */
  lemma {:induction false} QuietBatchSkipsNothing(
    rows: Rows, list: seq<nat>, n: nat, limit: nat, maxAttempts: int, now: int, turns: nat -> Turn)
    requires n <= |list| && IsRetryList(rows, limit, maxAttempts, now - RETRY_LEASE, list)
    requires forall i :: 0 <= i < n ==> Undisturbed(turns(i), now) && turns(i).beforeWrite == []
    ensures RunTurns(rows, list, n, maxAttempts, turns).1.skipped == 0
    ensures forall i :: n <= i < |list| ==>
              list[i] in RunTurns(rows, list, n, maxAttempts, turns).0
              && RunTurns(rows, list, n, maxAttempts, turns).0[list[i]] == rows[list[i]]
  {
    if n > 0 {
      QuietBatchSkipsNothing(rows, list, n - 1, limit, maxAttempts, now, turns);
      assert Undisturbed(turns(n - 1), now);
    }
  }

  // ---------- Fairness ----------

  /** The stamp is later than every time in the table: clocks only move forward. */
  ghost predicate Later(rows: Rows, at: int) {
    forall id :: OlderThan(rows, id, at)
  }

  predicate OlderThan(rows: Rows, id: nat, at: int) {
    id in rows ==> rows[id].lastAttemptAt < at
  }

  /** Forward clocks, and outcome writes that settle a row still being retried; RetryFairness derives the latter from
      the lease. */
  ghost predicate FairOther(rows: Rows, other: Other) {
    match other
    case OtherClaim(_, _, at) => Later(rows, at)
    case OtherOutcome(id, outcome, at) =>
      Later(rows, at) && outcome.status != Retrying && (id in rows ==> rows[id].status == Retrying)
    case OtherInsert(_, delivery) => Later(rows, delivery.lastAttemptAt)
  }

  ghost predicate FairOthers(rows: Rows, others: seq<Other>)
    decreases |others|
  {
    others != [] ==> FairOther(rows, others[0]) && FairOthers(ApplyOther(rows, others[0]), others[1..])
  }

  ghost predicate FairTurn(rows: Rows, id: nat, maxAttempts: int, now: int, turn: Turn) {
    var atClaim := ApplyOthers(rows, turn.beforeClaim);
    && FairOthers(rows, turn.beforeClaim)
    && now <= turn.claimAt && Later(atClaim, turn.claimAt)
    && (id in atClaim && Claimable(atClaim[id], maxAttempts, turn.claimAt) ==>
          var claimed := atClaim[id := ClaimRow(atClaim[id], turn.claimAt)];
          var atWrite := ApplyOthers(claimed, turn.beforeWrite);
          && FairOthers(claimed, turn.beforeWrite)
          && Later(atWrite, turn.writeAt)
          && (turn.writeLands && id in atWrite ==> atWrite[id].status == Retrying))
  }

  ghost predicate FairTurns(rows: Rows, list: seq<nat>, n: nat, maxAttempts: int, now: int, turns: nat -> Turn)
    requires n <= |list|
  {
    n > 0 ==>
      && FairTurns(rows, list, n - 1, maxAttempts, now, turns)
      && FairTurn(RunTurns(rows, list, n - 1, maxAttempts, turns).0, list[n - 1], maxAttempts, now, turns(n - 1))
  }

  /** A row that changes was claimed, or was being retried and is settled; a succeeded row never changes. */
  predicate Moved(before: Delivery, after: Delivery) {
    && before.status != Succeeded
    && (after.attemptCount > before.attemptCount || (before.status == Retrying && after.status != Retrying))
  }

  /** The row stays; if it changed it is now later than everything before. */
  ghost predicate RowAdvanced(before: Rows, after: Rows, id: nat) {
    && (id in before ==> id in after && after[id].attemptCount >= before[id].attemptCount)
    && (id in after && (id !in before || after[id] != before[id]) ==> Later(before, after[id].lastAttemptAt))
    && (id in before && after[id] != before[id] ==> Moved(before[id], after[id]))
  }

  ghost predicate Advanced(before: Rows, after: Rows) {
    before.Keys <= after.Keys && forall id :: RowAdvanced(before, after, id)
  }

  predicate Same(before: Rows, after: Rows, id: nat) {
    id in before && id in after && after[id] == before[id]
  }

  lemma LaterTravels(a: Rows, b: Rows, at: int)
    requires Advanced(a, b) && Later(b, at)
    ensures Later(a, at)
  {
    forall id
      ensures OlderThan(a, id, at)
    {
      assert RowAdvanced(a, b, id) && OlderThan(b, id, at);
      if id in a && b[id] != a[id] {
        assert OlderThan(a, id, b[id].lastAttemptAt);
      }
    }
  }

  lemma AdvancedTransitive(a: Rows, b: Rows, c: Rows)
    requires Advanced(a, b) && Advanced(b, c)
    ensures Advanced(a, c)
  {
    forall id
      ensures RowAdvanced(a, c, id)
    {
      assert RowAdvanced(a, b, id) && RowAdvanced(b, c, id);
      if id in c && (id !in b || c[id] != b[id]) {
        LaterTravels(a, b, c[id].lastAttemptAt);
      }
    }
  }

  lemma {:induction false} OthersAdvance(rows: Rows, others: seq<Other>)
    requires FairOthers(rows, others)
    ensures Advanced(rows, ApplyOthers(rows, others))
    decreases |others|
  {
    if others == [] {
      assert Advanced(rows, rows);
    } else {
      var next := ApplyOther(rows, others[0]);
      assert Advanced(rows, next);
      OthersAdvance(next, others[1..]);
      AdvancedTransitive(rows, next, ApplyOthers(next, others[1..]));
    }
  }

  lemma TurnAdvances(rows: Rows, id: nat, maxAttempts: int, now: int, turn: Turn)
    requires FairTurn(rows, id, maxAttempts, now, turn)
    ensures Advanced(rows, RetryOne(rows, id, maxAttempts, turn).0)
    ensures id in rows && Retryable(rows[id], maxAttempts, now - RETRY_LEASE) ==>
              !Same(rows, RetryOne(rows, id, maxAttempts, turn).0, id)
  {
    var atClaim := ApplyOthers(rows, turn.beforeClaim);
    OthersAdvance(rows, turn.beforeClaim);
    assert RowAdvanced(rows, atClaim, id);
    if id in atClaim && Claimable(atClaim[id], maxAttempts, turn.claimAt) {
      var claimed := atClaim[id := ClaimRow(atClaim[id], turn.claimAt)];
      var atWrite := ApplyOthers(claimed, turn.beforeWrite);
      var after := RetryOne(rows, id, maxAttempts, turn).0;
      OthersAdvance(claimed, turn.beforeWrite);
      assert Advanced(atWrite, after);
      AdvancedTransitive(claimed, atWrite, after);
      assert Advanced(atClaim, claimed);
      AdvancedTransitive(atClaim, claimed, after);
      AdvancedTransitive(rows, atClaim, after);
      assert RowAdvanced(claimed, after, id);
    }
  }

  lemma ChangeStays(a: Rows, b: Rows, c: Rows, id: nat)
    requires Advanced(a, b) && Advanced(b, c) && id in a && !Same(a, b, id)
    ensures !Same(a, c, id)
  {
    assert RowAdvanced(a, b, id) && RowAdvanced(b, c, id);
    assert OlderThan(a, id, b[id].lastAttemptAt);
    if c[id] != b[id] {
      LaterTravels(a, b, c[id].lastAttemptAt);
      assert OlderThan(a, id, c[id].lastAttemptAt);
    }
  }

  /** A batch moves every row it listed behind all the times it started from. */
  lemma {:induction false} BatchAdvances(
    rows: Rows, list: seq<nat>, n: nat, maxAttempts: int, now: int, turns: nat -> Turn)
    requires n <= |list|
    requires forall i :: 0 <= i < n ==> list[i] in rows && Retryable(rows[list[i]], maxAttempts, now - RETRY_LEASE)
    requires FairTurns(rows, list, n, maxAttempts, now, turns)
    ensures Advanced(rows, RunTurns(rows, list, n, maxAttempts, turns).0)
    ensures forall i :: 0 <= i < n ==> !Same(rows, RunTurns(rows, list, n, maxAttempts, turns).0, list[i])
  {
    if n == 0 {
      assert Advanced(rows, rows);
    } else {
      var before := RunTurns(rows, list, n - 1, maxAttempts, turns).0;
      var after := RetryOne(before, list[n - 1], maxAttempts, turns(n - 1)).0;
      BatchAdvances(rows, list, n - 1, maxAttempts, now, turns);
      TurnAdvances(before, list[n - 1], maxAttempts, now, turns(n - 1));
      AdvancedTransitive(rows, before, after);
      forall i | 0 <= i < n
        ensures !Same(rows, after, list[i])
      {
        if !Same(rows, before, list[i]) {
          ChangeStays(rows, before, after, list[i]);
        }
      }
    }
  }

  /** The other rows that a listing may put before id. */
  function Ahead(rows: Rows, id: nat): set<nat>
    requires id in rows
  {
    set other | other in rows && other != id && rows[other].lastAttemptAt <= rows[id].lastAttemptAt
  }

  datatype Batch = Batch(before: seq<Other>, now: int, list: seq<nat>, turns: nat -> Turn)

  /** The table after interference and then one batch. */
  function AfterBatch(start: Rows, b: Batch, maxAttempts: int): Rows {
    RunTurns(ApplyOthers(start, b.before), b.list, |b.list|, maxAttempts, b.turns).0
  }

  function RunBatches(rows: Rows, batches: seq<Batch>, n: nat, maxAttempts: int): Rows
    requires n <= |batches|
  {
    if n == 0 then rows
    else AfterBatch(RunBatches(rows, batches, n - 1, maxAttempts), batches[n - 1], maxAttempts)
  }

  ghost predicate FairBatch(start: Rows, b: Batch, limit: nat, maxAttempts: int) {
    var listed := ApplyOthers(start, b.before);
    && FairOthers(start, b.before)
    && IsRetryList(listed, limit, maxAttempts, b.now - RETRY_LEASE, b.list)
    && FairTurns(listed, b.list, |b.list|, maxAttempts, b.now, b.turns)
  }

  ghost predicate FairBatches(rows: Rows, batches: seq<Batch>, n: nat, limit: nat, maxAttempts: int)
    requires n <= |batches|
  {
    n > 0 ==>
      && FairBatches(rows, batches, n - 1, limit, maxAttempts)
      && FairBatch(RunBatches(rows, batches, n - 1, maxAttempts), batches[n - 1], limit, maxAttempts)
  }

  /** While a row waits, nothing new gets ahead of it. */
  lemma AheadShrinks(before: Rows, after: Rows, id: nat)
    requires Advanced(before, after) && Same(before, after, id)
    ensures forall other :: other in Ahead(after, id) ==> Same(before, after, other)
    ensures Ahead(after, id) <= Ahead(before, id)
  {
    forall other | other in Ahead(after, id)
      ensures Same(before, after, other)
    {
      assert RowAdvanced(before, after, other);
      assert OlderThan(before, id, after[other].lastAttemptAt) || Same(before, after, other);
    }
  }

  lemma {:induction false} DistinctCount(list: seq<nat>, ids: set<nat>)
    requires forall i, j :: 0 <= i < j < |list| ==> list[i] != list[j]
    requires forall i :: 0 <= i < |list| ==> list[i] in ids
    ensures |ids| >= |list|
  {
    if list != [] {
      DistinctCount(list[1..], ids - {list[0]});
    }
  }

  lemma SubsetSizes(small: set<nat>, large: set<nat>)
    requires small <= large
    ensures |small| + |large - small| == |large|
  {
    assert large == small + (large - small);
  }

  /** A batch that leaves id out spends its whole limit on rows ahead of id. */
  lemma TurnsClearAhead(rows: Rows, b: Batch, limit: nat, maxAttempts: int, id: nat)
    requires IsRetryList(rows, limit, maxAttempts, b.now - RETRY_LEASE, b.list)
    requires FairTurns(rows, b.list, |b.list|, maxAttempts, b.now, b.turns)
    requires id in rows && Retryable(rows[id], maxAttempts, b.now - RETRY_LEASE)
    requires Same(rows, RunTurns(rows, b.list, |b.list|, maxAttempts, b.turns).0, id)
    ensures |Ahead(RunTurns(rows, b.list, |b.list|, maxAttempts, b.turns).0, id)| + limit <= |Ahead(rows, id)|
  {
    var after := RunTurns(rows, b.list, |b.list|, maxAttempts, b.turns).0;
    BatchAdvances(rows, b.list, |b.list|, maxAttempts, b.now, b.turns);
    AheadShrinks(rows, after, id);
    var cleared := Ahead(rows, id) - Ahead(after, id);
    assert id !in b.list;
    forall i | 0 <= i < |b.list|
      ensures b.list[i] in cleared
    {
      assert !Same(rows, after, b.list[i]);
    }
    DistinctCount(b.list, cleared);
    SubsetSizes(Ahead(after, id), Ahead(rows, id));
  }

  lemma BatchShrinksAhead(start: Rows, b: Batch, limit: nat, maxAttempts: int, id: nat)
    requires FairBatch(start, b, limit, maxAttempts) && id in start
    ensures Advanced(start, AfterBatch(start, b, maxAttempts))
    ensures Retryable(start[id], maxAttempts, b.now - RETRY_LEASE)
            && Same(start, AfterBatch(start, b, maxAttempts), id) ==>
              |Ahead(AfterBatch(start, b, maxAttempts), id)| + limit <= |Ahead(start, id)|
  {
    var listed := ApplyOthers(start, b.before);
    var after := AfterBatch(start, b, maxAttempts);
    OthersAdvance(start, b.before);
    BatchAdvances(listed, b.list, |b.list|, maxAttempts, b.now, b.turns);
    AdvancedTransitive(start, listed, after);
    if Retryable(start[id], maxAttempts, b.now - RETRY_LEASE) && Same(start, after, id) {
      if !Same(start, listed, id) {
        ChangeStays(start, listed, after, id);
      }
      AheadShrinks(start, listed, id);
      SubsetSizes(Ahead(listed, id), Ahead(start, id));
      TurnsClearAhead(listed, b, limit, maxAttempts, id);
    }
  }

  /** n times limit, added up one batch at a time. */
  function Times(n: nat, limit: nat): nat {
    if n == 0 then 0 else Times(n - 1, limit) + limit
  }

  /** The row is due at every listing, unless it has moved by then. */
  ghost predicate DueThroughout(d: Delivery, batches: seq<Batch>, n: nat, maxAttempts: int)
    requires n <= |batches|
  {
    forall k :: 0 <= k < n ==> Retryable(d, maxAttempts, batches[k].now - RETRY_LEASE)
  }

  /** While a due row waits, every batch takes its whole limit from the rows ahead of it. */
  lemma {:induction false} WaitingShrinksAhead(
    rows: Rows, batches: seq<Batch>, n: nat, limit: nat, maxAttempts: int, id: nat)
    requires n <= |batches| && FairBatches(rows, batches, n, limit, maxAttempts)
    requires id in rows && DueThroughout(rows[id], batches, n, maxAttempts)
    ensures Advanced(rows, RunBatches(rows, batches, n, maxAttempts))
    ensures Same(rows, RunBatches(rows, batches, n, maxAttempts), id) ==>
              |Ahead(RunBatches(rows, batches, n, maxAttempts), id)| + Times(n, limit) <= |Ahead(rows, id)|
  {
    if n == 0 {
      assert Advanced(rows, rows);
    } else {
      var start := RunBatches(rows, batches, n - 1, maxAttempts);
      var after := RunBatches(rows, batches, n, maxAttempts);
      WaitingShrinksAhead(rows, batches, n - 1, limit, maxAttempts, id);
      BatchShrinksAhead(start, batches[n - 1], limit, maxAttempts, id);
      AdvancedTransitive(rows, start, after);
      if Same(rows, after, id) && !Same(rows, start, id) {
        ChangeStays(rows, start, after, id);
      }
    }
  }

  lemma {:induction false} TimesIsProduct(n: nat, limit: nat)
    ensures Times(n, limit) == n * limit
  {
    if n > 0 {
      TimesIsProduct(n - 1, limit);
      assert n * limit == (n - 1) * limit + limit;
    }
  }

  lemma BatchesNeeded(k: nat, limit: nat)
    requires limit > 0
    ensures Times(k / limit + 1, limit) > k
  {
    TimesIsProduct(k / limit + 1, limit);
  }

  /** Bounded wait: a row that is due at every listing, failed or left retrying by a worker that died more than a lease
      ago, with k other rows no newer than it, has been claimed again, or settled by its late worker, after
      k / limit + 1 batches, whatever other workers do meanwhile. */
  lemma {:induction false} DueDeliveryIsTakenUpSoon(
    rows: Rows, batches: seq<Batch>, limit: nat, maxAttempts: int, id: nat)
    requires limit > 0 && id in rows && |batches| == |Ahead(rows, id)| / limit + 1
    requires DueThroughout(rows[id], batches, |batches|, maxAttempts)
    requires FairBatches(rows, batches, |batches|, limit, maxAttempts)
    ensures var after := RunBatches(rows, batches, |batches|, maxAttempts);
            && id in after && Moved(rows[id], after[id])
            && (rows[id].status == Failed ==> after[id].attemptCount > rows[id].attemptCount)
  {
    WaitingShrinksAhead(rows, batches, |batches|, limit, maxAttempts, id);
    assert RowAdvanced(rows, RunBatches(rows, batches, |batches|, maxAttempts), id);
    BatchesNeeded(|Ahead(rows, id)|, limit);
  }

  /** A failed row is due until it is claimed: no condition on the clocks of the listings is needed. */
  lemma {:induction false} FailedDeliveryIsClaimedSoon(
    rows: Rows, batches: seq<Batch>, limit: nat, maxAttempts: int, id: nat)
    requires limit > 0 && id in rows && rows[id].status == Failed && rows[id].attemptCount < maxAttempts
    requires |batches| == |Ahead(rows, id)| / limit + 1
    requires FairBatches(rows, batches, |batches|, limit, maxAttempts)
    ensures id in RunBatches(rows, batches, |batches|, maxAttempts)
    ensures RunBatches(rows, batches, |batches|, maxAttempts)[id].attemptCount > rows[id].attemptCount
  {
    DueDeliveryIsTakenUpSoon(rows, batches, limit, maxAttempts, id);
  }

  /** A row left retrying is due at every listing more than a lease after its claim. */
  lemma {:induction false} DeadRetryIsTakenUpSoon(
    rows: Rows, batches: seq<Batch>, limit: nat, maxAttempts: int, id: nat)
    requires limit > 0 && id in rows && rows[id].status == Retrying && rows[id].attemptCount < maxAttempts
    requires |batches| == |Ahead(rows, id)| / limit + 1
    requires forall k :: 0 <= k < |batches| ==> rows[id].lastAttemptAt + RETRY_LEASE < batches[k].now
    requires FairBatches(rows, batches, |batches|, limit, maxAttempts)
    ensures var after := RunBatches(rows, batches, |batches|, maxAttempts);
            id in after && (after[id].attemptCount > rows[id].attemptCount || after[id].status != Retrying)
  {
    DueDeliveryIsTakenUpSoon(rows, batches, limit, maxAttempts, id);
  }
}
