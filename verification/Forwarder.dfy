/** The Elasticsearch log forwarder: its reused batch slice and the wake-up protocol of its flush loop. */
module Forwarder {
  import opened Results

  type Entry = map<string, string>

  const DEFAULT_BATCH_SIZE := 100

  /** What the lock and the channel of capacity one protect. */
  datatype Shared = Shared(buffer: seq<Entry>, token: bool)

  function Appended(s: Shared, entry: Entry): Shared {
    s.(buffer := s.buffer + [entry])
  }

  /** A send that gives up when the channel is full. */
  function Signalled(s: Shared): Shared {
    s.(token := true)
  }

  function Taken(s: Shared): Shared {
    s.(buffer := [])
  }

  class ElasticsearchForwarder {
    const batchSize: nat
    var batch: array<Entry>
    var count: nat
    var token: bool

    ghost predicate Valid()
      reads this
    {
      count <= batch.Length && 0 < batchSize
    }

    ghost function State(): Shared
      reads this, batch
      requires Valid()
    {
      Shared(batch[..count], token)
    }

    constructor (configuredSize: int)
      ensures Valid() && fresh(batch) && State() == Shared([], false)
      ensures batchSize == if configuredSize <= 0 then 100 else configuredSize
    {
      batchSize := if configuredSize <= 0 then DEFAULT_BATCH_SIZE else configuredSize;
      batch := new Entry[if configuredSize <= 0 then DEFAULT_BATCH_SIZE else configuredSize];
      count, token := 0, false;
    }

    /** The locked part of Forward. A full slice moves to a larger array, otherwise the entry goes into the array in
        hand. */
    method Append(entry: Entry) returns (shouldFlush: bool)
      requires Valid()
      modifies this, batch
      ensures Valid() && (batch == old(batch) || fresh(batch))
      ensures State() == Appended(old(State()), entry)
      ensures shouldFlush == (|State().buffer| >= batchSize)
    {
      if count == batch.Length {
        var larger := new Entry[2 * batch.Length + 1];
        forall i | 0 <= i < count {
          larger[i] := batch[i];
        }
        batch := larger;
      }
      batch[count] := entry;
      count := count + 1;
      shouldFlush := count >= batchSize;
    }

    /** The send of Forward and Close. */
    method Signal()
      requires Valid()
      modifies this`token
      ensures Valid() && State() == Signalled(old(State()))
    {
      if !token {
        token := true;
      }
    }

    method Receive()
      requires Valid() && token
      modifies this`token
      ensures Valid() && State() == old(State()).(token := false)
    {
      token := false;
    }

    /** The locked part of flush: the entries are copied out and the slice is cut back to length zero, so the copy owes
        nothing to the array that the next entries will overwrite. */
    method Take() returns (taken: Option<array<Entry>>)
      requires Valid()
      modifies this`count
      ensures Valid() && batch == old(batch) && State() == Taken(old(State()))
      ensures taken.None? <==> old(State()).buffer == []
      ensures taken.Some? ==> fresh(taken.value) && taken.value[..] == old(State()).buffer
    {
      if count == 0 {
        return None;
      }
      var copied := new Entry[count];
      var i := 0;
      while i < count
        invariant 0 <= i <= count && fresh(copied) && copied.Length == count
        invariant copied[..i] == batch[..i]
      {
        copied[i] := batch[i];
        i := i + 1;
      }
      count := 0;
      return Some(copied);
    }
  }

  // ---------- Callers and the flush loop together ----------

  datatype Flusher = Idle | AboutToFlush | Sending

  /** signalling are the callers between unlocking and their send; forwarded and flushed are the whole history. */
  datatype World = World(
    shared: Shared, signalling: set<nat>, flusher: Flusher, forwarded: seq<Entry>, flushed: seq<seq<Entry>>)

  const START := World(Shared([], false), {}, Idle, [], [])

  datatype Step =
    | Forward(caller: nat, entry: Entry)
    | Send(caller: nat)
    | Close
    | Tick
    | Wake
    | Flush
    | SendDone

  predicate Enabled(w: World, step: Step) {
    match step
    case Forward(caller, _) => caller !in w.signalling
    case Send(caller) => caller in w.signalling
    case Close => true
    case Tick => w.flusher == Idle
    case Wake => w.flusher == Idle && w.shared.token
    case Flush => w.flusher == AboutToFlush
    case SendDone => w.flusher == Sending
  }

  function Apply(w: World, step: Step, batchSize: nat): World
    requires Enabled(w, step)
  {
    match step
    case Forward(caller, entry) =>
      var shared := Appended(w.shared, entry);
      w.(shared := shared, forwarded := w.forwarded + [entry],
         signalling := if |shared.buffer| >= batchSize then w.signalling + {caller} else w.signalling)
    case Send(caller) => w.(shared := Signalled(w.shared), signalling := w.signalling - {caller})
    case Close => w.(shared := Signalled(w.shared))
    case Tick => w.(flusher := AboutToFlush)
    case Wake => w.(shared := w.shared.(token := false), flusher := AboutToFlush)
    case Flush =>
      if w.shared.buffer == [] then w.(flusher := Idle)
      else w.(shared := Taken(w.shared), flusher := Sending, flushed := w.flushed + [w.shared.buffer])
    case SendDone => w.(flusher := Idle)
  }

  function RunFrom(w: World, steps: seq<Step>, batchSize: nat): Option<World> {
    if steps == [] then Some(w)
    else
      var before := RunFrom(w, steps[..|steps| - 1], batchSize);
      var step := steps[|steps| - 1];
      if before.Some? && Enabled(before.value, step) then Some(Apply(before.value, step, batchSize)) else None
  }

  function Joined(batches: seq<seq<Entry>>): seq<Entry> {
    if batches == [] then [] else Joined(batches[..|batches| - 1]) + batches[|batches| - 1]
  }

  /** A full buffer has a wake-up on its way: a caller about to send, a token, or the flush loop about to lock. */
  predicate WakeUpPending(w: World) {
    w.signalling != {} || w.shared.token || w.flusher == AboutToFlush
  }

  predicate Inv(w: World, batchSize: nat) {
    && Joined(w.flushed) + w.shared.buffer == w.forwarded
    && (forall i :: 0 <= i < |w.flushed| ==> w.flushed[i] != [])
    && (|w.shared.buffer| >= batchSize ==> WakeUpPending(w))
  }

  lemma {:induction false} ForwardStep(w: World, step: Step, batchSize: nat)
    requires Inv(w, batchSize) && Enabled(w, step) && step.Forward?
    ensures Inv(Apply(w, step, batchSize), batchSize)
  {
    var buffer := w.shared.buffer + [step.entry];
    assert Joined(w.flushed) + buffer == (Joined(w.flushed) + w.shared.buffer) + [step.entry];
    assert |buffer| >= batchSize ==> step.caller in Apply(w, step, batchSize).signalling;
  }

  lemma {:induction false} JoinedOneMore(batches: seq<seq<Entry>>, batch: seq<Entry>)
    ensures Joined(batches + [batch]) == Joined(batches) + batch
  {
    assert (batches + [batch])[..|batches|] == batches;
  }

  lemma {:induction false} FlushStep(w: World, batchSize: nat)
    requires Inv(w, batchSize) && Enabled(w, Flush) && 0 < batchSize
    ensures Inv(Apply(w, Flush, batchSize), batchSize)
  {
    JoinedOneMore(w.flushed, w.shared.buffer);
    var empty: seq<Entry> := [];
    assert Joined(w.flushed) + w.shared.buffer + empty == Joined(w.flushed) + w.shared.buffer;
  }

  /** The other steps leave the buffer and the taken batches alone. */
  lemma {:induction false} SignallingStep(w: World, step: Step, batchSize: nat)
    requires Inv(w, batchSize) && Enabled(w, step) && !step.Forward? && !step.Flush?
    ensures Inv(Apply(w, step, batchSize), batchSize)
  {
    var t := Apply(w, step, batchSize);
    assert t.flushed == w.flushed && t.shared.buffer == w.shared.buffer && t.forwarded == w.forwarded;
    assert WakeUpPending(w) ==> WakeUpPending(t);
  }

  lemma {:induction false} InvStep(w: World, step: Step, batchSize: nat)
    requires Inv(w, batchSize) && Enabled(w, step) && 0 < batchSize
    ensures Inv(Apply(w, step, batchSize), batchSize)
  {
    match step
    case Forward(_, _) => ForwardStep(w, step, batchSize);
    case Flush => FlushStep(w, batchSize);
    case _ => SignallingStep(w, step, batchSize);
  }

  /** The batches taken so far, then the buffer, are exactly the forwarded entries in order; no taken batch is empty;
      and no wake-up is ever lost. */
  lemma {:induction false} NothingIsLostOrTakenTwice(steps: seq<Step>, batchSize: nat)
    requires RunFrom(START, steps, batchSize).Some? && 0 < batchSize
    ensures var w := RunFrom(START, steps, batchSize).value;
            && Joined(w.flushed) + w.shared.buffer == w.forwarded
            && (forall i :: 0 <= i < |w.flushed| ==> w.flushed[i] != [])
            && (|w.shared.buffer| >= batchSize ==> WakeUpPending(w))
  {
    if steps != [] {
      NothingIsLostOrTakenTwice(steps[..|steps| - 1], batchSize);
      InvStep(RunFrom(START, steps[..|steps| - 1], batchSize).value, steps[|steps| - 1], batchSize);
    }
  }

  // ---------- A full buffer is flushed without waiting for the timer ----------

  predicate Internal(step: Step) {
    step.Send? || step.Wake? || step.Flush? || step.SendDone?
  }

  /** How many steps callers and the flush loop can still take by themselves, at most. */
  function Pending(w: World): nat {
    4 * |w.signalling| + (if w.shared.token then 3 else 0) + (if w.flusher == AboutToFlush then 2 else if w.flusher == Sending then 1 else 0)
  }

  predicate AllInternal(steps: seq<Step>) {
    forall i :: 0 <= i < |steps| ==> Internal(steps[i])
  }

  predicate Stuck(w: World) {
    w.signalling == {} && !w.shared.token && w.flusher == Idle
  }

  lemma StuckHasNoInternalStep(w: World)
    ensures Stuck(w) <==> (forall step :: Internal(step) ==> !Enabled(w, step))
  {
    if w.signalling != {} {
      var caller :| caller in w.signalling;
      assert Enabled(w, Send(caller));
    } else if w.shared.token && w.flusher == Idle {
      assert Enabled(w, Wake);
    } else if w.flusher == AboutToFlush {
      assert Enabled(w, Flush);
    } else if w.flusher == Sending {
      assert Enabled(w, SendDone);
    }
  }

  lemma {:induction false} InternalRunBounded(w: World, steps: seq<Step>, batchSize: nat)
    requires Inv(w, batchSize) && 0 < batchSize && AllInternal(steps) && RunFrom(w, steps, batchSize).Some?
    ensures Inv(RunFrom(w, steps, batchSize).value, batchSize)
    ensures |steps| + Pending(RunFrom(w, steps, batchSize).value) <= Pending(w)
    ensures var t := RunFrom(w, steps, batchSize).value;
            t.forwarded == w.forwarded && (t.shared.buffer == w.shared.buffer || t.shared.buffer == [])
  {
    if steps != [] {
      InternalRunBounded(w, steps[..|steps| - 1], batchSize);
      var before := RunFrom(w, steps[..|steps| - 1], batchSize).value;
      InvStep(before, steps[|steps| - 1], batchSize);
    }
  }

  /** From any reachable state, when no caller adds entries and the timer stays silent, the callers and the flush loop
      take at most Pending steps; and when none is left to take the buffer is below the batch size, so that a buffer
      that was full has been flushed together with everything before it. */
  lemma BatchesAreFlushedWithoutTheTimer(steps: seq<Step>, further: seq<Step>, batchSize: nat)
    requires 0 < batchSize && RunFrom(START, steps, batchSize).Some? && AllInternal(further)
    requires RunFrom(RunFrom(START, steps, batchSize).value, further, batchSize).Some?
    ensures var w := RunFrom(START, steps, batchSize).value;
            var t := RunFrom(w, further, batchSize).value;
            && |further| <= Pending(w)
            && ((forall step :: Internal(step) ==> !Enabled(t, step)) ==>
                  && |t.shared.buffer| < batchSize
                  && (|w.shared.buffer| >= batchSize ==> Joined(t.flushed) == w.forwarded))
  {
    NothingIsLostOrTakenTwice(steps, batchSize);
    var w := RunFrom(START, steps, batchSize).value;
    InternalRunBounded(w, further, batchSize);
    StuckHasNoInternalStep(RunFrom(w, further, batchSize).value);
  }

  // ---------- Nothing stands in the way of an entry ----------

  /** Any sequence of entries can be forwarded, whatever the flush loop has come to. */
  lemma {:induction false} AnyEntriesCanBeForwarded(entries: seq<Entry>, batchSize: nat) returns (steps: seq<Step>)
    ensures RunFrom(START, steps, batchSize).Some? && RunFrom(START, steps, batchSize).value.forwarded == entries
    ensures forall caller :: caller in RunFrom(START, steps, batchSize).value.signalling ==> caller < |entries|
  {
    steps := [];
    if entries != [] {
      var n := |entries| - 1;
      var before := AnyEntriesCanBeForwarded(entries[..n], batchSize);
      steps := before + [Forward(n, entries[n])];
      assert steps[..|steps| - 1] == before;
      assert entries == entries[..n] + [entries[n]];
    }
  }

  /** The timer, or a wake-up, empties an idle loop's buffer, full or not. */
  lemma {:induction false} IdleLoopFlushes(w: World, signal: Step, batchSize: nat)
    requires w.flusher == Idle && (signal == Tick || (signal == Wake && w.shared.token))
    ensures Enabled(w, signal) && Enabled(Apply(w, signal, batchSize), Flush)
    ensures var t := Apply(Apply(w, signal, batchSize), Flush, batchSize);
            && t.shared.buffer == [] && t.forwarded == w.forwarded
            && t.flushed == (if w.shared.buffer == [] then w.flushed else w.flushed + [w.shared.buffer])
  {
  }
}
