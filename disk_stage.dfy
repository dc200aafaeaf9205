/**
  The disk stage (`consumer_disk` and `flush_to_disk` in src/main.rs).

  Every iteration of the stage's loop polls channel A once and then checks
  the flush gate. A flush commits the pending writes to the disk and
  forwards, as one batch, the messages whose writes were committed by the
  PREVIOUS flush: a message becomes "stable" one flush cycle after its write.
  The stage sends the shutdown marker and stops at the first flush that sees
  the shutdown flag set and nothing left unconfirmed.

  Time is a parameter: `now` is a reading of a monotonic clock in
  nanoseconds and `clock` the reading taken at the last flush.
 */
module DiskStage {
  import opened Wrappers
  import opened Channels
  import opened Sequences
  import opened Units

  /** The wall-clock part of the flush gate: whole milliseconds since the last flush, compared with the delay. */
  predicate FlushDue(clock: nat, now: nat, diskDelay: nat)
    requires clock <= now
  {
    (now - clock) / ONE_MILLION >= diskDelay
  }

  /** What is put on channel B for a history of forwarded batches, followed by the marker once the stage stopped. */
  function Outgoing<U>(batches: seq<seq<U>>, finished: bool): seq<Option<seq<U>>>
  {
    if batches == [] then (if finished then [None] else [])
    else [Some(batches[0])] + Outgoing(batches[1..], finished)
  }

  class DiskWriter<T, U> {
    const diskDelay: nat          // flush period, milliseconds

    var disk: seq<T>              // the simulated persistent store
    var diskBuffer: seq<T>        // writes waiting for the next flush
    var networkBuffer: seq<U>     // messages waiting to become stable
    var unstable: nat             // writes committed by the latest flush
    var stable: nat               // writes committed by the flush before it
    var clock: nat                // clock reading at the latest flush
    var shutdown: bool            // the marker has been received
    var finished: bool            // the loop has broken out

    ghost var writesIn: seq<T>         // every write payload received, in order
    ghost var messagesIn: seq<U>       // every message payload received, in order
    ghost var batchesOut: seq<seq<U>>  // every batch forwarded on channel B, in order

    /**
      The stage invariant, between two iterations. The pending network
      buffer holds one message per write of the latest flush and of the
      write buffer, so draining `stable` of them at the next flush is in
      range; forwarded batches followed by the pending messages are exactly
      the messages received.
     */
    ghost predicate Valid()
      reads this
    {
      && stable == 0
      && |networkBuffer| == unstable + |diskBuffer|
      && disk + diskBuffer == writesIn
      && |writesIn| == |messagesIn|
      && Flatten(batchesOut) + networkBuffer == messagesIn
      && (forall k :: 0 <= k < |batchesOut| ==> batchesOut[k] != [])
      && (finished ==> shutdown && unstable == 0 && diskBuffer == [] && networkBuffer == [])
    }

    constructor (diskDelay: nat, start: nat)
      ensures Valid() && this.diskDelay == diskDelay && clock == start
      ensures disk == [] && diskBuffer == [] && networkBuffer == []
      ensures unstable == 0 && !shutdown && !finished
      ensures writesIn == [] && messagesIn == [] && batchesOut == []
    {
      this.diskDelay := diskDelay;
      disk, diskBuffer, networkBuffer := [], [], [];
      unstable, stable := 0, 0;
      clock := start;
      shutdown, finished := false, false;
      writesIn, messagesIn, batchesOut := [], [], [];
    }

    /** `flush_to_disk`: append the write buffer to the disk and empty it. */
    method FlushToDisk()
      modifies this`disk, this`diskBuffer
      ensures disk == old(disk) + old(diskBuffer) && diskBuffer == []
    {
      disk := disk + diskBuffer;
      diskBuffer := [];
    }

    /** The receive half of an iteration: a record goes into both buffers, the marker sets the flag. */
    method Receive(poll: Poll<Option<Record<T, U>>>)
      requires Valid() && !finished
      modifies this
      ensures Valid() && !finished
      ensures writesIn == old(writesIn) + WritesOf(poll)
      ensures messagesIn == old(messagesIn) + MessagesOf(poll)
      ensures diskBuffer == old(diskBuffer) + WritesOf(poll)
      ensures networkBuffer == old(networkBuffer) + MessagesOf(poll)
      ensures shutdown == (old(shutdown) || IsShutdown(poll))
      ensures disk == old(disk) && unstable == old(unstable) && clock == old(clock)
      ensures batchesOut == old(batchesOut)
    {
      match poll {
        case Ready(Some(d)) =>
          diskBuffer := diskBuffer + [d.write];
          networkBuffer := networkBuffer + [d.message];
          writesIn := writesIn + [d.write];
          messagesIn := messagesIn + [d.message];
        case Ready(None) =>
          shutdown := true;
        case Empty =>
        case Disconnected =>
          // only a diagnostic is printed
      }
    }

    /**
      Lines 310-322: when the previous flush made messages stable, drain
      exactly that many from the front of the network buffer and forward
      them as one batch.
     */
    method ForwardStable() returns (emitted: seq<Option<seq<U>>>)
      requires stable <= |networkBuffer|
      modifies this`networkBuffer, this`batchesOut, this`stable
      ensures stable == 0
      ensures networkBuffer == old(networkBuffer)[old(stable)..]
      ensures old(stable) == 0 ==> batchesOut == old(batchesOut) && emitted == []
      ensures old(stable) > 0 ==>
        var batch := old(networkBuffer)[..old(stable)];
        batchesOut == old(batchesOut) + [batch] && emitted == [Some(batch)]
      ensures Flatten(batchesOut) + networkBuffer == Flatten(old(batchesOut)) + old(networkBuffer)
    {
      emitted := [];
      if stable > 0 {
        var toBeSent := networkBuffer[..stable];
        networkBuffer := networkBuffer[stable..];
        FlattenSnoc(batchesOut, toBeSent);
        batchesOut := batchesOut + [toBeSent];
        emitted := [Some(toBeSent)];
        stable := 0;
      }
    }

    /**
      The flush half of an iteration, once the gate has fired: rotate the
      counters, commit the write buffer, forward the messages the previous
      flush made stable, and stop if shutting down with nothing unconfirmed.
     */
    method Flush(now: nat) returns (emitted: seq<Option<seq<U>>>)
      requires Valid() && !finished
      modifies this
      ensures Valid()
      ensures disk == old(disk) + old(diskBuffer) && diskBuffer == []
      ensures unstable == |old(diskBuffer)| && clock == now
      ensures networkBuffer == old(networkBuffer)[old(unstable)..]
      ensures var forwarded := if old(unstable) > 0 then [old(networkBuffer)[..old(unstable)]] else [];
        batchesOut == old(batchesOut) + forwarded && emitted == Outgoing(forwarded, finished)
      ensures finished == (shutdown && unstable == 0)
      ensures shutdown == old(shutdown) && writesIn == old(writesIn) && messagesIn == old(messagesIn)
    {
      stable := unstable;
      unstable := |diskBuffer|;
      FlushToDisk();
      clock := now;
      emitted := ForwardStable();
      if shutdown && unstable == 0 {
        var marker := Finish();
        emitted := emitted + marker;
      }
    }

    /** Lines 324-328: put the shutdown marker on channel B and leave the loop. */
    method Finish() returns (emitted: seq<Option<seq<U>>>)
      modifies this`finished
      ensures finished && emitted == [None]
    {
      emitted := [None];
      finished := true;
    }

    /** One iteration of the loop of `consumer_disk`: poll channel A, then check the flush gate. */
    method Step(poll: Poll<Option<Record<T, U>>>, now: nat) returns (emitted: seq<Option<seq<U>>>)
      requires Valid() && !finished && clock <= now
      modifies this
      ensures Valid()
      ensures writesIn == old(writesIn) + WritesOf(poll)
      ensures messagesIn == old(messagesIn) + MessagesOf(poll)
      ensures shutdown == (old(shutdown) || IsShutdown(poll))
      ensures Outgoing(old(batchesOut), false) + emitted == Outgoing(batchesOut, finished)
      // no flush: the received record waits in both buffers
      ensures !FlushDue(old(clock), now, diskDelay) ==>
        && disk == old(disk) && unstable == old(unstable) && clock == old(clock)
        && diskBuffer == old(diskBuffer) + WritesOf(poll)
        && networkBuffer == old(networkBuffer) + MessagesOf(poll)
        && batchesOut == old(batchesOut) && !finished && emitted == []
      // flush: commit, rotate the counters, forward what the previous flush committed
      ensures FlushDue(old(clock), now, diskDelay) ==>
        var pending := old(networkBuffer) + MessagesOf(poll);
        var committed := old(diskBuffer) + WritesOf(poll);
        && disk == old(disk) + committed && diskBuffer == []
        && unstable == |committed| && clock == now
        && networkBuffer == pending[old(unstable)..]
        && batchesOut == old(batchesOut) + (if old(unstable) > 0 then [pending[..old(unstable)]] else [])
        && finished == (shutdown && unstable == 0)
    {
      Receive(poll);
      emitted := [];
      if FlushDue(clock, now, diskDelay) {
        ghost var before := batchesOut;
        emitted := Flush(now);
        OutgoingAppend(before, batchesOut[|before|..], finished);
        assert batchesOut == before + batchesOut[|before|..];
      }
    }

    /**
      The loop of `consumer_disk`: one `Step` per event until the stage
      stops. Each event is what `try_recv` returned in that iteration and the
      clock reading taken for the flush gate.
     */
    method Run(events: seq<(Poll<Option<Record<T, U>>>, nat)>) returns (emitted: seq<Option<seq<U>>>, steps: nat)
      requires Valid() && !finished
      requires Chronological(clock, events)
      modifies this
      ensures Valid() && steps <= |events|
      ensures Outgoing(old(batchesOut), false) + emitted == Outgoing(batchesOut, finished)
      ensures writesIn == old(writesIn) + WritesIn(events[..steps])
      ensures messagesIn == old(messagesIn) + MessagesIn(events[..steps])
      ensures !finished ==> steps == |events|
    {
      emitted, steps := [], 0;
      while steps < |events| && !finished
        invariant Valid() && steps <= |events|
        invariant Outgoing(old(batchesOut), false) + emitted == Outgoing(batchesOut, finished)
        invariant writesIn == old(writesIn) + WritesIn(events[..steps])
        invariant messagesIn == old(messagesIn) + MessagesIn(events[..steps])
        invariant clock <= (if steps == 0 then old(clock) else events[steps - 1].1)
      {
        ghost var (w, m, o) := (writesIn, messagesIn, Outgoing(batchesOut, false));
        var out := Step(events[steps].0, events[steps].1);
        ArrivalsSnoc(events, steps);
        Extend(old(writesIn), WritesIn(events[..steps]), w, WritesOf(events[steps].0), writesIn);
        Extend(old(messagesIn), MessagesIn(events[..steps]), m, MessagesOf(events[steps].0), messagesIn);
        Extend(Outgoing(old(batchesOut), false), emitted, o, out, Outgoing(batchesOut, finished));
        emitted, steps := emitted + out, steps + 1;
      }
    }
  }

  /** The write payloads delivered by a run of polls, in order. */
  function WritesIn<T, U>(events: seq<(Poll<Option<Record<T, U>>>, nat)>): seq<T>
  {
    if events == [] then []
    else WritesIn(events[..|events| - 1]) + WritesOf(events[|events| - 1].0)
  }

  /** The message payloads delivered by a run of polls, in order. */
  function MessagesIn<T, U>(events: seq<(Poll<Option<Record<T, U>>>, nat)>): seq<U>
  {
    if events == [] then []
    else MessagesIn(events[..|events| - 1]) + MessagesOf(events[|events| - 1].0)
  }

  /**
    Regroups a history that grew by `delta`: lets `Run` carry its
    "old history + what was emitted" invariants across one `Step` without
    the solver searching for the associativity of `+` itself.
   */
  lemma Extend<X>(start: seq<X>, done: seq<X>, mid: seq<X>, delta: seq<X>, now: seq<X>)
    requires mid == start + done && now == mid + delta
    ensures now == start + (done + delta)
  {
  }

  lemma ArrivalsSnoc<T, U>(events: seq<(Poll<Option<Record<T, U>>>, nat)>, i: nat)
    requires i < |events|
    ensures WritesIn(events[..i + 1]) == WritesIn(events[..i]) + WritesOf(events[i].0)
    ensures MessagesIn(events[..i + 1]) == MessagesIn(events[..i]) + MessagesOf(events[i].0)
  {
    assert events[..i + 1][..i] == events[..i];
  }

  /**
    The stability delay. The forwarded messages are exactly the first
    |disk| - unstable messages received: those whose writes were committed
    by a flush BEFORE the latest one. The messages of the latest flush and
    of the write buffer are still held back, in arrival order.
   */
  lemma ForwardedAreStable<T, U>(d: DiskWriter<T, U>)
    requires d.Valid()
    ensures d.unstable <= |d.disk|
    ensures Flatten(d.batchesOut) == d.messagesIn[..|d.disk| - d.unstable]
    ensures d.networkBuffer == d.messagesIn[|d.disk| - d.unstable..]
    ensures d.disk == d.writesIn[..|d.disk|]
  {
    assert |Flatten(d.batchesOut)| + |d.networkBuffer| == |d.messagesIn|;
    assert |d.disk| + |d.diskBuffer| == |d.writesIn|;
  }

  /**
    When the stage has stopped, every write received is on the disk and
    every message received has been forwarded, in arrival order.
   */
  lemma DrainedAtShutdown<T, U>(d: DiskWriter<T, U>)
    requires d.Valid() && d.finished
    ensures d.disk == d.writesIn
    ensures Flatten(d.batchesOut) == d.messagesIn
    ensures Outgoing(d.batchesOut, d.finished) == Outgoing(d.batchesOut, false) + [None]
  {
    assert d.networkBuffer == [] && d.diskBuffer == [];
    assert d.messagesIn == Flatten(d.batchesOut) + [];
    OutgoingFinish(d.batchesOut);
  }

  /** The marker, when present, always comes last: forwarding more batches extends the history. */
  lemma {:induction false} OutgoingAppend<U>(batches: seq<seq<U>>, more: seq<seq<U>>, finished: bool)
    ensures Outgoing(batches + more, finished) == Outgoing(batches, false) + Outgoing(more, finished)
  {
    if batches != [] {
      assert (batches + more)[1..] == batches[1..] + more;
      OutgoingAppend(batches[1..], more, finished);
    } else {
      assert batches + more == more;
    }
  }

  lemma {:induction false} OutgoingFinish<U>(batches: seq<seq<U>>)
    ensures Outgoing(batches, true) == Outgoing(batches, false) + [None]
  {
    if batches != [] {
      OutgoingFinish(batches[1..]);
    }
  }
}
