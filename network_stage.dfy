/**
  The network stage (`consumer_network` and `send_to_network` in
  src/main.rs).

  Batches from the disk stage wait in a FIFO queue. When the send gate
  fires and no batch is in flight, the next batch is dequeued and a send
  schedule is computed for it: as many sends as it takes to move the batch
  `msgsPerInterval` messages at a time, spread evenly over half a disk
  period. Every firing of the gate then moves the next slice of the batch
  in flight to the send history. The stage stops once the marker has been
  received and nothing is queued or in flight.

  Time is a parameter, as in the disk stage: `now` is a monotonic clock
  reading in nanoseconds and `clock` the reading at the last send.
 */
module NetworkStage {
  import opened Wrappers
  import opened Channels
  import opened Sequences
  import opened Units

  function Min(a: nat, b: nat): nat {
    if a < b then a else b
  }

  /**
    The number of sends a batch of `len` messages needs at
    `msgsPerInterval` messages per send: the ceiling of the quotient
    (line 405), computed so that no intermediate value exceeds `len`.
   */
  function NumSends(len: nat, msgsPerInterval: nat): (n: nat)
    requires msgsPerInterval > 0
    ensures len == 0 <==> n == 0
    ensures n > 0 ==> (n - 1) * msgsPerInterval < len <= n * msgsPerInterval
  {
    if len == 0 then 0
    else
      DivisionBounds(len - 1, msgsPerInterval);
      (len - 1) / msgsPerInterval + 1
  }

  /**
    Line 405 as written, in `usize` arithmetic: `msgs_per_interval - 1`
    underflows for a zero rate, and `buffer_size + (msgs_per_interval - 1)`
    overflows for a rate close to 2^64; both abort the stage (`None`).
    Otherwise it is the ceiling that `NumSends` computes.
   */
  function NumSendsAsWritten(len: nat, msgsPerInterval: nat): (r: Option<nat>)
    ensures r.None? <==> msgsPerInterval == 0 || len + msgsPerInterval - 1 >= USIZE_LIMIT
    ensures r.Some? ==> r.value == NumSends(len, msgsPerInterval)
  {
    if msgsPerInterval == 0 then None
    else if len + (msgsPerInterval - 1) >= USIZE_LIMIT then None
    else
      RoundedQuotient(len, msgsPerInterval);
      Some((len + (msgsPerInterval - 1)) / msgsPerInterval)
  }

  /** The rounded-up quotient of line 405 is the ceiling, whenever it can be computed. */
  lemma RoundedQuotient(len: nat, m: nat)
    requires m > 0
    ensures (len + (m - 1)) / m == NumSends(len, m)
  {
    var q := (len + (m - 1)) / m;
    DivisionBounds(len + (m - 1), m);
    if len > 0 {
      assert q * m <= len + m - 1 < q * m + m;
      assert q >= 1;
      assert (q - 1) * m == q * m - m;
      NumSendsUnique(len, m, q);
    }
  }

  /**
    The pause between two sends of a batch that takes `numSends` sends
    (line 406): half a disk period, in nanoseconds, split evenly. The sends
    of one batch fit in that half period, and less than one nanosecond per
    send is lost to rounding.
   */
  function SendInterval(diskDelay: nat, numSends: nat): (interval: nat)
    requires numSends > 0
    ensures interval * numSends <= (diskDelay / 2) * ONE_MILLION < (interval + 1) * numSends
  {
    var halfPeriod := (diskDelay / 2) * ONE_MILLION;
    DivisionBounds(halfPeriod, numSends);
    halfPeriod / numSends
  }

  lemma DivisionBounds(a: nat, m: nat)
    requires m > 0
    ensures (a / m) * m <= a < (a / m + 1) * m
  {
    assert a == (a / m) * m + a % m;
  }

  /** The ceiling is the only count that satisfies the bounds of `NumSends`. */
  lemma NumSendsUnique(len: nat, m: nat, n: nat)
    requires m > 0 && n > 0 && (n - 1) * m < len <= n * m
    ensures NumSends(len, m) == n
  {
    var c := NumSends(len, m);
    if c < n {
      MultiplyMonotone(c, n - 1, m);
    } else if c > n {
      MultiplyMonotone(n, c - 1, m);
    }
  }

  lemma MultiplyMonotone(a: nat, b: nat, m: nat)
    requires a <= b
    ensures a * m <= b * m
  {
    assert b * m == a * m + (b - a) * m;
  }

  /**
    Sending one slice of a non-empty batch in flight uses up exactly one of
    its scheduled sends: the schedule stays the ceiling of what is left.
   */
  lemma NumSendsAfterSlice(len: nat, m: nat)
    requires m > 0 && len > 0
    ensures NumSends(len - Min(m, len), m) == NumSends(len, m) - 1
  {
    var n := NumSends(len, m);
    if len <= m {
      NumSendsUnique(len, m, 1);
    } else {
      assert (n - 1 - 1) * m == (n - 1) * m - m;
      assert (n - 1) * m == n * m - m;
      NumSendsUnique(len - m, m, n - 1);
    }
  }

  /** A batch no larger than `msgsPerInterval` goes out in a single send. */
  lemma SingleSendWhenBatchFits(len: nat, m: nat)
    requires 0 < len <= m
    ensures NumSends(len, m) == 1
  {
    NumSendsUnique(len, m, 1);
  }

  class NetworkSender<U> {
    const diskDelay: nat            // the disk stage's flush period, milliseconds
    const msgsPerInterval: nat      // messages moved by one send

    var queue: seq<seq<U>>          // batches waiting to be sent (`network_buffers`)
    var inFlight: seq<U>            // what is left of the batch being sent (`buffer_to_be_sent`)
    var history: seq<U>             // every message sent so far (`network_history`)
    var clock: nat                  // clock reading at the latest send
    var sendInterval: nat           // pause between two sends, nanoseconds
    var numSends: nat               // sends left for the batch in flight
    var shutdown: bool              // the marker has been received
    var finished: bool              // the loop has broken out

    ghost var batchesIn: seq<seq<U>> // every batch received on channel B, in order

    /**
      The stage invariant, between two iterations: the send count is the
      schedule of what is left in flight (so it is 0 exactly when nothing
      is in flight), queued batches are not empty, and what was sent,
      what is in flight and what is queued make up, in this order, every
      message received.
     */
    ghost predicate Valid()
      reads this
    {
      && msgsPerInterval > 0
      && numSends == NumSends(|inFlight|, msgsPerInterval)
      && (forall k :: 0 <= k < |queue| ==> queue[k] != [])
      && history + inFlight + Flatten(queue) == Flatten(batchesIn)
      && (finished ==> shutdown && queue == [] && inFlight == [])
    }

    constructor (diskDelay: nat, msgsPerInterval: nat, start: nat)
      requires msgsPerInterval > 0
      ensures Valid() && this.diskDelay == diskDelay && this.msgsPerInterval == msgsPerInterval
      ensures queue == [] && inFlight == [] && history == [] && batchesIn == []
      ensures clock == start && sendInterval == 0 && numSends == 0
      ensures !shutdown && !finished
    {
      this.diskDelay := diskDelay;
      this.msgsPerInterval := msgsPerInterval;
      queue, inFlight, history, batchesIn := [], [], [], [];
      clock, sendInterval, numSends := start, 0, 0;
      shutdown, finished := false, false;
    }

    /** `send_to_network`: append a slice to the send history. */
    method SendToNetwork(slice: seq<U>)
      modifies this`history
      ensures history == old(history) + slice
    {
      history := history + slice;
    }

    /** The receive half of an iteration: a batch joins the back of the queue, the marker sets the flag. */
    method Receive(poll: Poll<Option<seq<U>>>)
      requires Valid() && !finished
      requires poll.Ready? && poll.msg.Some? ==> poll.msg.value != []
      modifies this
      ensures Valid() && !finished
      ensures queue == old(queue) + BatchesOf(poll)
      ensures batchesIn == old(batchesIn) + BatchesOf(poll)
      ensures shutdown == (old(shutdown) || IsShutdown(poll))
      ensures inFlight == old(inFlight) && history == old(history) && numSends == old(numSends)
      ensures sendInterval == old(sendInterval) && clock == old(clock)
    {
      match poll {
        case Ready(Some(m)) =>
          FlattenSnoc(queue, m);
          FlattenSnoc(batchesIn, m);
          queue := queue + [m];
          batchesIn := batchesIn + [m];
        case Ready(None) =>
          shutdown := true;
        case Empty =>
        case Disconnected =>
          // only a diagnostic is printed
      }
    }

    /**
      Lines 397-407: with no batch in flight, dequeue the next one and
      compute its schedule. Reports false, changing nothing, when the queue
      is empty (the source then skips the rest of the iteration).
     */
    method StartBatch() returns (started: bool)
      requires Valid() && !finished && numSends == 0
      modifies this`queue, this`inFlight, this`numSends, this`sendInterval
      ensures started == (old(queue) != [])
      ensures !started ==> queue == old(queue) && inFlight == old(inFlight) && sendInterval == old(sendInterval)
      ensures started ==>
        && inFlight == old(queue)[0] && queue == old(queue)[1..]
        && numSends == NumSends(|inFlight|, msgsPerInterval) > 0
        && sendInterval == SendInterval(diskDelay, numSends)
      ensures Valid()
    {
      if queue == [] {
        return false;
      }
      FlattenCons(queue);
      inFlight := queue[0];
      queue := queue[1..];
      var bufferSize := |inFlight|;
      numSends := NumSends(bufferSize, msgsPerInterval);
      sendInterval := SendInterval(diskDelay, numSends);
      started := true;
    }

    /**
      Lines 409-423: move the first `msgsPerInterval` messages in flight,
      or all of them if fewer are left, to the end of the history, and count
      one send off the schedule.
     */
    method SendSlice()
      requires Valid() && !finished
      modifies this`inFlight, this`history, this`numSends
      ensures Valid()
      ensures var k := Min(msgsPerInterval, |old(inFlight)|);
        && history == old(history) + old(inFlight)[..k]
        && inFlight == old(inFlight)[k..]
      ensures numSends == if old(inFlight) == [] then 0 else old(numSends) - 1
    {
      var bufferSize := |inFlight|;
      if bufferSize > 0 {
        var splitIndex := Min(msgsPerInterval, bufferSize);
        var slice := inFlight[..splitIndex];
        NumSendsAfterSlice(bufferSize, msgsPerInterval);
        assert inFlight == slice + inFlight[splitIndex..];
        inFlight := inFlight[splitIndex..];
        SendToNetwork(slice);
        numSends := numSends - 1;
      }
    }

    /**
      The send half of an iteration, once the gate has fired (lines
      395-425): start the next batch if none is in flight, or skip the
      iteration without restarting the clock when there is none; then send
      one slice and restart the clock.
     */
    method Send(now: nat)
      requires Valid() && !finished
      modifies this
      ensures Valid() && !finished
      ensures batchesIn == old(batchesIn) && shutdown == old(shutdown)
      ensures old(numSends) == 0 && old(queue) == [] ==>
        && queue == old(queue) && inFlight == old(inFlight) && history == old(history)
        && numSends == old(numSends) && sendInterval == old(sendInterval) && clock == old(clock)
      ensures old(numSends) != 0 || old(queue) != [] ==>
        var current := if old(numSends) == 0 then old(queue)[0] else old(inFlight);
        var k := Min(msgsPerInterval, |current|);
        && current != []
        && queue == (if old(numSends) == 0 then old(queue)[1..] else old(queue))
        && history == old(history) + current[..k]
        && inFlight == current[k..]
        && numSends == NumSends(|current|, msgsPerInterval) - 1
        && sendInterval == (if old(numSends) == 0
                            then SendInterval(diskDelay, NumSends(|current|, msgsPerInterval))
                            else old(sendInterval))
        && clock == now
    {
      if numSends == 0 {
        var started := StartBatch();
        if !started {
          return;
        }
      }
      SendSlice();
      clock := now;
    }

    /**
      One iteration of the loop of `consumer_network`: poll channel B, stop
      if the marker has arrived and nothing is queued or in flight, and
      otherwise send a slice if the send gate has fired.
     */
    method Step(poll: Poll<Option<seq<U>>>, now: nat)
      requires Valid() && !finished && clock <= now
      requires poll.Ready? && poll.msg.Some? ==> poll.msg.value != []
      modifies this
      ensures Valid()
      ensures batchesIn == old(batchesIn) + BatchesOf(poll)
      ensures shutdown == (old(shutdown) || IsShutdown(poll))
      ensures finished == (shutdown && old(queue) + BatchesOf(poll) == [] && old(inFlight) == [])
      // stopped, or the gate has not fired: only the queue changed
      ensures finished || now - old(clock) < old(sendInterval) ==>
        && queue == old(queue) + BatchesOf(poll) && inFlight == old(inFlight)
        && history == old(history) && numSends == old(numSends)
        && sendInterval == old(sendInterval) && clock == old(clock)
      // the gate has fired
      ensures !finished && now - old(clock) >= old(sendInterval) ==>
        var waiting := old(queue) + BatchesOf(poll);
        if old(numSends) == 0 && waiting == [] then
          && queue == waiting && inFlight == old(inFlight) && history == old(history)
          && numSends == old(numSends) && sendInterval == old(sendInterval) && clock == old(clock)
        else
          var current := if old(numSends) == 0 then waiting[0] else old(inFlight);
          var k := Min(msgsPerInterval, |current|);
          && queue == (if old(numSends) == 0 then waiting[1..] else waiting)
          && history == old(history) + current[..k]
          && inFlight == current[k..]
          && numSends == NumSends(|current|, msgsPerInterval) - 1
          && sendInterval == (if old(numSends) == 0
                              then SendInterval(diskDelay, NumSends(|current|, msgsPerInterval))
                              else old(sendInterval))
          && clock == now
    {
      Receive(poll);
      if shutdown && queue == [] && inFlight == [] {
        finished := true;
        return;
      }
      if now - clock >= sendInterval {
        Send(now);
      }
    }

    /**
      The loop of `consumer_network`: one `Step` per event until the stage
      stops. Each event is what `try_recv` returned in that iteration and the
      clock reading taken for the send gate.
     */
    method Run(events: seq<(Poll<Option<seq<U>>>, nat)>) returns (steps: nat)
      requires Valid() && !finished
      requires Chronological(clock, events)
      requires forall i :: 0 <= i < |events| ==> NonEmptyBatch(events[i].0)
      modifies this
      ensures Valid() && steps <= |events|
      ensures batchesIn == old(batchesIn) + BatchesIn(events[..steps])
      ensures !finished ==> steps == |events|
    {
      steps := 0;
      while steps < |events| && !finished
        invariant Valid() && steps <= |events|
        invariant batchesIn == old(batchesIn) + BatchesIn(events[..steps])
        invariant clock <= (if steps == 0 then old(clock) else events[steps - 1].1)
      {
        Step(events[steps].0, events[steps].1);
        BatchesInSnoc(events, steps);
        assert batchesIn == old(batchesIn) + (BatchesIn(events[..steps]) + BatchesOf(events[steps].0));
        steps := steps + 1;
      }
    }
  }

  /** A poll that does not deliver an empty batch. */
  predicate NonEmptyBatch<U>(p: Poll<Option<seq<U>>>)
  {
    p.Ready? && p.msg.Some? ==> p.msg.value != []
  }

  /** The batches delivered by a run of polls, in order. */
  function BatchesIn<U>(events: seq<(Poll<Option<seq<U>>>, nat)>): seq<seq<U>>
  {
    if events == [] then []
    else BatchesIn(events[..|events| - 1]) + BatchesOf(events[|events| - 1].0)
  }

  lemma BatchesInSnoc<U>(events: seq<(Poll<Option<seq<U>>>, nat)>, i: nat)
    requires i < |events|
    ensures BatchesIn(events[..i + 1]) == BatchesIn(events[..i]) + BatchesOf(events[i].0)
  {
    assert events[..i + 1][..i] == events[..i];
  }

  /**
    The schedule tracks the batch in flight: no sends are left exactly when
    nothing is in flight, and the sends left can carry what is in flight.
   */
  lemma ScheduleCoversInFlight<U>(n: NetworkSender<U>)
    requires n.Valid()
    ensures n.numSends == 0 <==> n.inFlight == []
    ensures |n.inFlight| <= n.numSends * n.msgsPerInterval
  {
  }

  /**
    Messages are sent in the order they were received: the history is
    always a prefix of the received batches, concatenated.
   */
  lemma SentInArrivalOrder<U>(n: NetworkSender<U>)
    requires n.Valid()
    ensures n.history <= Flatten(n.batchesIn)
  {
    assert Flatten(n.batchesIn) == n.history + (n.inFlight + Flatten(n.queue));
  }

  /** Once the stage has stopped, every message received has been sent, in order. */
  lemma DeliveredAtShutdown<U>(n: NetworkSender<U>)
    requires n.Valid() && n.finished
    ensures n.history == Flatten(n.batchesIn)
  {
    assert n.history + n.inFlight + Flatten(n.queue) == n.history;
  }
}
