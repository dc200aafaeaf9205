/**
  The two consumer stages put together as `main` wires them: channel B
  carries the disk stage's batches, in order, to the network stage.
 */
module Pipeline {
  import opened Wrappers
  import opened Sequences
  import opened Options
  import opened DiskStage
  import opened NetworkStage
  import opened Units

  /**
    At every moment, whatever the network stage has sent is a prefix of
    the messages the disk stage received, and holds only messages whose
    writes were committed BEFORE the latest flush: nothing goes out on the
    network before the flush after the one that made its write durable.
    This holds provided the network stage has received a prefix of the
    batches the disk stage forwarded (channel B is FIFO and loses nothing).
   */
  lemma OrderPreserved<T, U>(d: DiskWriter<T, U>, n: NetworkSender<U>)
    requires d.Valid() && n.Valid()
    requires n.batchesIn <= d.batchesOut
    ensures d.unstable <= |d.disk|
    ensures n.history <= d.messagesIn[..|d.disk| - d.unstable]
  {
    SentInArrivalOrder(n);
    FlattenPrefix(n.batchesIn, d.batchesOut);
    ForwardedAreStable(d);
  }

  /**
    Once both stages have stopped and the network stage has received every
    batch forwarded, every write is on the disk and the send history is
    exactly the sequence of messages received, in generation order.
   */
  lemma EndToEnd<T, U>(d: DiskWriter<T, U>, n: NetworkSender<U>)
    requires d.Valid() && n.Valid() && d.finished && n.finished
    requires n.batchesIn == d.batchesOut
    ensures d.disk == d.writesIn
    ensures n.history == d.messagesIn
    ensures |n.history| == |d.writesIn|
  {
    DrainedAtShutdown(d);
    DeliveredAtShutdown(n);
  }

  /**
    `main` after the options: start both stages with the configured disk
    delay and rate, or start nothing when the options are refused. The
    corrected checks guarantee the network stage a positive rate.
   */
  method Launch<T, U>(args: seq<string>, start: nat) returns (stages: Option<(DiskWriter<T, U>, NetworkSender<U>)>)
    ensures stages.Some? <==> Startup(args).Start?
    ensures stages.Some? ==>
      var (d, n) := stages.value;
      var c := Startup(args).config;
      && fresh(d) && fresh(n)
      && d.Valid() && n.Valid() && !d.finished && !n.finished
      && d.diskDelay == c.diskDelay && n.diskDelay == c.diskDelay && n.msgsPerInterval == c.msgsPerInterval
      && d.writesIn == [] && d.messagesIn == [] && d.batchesOut == [] && n.batchesIn == []
  {
    var parsed := ParseArgs(args);
    if parsed.None? {
      return None;
    }
    var launch := CheckOptions(parsed.value);
    if !launch.Start? {
      return None;
    }
    var c := launch.config;
    var d := new DiskWriter<T, U>(c.diskDelay, start);
    var n := new NetworkSender<U>(c.diskDelay, c.msgsPerInterval, start);
    return Some((d, n));
  }

  /**
    A rate of `usize::MAX` messages per interval parses and passes the
    checks of `main`, and the first batch of two messages then overflows
    the `usize` sum on line 405; the overflow-free ceiling gives one send.
   */
  lemma HugeRateOverflows()
    ensures var m := USIZE_LIMIT - 1;
      var o := Defaults.(numWrites := 1, msgsPerInterval := m);
      && Parsed(["treplica", "-n", "1", "-mpi", Decimal(m)]) == Some(o)
      && CheckOptions(o).Start? && CheckOptions(o).config.msgsPerInterval == m
      && NumSendsAsWritten(2, m) == None
      && NumSends(2, m) == 1
  {
    var m := USIZE_LIMIT - 1;
    var args := ["treplica", "-n", "1", "-mpi", Decimal(m)];
    DecimalRoundTrip(1, U128_LIMIT);
    DecimalRoundTrip(m, USIZE_LIMIT);
    assert Classify(args[1]) == NumWrites && Classify(args[3]) == MsgsPerInterval;
    ScanValue(args, 1, Defaults);
    ScanValue(args, 3, Defaults.(numWrites := 1));
    SingleSendWhenBatchFits(2, m);
  }
}
