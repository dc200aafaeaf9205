# Treplica pipeline, modelled in Dafny

Treplica is a benchmark of a three-stage pipeline, written in Rust in a single file, `src/main.rs`:

- A producer thread generates records. Each record is a pair: a write to persist and a message to transmit.
- The **disk stage** (`consumer_disk`, `flush_to_disk`) buffers the writes. It commits them to a simulated disk once every `disk_delay` milliseconds. It forwards a message downstream only one flush cycle after its write was committed.
- The **network stage** (`consumer_network`, `send_to_network`) queues the batches it receives. It sends each batch in slices of `msgs_per_interval` messages, spread evenly over half a disk period.
- `parse_args` and the first checks of `main` read and validate the command-line options.

This project models:

- the two consumer stages, and the option handling that configures them;
- the properties the pipeline relies on. Every write reaches the disk. Every message is sent exactly once, in the order it was generated. A message is forwarded only after its write is stable. The send schedule always covers the batch in flight.

Files:

| file | module | contents |
|---|---|---|
| `wrappers.dfy` | `Wrappers` | `Option` |
| `units.dfy` | `Units` | the program's constants and the bounds of `u128` and `usize` |
| `sequences.dfy` | `Sequences` | `Flatten` (the concatenation of batches) and its lemmas |
| `channels.dfy` | `Channels` | the record, what one `try_recv` returns (`Poll`), and ordered clock readings |
| `disk_stage.dfy` | `DiskStage` | class `DiskWriter`: one loop iteration (`Step`), its halves, the loop (`Run`), and the stage invariant |
| `network_stage.dfy` | `NetworkStage` | class `NetworkSender`: the same structure; the send schedule `NumSends` / `SendInterval` |
| `options.dfy` | `Options` | `ParseArgs` (the loop) against `Parsed` (its specification); the `u128`/`usize` number parser; the checks in `main`, both as written and corrected |
| `pipeline.dfy` | `Pipeline` | the stages wired together: start-up and end-to-end order |

Modelling choices:

- Time is a parameter. Every iteration takes `now`, a reading of the monotonic clock in nanoseconds.
  - The disk gate compares whole elapsed milliseconds (the truncation of `as_millis`) with `diskDelay`.
  - The network gate compares elapsed nanoseconds with `sendInterval`.
- A channel is seen from the receiving stage as the sequence of `Poll` values its `try_recv` returned.
- Ghost fields record the whole traffic: `writesIn`, `messagesIn` and `batchesOut` for the disk stage, and `batchesIn` for the network stage.
- Each stage's invariant `Valid()` is the conservation law the source relies on:
  - Disk stage: `|networkBuffer| == unstable + |diskBuffer|`. It also requires that the forwarded batches, followed by the pending messages, are exactly the messages received.
  - Network stage: `numSends == ceil(|inFlight| / msgsPerInterval)`. It also requires that the history, then the batch in flight, then the queue, make up every message received.

## Model

| member | source | states |
|---|---|---|
| Channels.WritesOf | src/main.rs:279-285 | a poll contributes at most one write, and contributes one exactly when it delivered a record |
| Channels.MessagesOf | src/main.rs:279-285 | a poll contributes as many messages as writes, so the two buffers grow together |
| Channels.BatchesOf | src/main.rs:363-366 | a poll of channel B contributes at most one batch, and contributes one exactly when it delivered `Some` |
| DiskStage.DiskWriter.constructor | src/main.rs:259-270 | the stage starts with an empty disk, empty buffers and zero counters, with the clock at the start reading, and satisfies the invariant |
| DiskStage.DiskWriter.FlushToDisk | src/main.rs:334-340 | the disk becomes the old disk followed by the old write buffer, and the write buffer is emptied |
| DiskStage.DiskWriter.Receive | src/main.rs:277-296 | a record appends its write to the write buffer and its message to the network buffer; the marker only sets `shutdown`; `Empty` and `Disconnected` change nothing; the invariant is kept |
| DiskStage.DiskWriter.ForwardStable | src/main.rs:310-322 | when `stable > 0`, exactly the first `stable` pending messages are forwarded as one batch, the rest stay in order, and `stable` returns to 0; otherwise nothing is sent |
| DiskStage.DiskWriter.Flush | src/main.rs:298-329 | `stable` takes the old `unstable`, and `unstable` takes the old write-buffer length; the write buffer goes to disk; the batch forwarded is the first old-`unstable` pending messages; what is put on channel B is that batch, then the marker exactly when `shutdown && unstable == 0`; the invariant is kept |
| DiskStage.DiskWriter.Finish | src/main.rs:324-328 | the marker `None` is emitted and the loop stops |
| DiskStage.DiskWriter.Step | src/main.rs:275-330 | one iteration. If the gate has not fired, only the received record is buffered and nothing is emitted. If it has fired, the flush above is applied to the buffers that include the record just received. Either way, channel B's contents extend the earlier history, with the marker last |
| DiskStage.DiskWriter.Run | src/main.rs:275-330 | over a run of polls with non-decreasing clock readings, the stage keeps its invariant; it has received exactly the writes and messages of the polls it processed; it has stopped if it processed fewer polls than were given; what it emitted extends channel B's history |
| DiskStage.ForwardedAreStable | src/main.rs:300-322 | the stability delay: the forwarded messages are exactly the first `|disk| - unstable` messages received, the ones whose writes were committed before the latest flush; the rest wait in arrival order; the disk is a prefix of the writes received |
| DiskStage.DrainedAtShutdown | src/main.rs:324-328 | once the stage has stopped, every write received is on disk, every message received has been forwarded in arrival order, and the marker is the last thing sent |
| DiskStage.OutgoingAppend | src/main.rs:318-325 | forwarding further batches, and possibly the marker, extends what was sent on channel B; the marker can only come last |
| NetworkStage.NumSends | src/main.rs:405 | the number of sends is 0 exactly for an empty batch; otherwise it is the ceiling of `len / msgsPerInterval`: `(n-1)*m < len <= n*m`. It is computed without an intermediate sum, so it exists for every positive rate (the corrected line 405; see Findings) |
| NetworkStage.NumSendsAsWritten | src/main.rs:405 | line 405 in `usize` arithmetic aborts exactly when the rate is 0 or `len + rate - 1` reaches 2^64; otherwise it gives the same count as `NumSends` |
| NetworkStage.RoundedQuotient | src/main.rs:405 | the rounded-up quotient `(len + m - 1) / m` written on line 405 equals the ceiling `NumSends` |
| NetworkStage.NumSendsUnique | src/main.rs:405 | the ceiling is the only count that meets those bounds |
| NetworkStage.SendInterval | src/main.rs:406 | the pause is half a disk period in nanoseconds split evenly: `interval * n <= half < (interval + 1) * n` |
| NetworkStage.NumSendsAfterSlice | src/main.rs:409-422 | sending one slice of a non-empty batch lowers the ceiling of what is left by exactly one |
| NetworkStage.SingleSendWhenBatchFits | src/main.rs:405 | a batch no larger than `msgsPerInterval` takes a single send |
| NetworkStage.NetworkSender.constructor | src/main.rs:345-354 | the stage starts with an empty queue, an empty batch in flight and an empty history, with zero interval and zero sends, and satisfies the invariant |
| NetworkStage.NetworkSender.SendToNetwork | src/main.rs:431-435 | the slice is appended to the history |
| NetworkStage.NetworkSender.Receive | src/main.rs:361-377 | a batch joins the back of the queue, and the marker sets `shutdown`; nothing else changes; the invariant is kept |
| NetworkStage.NetworkSender.StartBatch | src/main.rs:397-407 | with nothing in flight, the front batch is dequeued and gets the schedule `NumSends` / `SendInterval`, with at least one send; with an empty queue nothing changes |
| NetworkStage.NetworkSender.SendSlice | src/main.rs:409-423 | the first `min(msgsPerInterval, len)` messages in flight go, in order, to the end of the history; the remainder stays in order; one send is counted off |
| NetworkStage.NetworkSender.Send | src/main.rs:393-426 | when the gate fires, with nothing in flight and nothing queued, the iteration is skipped and the clock is not restarted; otherwise the front batch (when starting) or the batch in flight loses its first slice to the history, the schedule is updated, and the clock restarts |
| NetworkStage.NetworkSender.Step | src/main.rs:359-427 | one iteration. The stage stops exactly when the marker has arrived and nothing is queued or in flight. Otherwise, if the gate has not fired, only the queue changes; if it has fired, the send above happens |
| NetworkStage.NetworkSender.Run | src/main.rs:359-427 | over a run of polls with non-decreasing clock readings and non-empty batches, the stage keeps its invariant; it has received exactly the batches of the polls it processed; it has stopped if it processed fewer polls than were given |
| NetworkStage.ScheduleCoversInFlight | src/main.rs:397-423 | no sends are left exactly when nothing is in flight, and the sends left can carry what is in flight |
| NetworkStage.SentInArrivalOrder | src/main.rs:363-423 | the history is always a prefix of the received batches, concatenated |
| NetworkStage.DeliveredAtShutdown | src/main.rs:379-382 | once the stage has stopped, the history is exactly the concatenation of every batch received |
| Options.ParseNumber | src/main.rs:58-73 | the text parses only as a number below the type's bound; empty text and a lone `+` are rejected |
| Options.NonDigitRejected | src/main.rs:58-73 | any character other than a digit, apart from a leading `+`, makes the value unparsable |
| Options.DecimalRoundTrip | src/main.rs:58-73 | every value of the option's type reads back from its decimal spelling |
| Options.ParseArgs | src/main.rs:40-147 | the loop over the arguments returns exactly the result of the left-to-right scan `Parsed` |
| Options.NoOptionsGiveDefaults | src/main.rs:41-50 | with no options, the result is the defaults (false, 0, 0, 4096, 20, 1) |
| Options.AppendOption | src/main.rs:50-144 | one more argument on a command line that parses has these effects. `--help` or an unknown argument makes the scan fail. `--debug` sets the flag. An option taking a value fails when the value is missing or unparsable; otherwise that value replaces the earlier one, so the last occurrence wins |
| Options.ParsedValuesInRange | src/main.rs:40-147 | every value a successful scan returns fits its Rust type: `u128`, and `usize` for the messages per interval |
| Options.CheckOptionsAsWritten | src/main.rs:161-173 | giving neither or both of the runtime and the number of writes is refused. With a runtime, the program panics exactly when `runtime * 1000` overflows `u128` or `disk_delay` is 0; otherwise the number of writes is `runtime * 1000 / disk_delay`. The other options pass through unchanged |
| Options.CheckOptions | src/main.rs:161-173 | the corrected checks never panic; they start exactly when one of runtime and number of writes is given, the rate is positive, and a runtime comes with a positive delay and no overflow |
| Options.CheckOptionsAgrees | src/main.rs:161-173 | where the checks as written neither panic nor start with a zero rate, the corrected checks decide the same |
| Options.DivideByZeroAccepted | src/main.rs:172 | `-r 1 -dd 0` parses, then the checks as written divide by zero; the corrected checks refuse it |
| Options.ZeroRateAccepted | src/main.rs:405 | `-n 1 -mpi 0` parses and passes the checks as written with a zero rate, which underflows at line 405; the corrected checks refuse it |
| Options.RuntimeOverflowAccepted | src/main.rs:172 | a runtime just above `u128::MAX / 1000` parses, then the checks as written overflow; the corrected checks refuse it |
| Pipeline.Launch | src/main.rs:153-199 | both stages are started, fresh, valid and configured with the delay and the rate, exactly when the options parse and pass the checks |
| Pipeline.OrderPreserved | src/main.rs:275-427 | while the network stage has received a prefix of the batches the disk stage forwarded, its history is a prefix of the first `|disk| - unstable` messages the disk stage received: it is in generation order, and holds only messages whose writes a flush before the latest one committed |
| Pipeline.HugeRateOverflows | src/main.rs:405 | `-n 1 -mpi 18446744073709551615` parses and passes the corrected checks, and a batch of two messages then overflows line 405 as written; the corrected `NumSends` gives one send |
| Pipeline.EndToEnd | src/main.rs:275-427 | when both stages have stopped and every forwarded batch was delivered, the disk holds every write, and the history is every message in the order generated |

## Left out

- Threads and `mpsc` channels (src/main.rs:187-199, 214-216). The stages are step methods over sequences of polls. Channel B's FIFO delivery is an assumption of `Pipeline.OrderPreserved` and `Pipeline.EndToEnd` (`n.batchesIn` is a prefix of `d.batchesOut`, or equals it).
- The clock (`Instant`, `SystemTime`, `thread::sleep`). Readings are the parameter `now`, and the run methods require them to be non-decreasing.
- DiskStage.DiskWriter.Flush: the clock restarts at the same reading the gate used. The source takes a fresh reading at line 307, after the flush. NetworkStage.NetworkSender.Send does the same with the reading at line 425.
- DiskStage.DiskWriter.Run: a run covers a finite number of iterations. That the loops eventually stop (a liveness property that depends on scheduling) is not modelled. NetworkStage.NetworkSender.Run is the same.
- Log files, timestamps in them, and every `println!` (src/main.rs:228-242, 249, 292, 326, 335-337, 373, 380, 432-434). These are output only; the `Disconnected` branches do nothing else.
- The producer loop in `main` and `producer()` (src/main.rs:202-212, 245-252): timestamp generation and pacing with `sleep`. Their output is the sequence of polls given to `DiskWriter.Run`.
- The analyzer scripts under `treplica_analyzer/`: offline statistics over log files, with floating point.
- NetworkStage.NetworkSender.Receive requires that a received batch is not empty. So do `Step` and `Run`. An empty batch would make line 406 divide by zero. The disk stage never forwards one: its invariant states that every forwarded batch is non-empty.
- NetworkStage.NetworkSender.constructor requires `msgsPerInterval > 0`. A zero rate underflows at line 405; see Findings. `Pipeline.Launch` uses the corrected checks, which guarantee it.
- NetworkStage.SendInterval: the `u128` product `(disk_delay / 2) * 1_000_000` at line 406 is unbounded here. It overflows only for disk delays above about 6.8e32 ms.
- The buffer lengths, and the counters `unstable`, `stable` and `numSends` derived from them, are unbounded. They never exceed the number of messages held in memory, far below 2^64. The one `usize` sum that a large option value can overflow, on line 405, is a finding below.
- Panics are modelled as in a debug build: an overflow panics instead of wrapping.
- `usize` is taken as 64 bits wide.
- `Options.ParseNumber` covers the decimal grammar of Rust's unsigned `from_str`: an optional `+`, at least one ASCII digit, and a range check. The text of the error messages is not modelled.
- The "help" and "usage" text (`args_help`, `args_error`). These are output only; the model records `None` and `Refused`.

## Findings

| source | as written | input that shows it | evidently intended | confidence | as-written member | corrected member |
|---|---|---|---|---|---|---|
| src/main.rs:171-173 | with a runtime, `num_writes = runtime * ONE_THOUSAND / disk_delay` is computed with no check that `disk_delay` is positive | `treplica -r 1 -dd 0` | refuse a zero disk delay with the usage message | not executed | Options.DivideByZeroAccepted | Options.CheckOptions |
| src/main.rs:405 | `msgs_per_interval` is accepted as any `usize`, including 0, and the network stage then computes `msgs_per_interval - 1` | `treplica -n 1 -mpi 0` | refuse a zero rate with the usage message | not executed | Options.ZeroRateAccepted | Options.CheckOptions |
| src/main.rs:172 | `runtime * ONE_THOUSAND` is a `u128` product, and a runtime above `u128::MAX / 1000` overflows it | `treplica -r 340282366920938463463374607431768212` | refuse a runtime whose conversion does not fit | not executed | Options.RuntimeOverflowAccepted | Options.CheckOptions |
| src/main.rs:405 | the number of sends is computed as `(buffer_size + (msgs_per_interval - 1)) / msgs_per_interval` in `usize`, and any `usize` rate is accepted | `treplica -n 1 -mpi 18446744073709551615`, with a batch of two messages | compute the ceiling without overflow, `(buffer_size - 1) / msgs_per_interval + 1` for a non-empty batch | not executed | Pipeline.HugeRateOverflows | NetworkStage.NumSends |
