/**
  The values that travel between the three pipeline stages.

  Channel A (producer to disk stage) carries `Option<Record<T, U>>`:
  `Some(record)` is one generated event and `None` is the shutdown marker.
  Channel B (disk stage to network stage) carries `Option<seq<U>>`:
  `Some(batch)` is a batch of stable messages and `None` is the marker.
 */
module Channels {
  import opened Wrappers

  /** One generated event: the payload to persist and the payload to transmit. */
  datatype Record<T, U> = Record(write: T, message: U)

  /** The outcome of one non-blocking `try_recv` on a channel. */
  datatype Poll<M> =
    | Ready(msg: M)     // a message was waiting
    | Empty             // nothing was waiting in this iteration
    | Disconnected      // the sending half was dropped

  /** The write payloads a disk-stage poll contributes (at most one). */
  function WritesOf<T, U>(p: Poll<Option<Record<T, U>>>): (ws: seq<T>)
    ensures |ws| <= 1
    ensures ws != [] <==> p.Ready? && p.msg.Some?
  {
    if p.Ready? && p.msg.Some? then [p.msg.value.write] else []
  }

  /** The message payloads a disk-stage poll contributes (at most one). */
  function MessagesOf<T, U>(p: Poll<Option<Record<T, U>>>): (ms: seq<U>)
    ensures |ms| == |WritesOf(p)|
  {
    if p.Ready? && p.msg.Some? then [p.msg.value.message] else []
  }

  /** The batches a network-stage poll contributes (at most one). */
  function BatchesOf<U>(p: Poll<Option<seq<U>>>): (bs: seq<seq<U>>)
    ensures |bs| <= 1
    ensures bs != [] <==> p.Ready? && p.msg.Some?
  {
    if p.Ready? && p.msg.Some? then [p.msg.value] else []
  }

  /** Clock readings taken at successive polls: that start no earlier than `start` and never go back. */
  predicate Chronological<M>(start: nat, events: seq<(M, nat)>)
  {
    && (events != [] ==> start <= events[0].1)
    && (forall i :: 0 < i < |events| ==> events[i - 1].1 <= events[i].1)
  }

  /** True when a poll delivered the shutdown marker. */
  predicate IsShutdown<M>(p: Poll<Option<M>>) {
    p.Ready? && p.msg.None?
  }
}
