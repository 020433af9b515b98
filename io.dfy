/**
 * Abstract typed publish/subscribe endpoints.  A receiver is a FIFO of
 * messages the transport has delivered to it; a sender is the log of the
 * messages it has published.  Whether one publish or one poll succeeds is a
 * fact about the transport and enters every operation as a parameter.
 */
module Io {
  import opened Wrappers

  /** What the transport does with one publish call. */
  datatype SendOutcome = Delivered | Rejected(error: string)

  /** What the transport does with one poll that can report a read error. */
  datatype ReadOutcome = Readable | ReadFailed(error: string)

  datatype Receiver<T> = Receiver(topic: string, queue: seq<T>) {

    /** The transport hands further messages to this endpoint. */
    function Deliver(msgs: seq<T>): (r: Receiver<T>)
      ensures r.topic == topic
      ensures |r.queue| == |queue| + |msgs|
      ensures r.queue[..|queue|] == queue && r.queue[|queue|..] == msgs
    {
      Receiver(topic, queue + msgs)
    }

    /**
     * One non-blocking poll: yields nothing exactly when nothing is queued,
     * and otherwise the oldest queued message, which it removes.
     */
    function Receive(): (r: (Option<T>, Receiver<T>))
      ensures r.1.topic == topic
      ensures r.0.None? <==> queue == []
      ensures r.0.ToSeq() + r.1.queue == queue
    {
      if queue == [] then (None, this) else (Some(queue[0]), Receiver(topic, queue[1..]))
    }

    /**
     * One poll that may fail: a read error yields the error and consumes
     * nothing; otherwise it behaves as Receive.
     */
    function TryReceive(read: ReadOutcome): (r: (Result<Option<T>, string>, Receiver<T>))
      ensures r.1.topic == topic
      ensures read.ReadFailed? <==> r.0.Failure?
      ensures read.ReadFailed? ==> r.0.error == read.error && r.1 == this
      ensures read.Readable? ==> r.0.value.ToSeq() + r.1.queue == queue
      ensures read.Readable? ==> (r.0.value.None? <==> queue == [])
    {
      match read
      case ReadFailed(e) => (Failure(e), this)
      case Readable =>
        var (m, rx) := Receive();
        (Success(m), rx)
    }
  }

  datatype Sender<T> = Sender(topic: string, log: seq<T>) {

    /**
     * One publish: a delivered message is appended to the log and the call
     * passes; a rejected one leaves the log as it was and the call fails
     * with the transport's error.
     */
    function Send(msg: T, outcome: SendOutcome): (r: (Outcome<string>, Sender<T>))
      ensures r.1.topic == topic
      ensures r.0.Pass? <==> outcome.Delivered?
      ensures outcome.Rejected? ==> r.0.error == outcome.error && r.1.log == log
      ensures outcome.Delivered? ==> r.1.log == log + [msg]
    {
      match outcome
      case Delivered => (Pass, Sender(topic, log + [msg]))
      case Rejected(e) => (Fail(e), this)
    }

    /** A publish whose outcome the caller does not see (a rejection aborts the process). */
    function Publish(msg: T): (r: Sender<T>)
      ensures r.topic == topic && r.log == log + [msg]
    {
      Send(msg, Delivered).1
    }
  }
}
