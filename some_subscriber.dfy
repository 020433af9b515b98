/**
 * The subscriber prototype: on every cycle takes at most one SimpleCommand,
 * stores it as the last command, acknowledges it and marks itself complete.
 * No message and a read error are both ignored.
 */
module Subscriber {
  import opened Wrappers
  import opened Msgs
  import opened Io

  /** The fields of the subscriber. */
  datatype Snapshot = Snapshot(
    completionStatus: bool,
    lastCommand: Option<SimpleCommand>,
    commandReceiver: Receiver<SimpleCommand>,
    commandAckSender: Sender<SimpleCommandAck>)

  /** Completion is only ever set together with a stored command. */
  predicate Consistent(c: Snapshot) {
    c.completionStatus ==> c.lastCommand.Some?
  }

  function Initial(): (c: Snapshot)
    ensures Consistent(c)
    ensures !c.completionStatus && c.lastCommand == None
    ensures c.commandReceiver.queue == [] && c.commandAckSender.log == []
  {
    Snapshot(false, None, Receiver("simple_command", []), Sender("simple_command_ack", []))
  }

  /** One cycle; `read` is what the transport does with this cycle's poll. */
  function Step(c: Snapshot, read: ReadOutcome): (t: Snapshot)
    ensures Consistent(c) ==> Consistent(t)
    ensures c.completionStatus ==> t.completionStatus
  {
    var (r, rx) := c.commandReceiver.TryReceive(read);
    match r
    case Success(Some(sample)) =>
      c.(lastCommand := Some(sample), commandReceiver := rx,
         commandAckSender := c.commandAckSender.Publish(SimpleCommandAck), completionStatus := true)
    case Success(None) => c.(commandReceiver := rx)
    case Failure(_) => c.(commandReceiver := rx)
  }

  /** Commands the transport delivers before one cycle, and how the cycle's poll fares. */
  datatype Tick = Tick(arrivals: seq<SimpleCommand>, read: ReadOutcome)

  function Deliver(c: Snapshot, msgs: seq<SimpleCommand>): Snapshot {
    c.(commandReceiver := c.commandReceiver.Deliver(msgs))
  }

  function Run(c: Snapshot, ticks: seq<Tick>): (t: Snapshot)
    ensures Consistent(c) ==> Consistent(t)
    decreases |ticks|
  {
    if ticks == [] then c
    else
      var last := ticks[|ticks| - 1];
      Step(Deliver(Run(c, ticks[..|ticks| - 1]), last.arrivals), last.read)
  }

  /** The driver loop: it cycles only while the subscriber has not completed. */
  function LoopRun(c: Snapshot, ticks: seq<Tick>): (t: Snapshot)
    ensures Consistent(c) ==> Consistent(t)
    ensures c.completionStatus ==>
      t.completionStatus && t.lastCommand == c.lastCommand && t.commandAckSender == c.commandAckSender
    decreases |ticks|
  {
    if ticks == [] then c
    else
      var last := ticks[|ticks| - 1];
      var d := Deliver(LoopRun(c, ticks[..|ticks| - 1]), last.arrivals);
      if d.completionStatus then d else Step(d, last.read)
  }

  function Arrivals(ticks: seq<Tick>): seq<SimpleCommand>
    decreases |ticks|
  {
    if ticks == [] then [] else Arrivals(ticks[..|ticks| - 1]) + ticks[|ticks| - 1].arrivals
  }

  // ---------------------------------------------------------------------
  // One cycle
  // ---------------------------------------------------------------------

  /** No message, or a read error: nothing changes and nothing is sent. */
  lemma NothingToTake(c: Snapshot, read: ReadOutcome)
    requires read.ReadFailed? || c.commandReceiver.queue == []
    ensures Step(c, read) == c
  {
  }

  /** A received command is stored as the last command, acknowledged once, and completes the subscriber. */
  lemma TakesCommand(c: Snapshot, read: ReadOutcome)
    requires read.Readable? && c.commandReceiver.queue != []
    ensures var t := Step(c, read); var sample := c.commandReceiver.queue[0];
      && [sample] + t.commandReceiver.queue == c.commandReceiver.queue
      && t.lastCommand == Some(sample)
      && t.commandAckSender.log == c.commandAckSender.log + [SimpleCommandAck]
      && t.completionStatus
  {
  }

  // ---------------------------------------------------------------------
  // Whole runs
  // ---------------------------------------------------------------------

  /** How many of the delivered commands the subscriber has consumed. */
  function Consumed(c: Snapshot, arrived: seq<SimpleCommand>): int {
    |arrived| - |c.commandReceiver.queue|
  }

  /**
   * The queue holds the unconsumed tail of what was delivered, one ack was
   * sent per consumed command, completion means something was consumed, and
   * the last command is the most recently consumed one.
   */
  ghost predicate Inv(c: Snapshot, arrived: seq<SimpleCommand>) {
    var n := Consumed(c, arrived);
    && 0 <= n
    && c.commandReceiver.queue == arrived[n..]
    && |c.commandAckSender.log| == n
    && (c.completionStatus <==> n > 0)
    && c.lastCommand == (if n == 0 then None else Some(arrived[n - 1]))
  }

  lemma StepKeepsInv(c: Snapshot, arrived: seq<SimpleCommand>, tick: Tick)
    requires Inv(c, arrived)
    ensures Inv(Step(Deliver(c, tick.arrivals), tick.read), arrived + tick.arrivals)
  {
    var n := Consumed(c, arrived);
    var all := arrived + tick.arrivals;
    var d := Deliver(c, tick.arrivals);
    assert d.commandReceiver.queue == all[n..];
    var t := Step(d, tick.read);
    if tick.read.Readable? && d.commandReceiver.queue != [] {
      assert all[n + 1..] == d.commandReceiver.queue[1..];
      assert all[n] == d.commandReceiver.queue[0];
      assert t == d.(lastCommand := Some(all[n]), commandReceiver := Receiver(d.commandReceiver.topic, all[n + 1..]),
                     commandAckSender := d.commandAckSender.Publish(SimpleCommandAck), completionStatus := true);
      assert Consumed(t, all) == n + 1;
    } else {
      assert t == d;
      assert Consumed(t, all) == n;
    }
  }

  lemma {:induction false} RunKeepsInv(ticks: seq<Tick>)
    ensures Inv(Run(Initial(), ticks), Arrivals(ticks))
    decreases |ticks|
  {
    if ticks != [] {
      var init := ticks[..|ticks| - 1];
      RunKeepsInv(init);
      StepKeepsInv(Run(Initial(), init), Arrivals(init), ticks[|ticks| - 1]);
    }
  }

  /**
   * Over any run of a new subscriber: one ack per consumed command, the queue
   * holds exactly the commands not yet consumed, completion once set implies
   * a stored command, and that command is the most recently consumed one.
   */
  lemma RunAcksEachCommand(ticks: seq<Tick>)
    ensures var c := Run(Initial(), ticks); var arrived := Arrivals(ticks); var n := |c.commandAckSender.log|;
      && n <= |arrived|
      && c.commandReceiver.queue == arrived[n..]
      && (c.completionStatus <==> n > 0)
      && (n > 0 ==> c.lastCommand == Some(arrived[n - 1]))
  {
    RunKeepsInv(ticks);
  }

  /** Under the driver loop at most one command is consumed and acknowledged. */
  lemma {:induction false} LoopAcksAtMostOnce(ticks: seq<Tick>)
    ensures var c := LoopRun(Initial(), ticks); var arrived := Arrivals(ticks);
      && |c.commandAckSender.log| <= 1
      && (c.completionStatus <==> |c.commandAckSender.log| == 1)
      && (c.completionStatus ==> |arrived| >= 1 && c.lastCommand == Some(arrived[0]) && c.commandReceiver.queue == arrived[1..])
      && (!c.completionStatus ==> c.commandReceiver.queue == arrived && c.lastCommand == None)
    decreases |ticks|
  {
    if ticks != [] {
      var init := ticks[..|ticks| - 1];
      var last := ticks[|ticks| - 1];
      LoopAcksAtMostOnce(init);
      var prev := LoopRun(Initial(), init);
      var all := Arrivals(init) + last.arrivals;
      if prev.completionStatus {
        assert all[1..] == Arrivals(init)[1..] + last.arrivals;
      } else {
        var d := Deliver(prev, last.arrivals);
        assert d.commandReceiver.queue == all;
        if last.read.Readable? && all != [] {
          assert all[1..] == d.commandReceiver.queue[1..];
        }
      }
    }
  }

  // ---------------------------------------------------------------------
  // The subscriber object
  // ---------------------------------------------------------------------

  class SubscriberBase {
    var completionStatus: bool
    var lastCommand: Option<SimpleCommand>
    var commandReceiver: Receiver<SimpleCommand>
    var commandAckSender: Sender<SimpleCommandAck>

    function View(): Snapshot
      reads this
    {
      Snapshot(completionStatus, lastCommand, commandReceiver, commandAckSender)
    }

    ghost predicate Valid()
      reads this
    {
      Consistent(View())
    }

    constructor ()
      ensures Valid() && View() == Initial()
    {
      completionStatus := false;
      lastCommand := None;
      commandReceiver := Receiver("simple_command", []);
      commandAckSender := Sender("simple_command_ack", []);
    }

    /** Whether a command has been handled; a completed subscriber always holds its command. */
    function CheckCompleted(): (b: bool)
      reads this
      requires Valid()
      ensures b ==> lastCommand.Some?
    {
      completionStatus
    }

    method Cycle(read: ReadOutcome)
      requires Valid()
      modifies this
      ensures Valid()
      ensures View() == Step(old(View()), read)
    {
      var (r, rx) := commandReceiver.TryReceive(read);
      commandReceiver := rx;
      if r.Success? && r.value.Some? {
        var sample := r.value.value;
        lastCommand := Some(sample);
        commandAckSender := commandAckSender.Publish(SimpleCommandAck);
        completionStatus := true;
      }
    }
  }
}
