/**
 * The publisher prototype: writes one SimpleCommand to the writer it was
 * given, then takes acknowledgement samples from its reader, completing on
 * the first one.  A failed take is only logged.
 */
module Publisher {
  import opened Wrappers
  import opened ServiceState
  import opened Msgs
  import opened Io

  /** The command the publisher writes. */
  const Command: SimpleCommand := SimpleCommand(50)

  /** The fields of the publisher. */
  datatype Snapshot = Snapshot(
    currentState: State,
    commandSender: Sender<SimpleCommand>,
    commandAckReceiver: Receiver<SimpleCommandAck>)

  /** The publisher is not in ISSUED, whose handler would panic. */
  predicate Consistent(c: Snapshot) {
    c.currentState != Issued
  }

  function Initial(writer: Sender<SimpleCommand>, reader: Receiver<SimpleCommandAck>): (c: Snapshot)
    ensures Consistent(c)
    ensures c.currentState == Created && c.commandSender == writer && c.commandAckReceiver == reader
  {
    Snapshot(Created, writer, reader)
  }

  /** Moves to EXECUTING and writes the command. */
  function StepCreated(c: Snapshot): Snapshot {
    c.(currentState := Executing, commandSender := c.commandSender.Publish(Command))
  }

  /** Takes one sample: an ack completes the publisher; no sample or a read error changes nothing else. */
  function StepExecuting(c: Snapshot, read: ReadOutcome): Snapshot {
    var (r, rx) := c.commandAckReceiver.TryReceive(read);
    match r
    case Success(Some(_)) => c.(currentState := Completed, commandAckReceiver := rx)
    case Success(None) => c.(commandAckReceiver := rx)
    case Failure(_) => c.(commandAckReceiver := rx)
  }

  /** One cycle; `read` is what the transport does with the take this cycle attempts, if any. */
  function Step(c: Snapshot, read: ReadOutcome): (t: Snapshot)
    requires Consistent(c)
    ensures Consistent(t)
  {
    match c.currentState
    case Created => StepCreated(c)
    case Executing => StepExecuting(c, read)
    case Completed => c
    case Failed(_) => c
  }

  /** Acks the transport delivers before one cycle, and how the cycle's take fares. */
  datatype Tick = Tick(arrivals: seq<SimpleCommandAck>, read: ReadOutcome)

  function Deliver(c: Snapshot, msgs: seq<SimpleCommandAck>): Snapshot {
    c.(commandAckReceiver := c.commandAckReceiver.Deliver(msgs))
  }

  function Run(c: Snapshot, ticks: seq<Tick>): (t: Snapshot)
    requires Consistent(c)
    ensures Consistent(t)
    decreases |ticks|
  {
    if ticks == [] then c
    else
      var last := ticks[|ticks| - 1];
      Step(Deliver(Run(c, ticks[..|ticks| - 1]), last.arrivals), last.read)
  }

  function Arrivals(ticks: seq<Tick>): seq<SimpleCommandAck>
    decreases |ticks|
  {
    if ticks == [] then [] else Arrivals(ticks[..|ticks| - 1]) + ticks[|ticks| - 1].arrivals
  }

  // ---------------------------------------------------------------------
  // One cycle, state by state
  // ---------------------------------------------------------------------

  /** CREATED writes exactly one command with value 50 and moves to EXECUTING. */
  lemma CreatedWritesCommand(c: Snapshot, read: ReadOutcome)
    requires c.currentState == Created
    ensures var t := Step(c, read);
      && t.currentState == Executing
      && t.commandSender.log == c.commandSender.log + [SimpleCommand(50)]
      && t.commandAckReceiver == c.commandAckReceiver
  {
  }

  /**
   * EXECUTING: a sample completes the publisher and is consumed; no sample,
   * or a read error, leaves everything as it was.
   */
  lemma ExecutingTakesSample(c: Snapshot, read: ReadOutcome)
    requires c.currentState == Executing
    ensures read.ReadFailed? || c.commandAckReceiver.queue == [] ==> Step(c, read) == c
    ensures read.Readable? && c.commandAckReceiver.queue != [] ==>
      var t := Step(c, read);
      && t.currentState == Completed
      && [c.commandAckReceiver.queue[0]] + t.commandAckReceiver.queue == c.commandAckReceiver.queue
      && t.commandSender == c.commandSender
  {
  }

  /** COMPLETED and FAILED are fixed points. */
  lemma TerminalIsFixedPoint(c: Snapshot, read: ReadOutcome)
    requires c.currentState == Completed || c.currentState.Failed?
    ensures Step(c, read) == c
  {
  }

  // ---------------------------------------------------------------------
  // Whole runs
  // ---------------------------------------------------------------------

  /** The publisher's fields against the writer and reader it was given and the acks delivered since. */
  ghost predicate Inv(c: Snapshot, writer: Sender<SimpleCommand>, reader: Receiver<SimpleCommandAck>, arrived: seq<SimpleCommandAck>) {
    var pending := reader.queue + arrived;
    && c.commandSender.topic == writer.topic
    && c.commandAckReceiver.topic == reader.topic
    && match c.currentState
      case Created => c.commandSender.log == writer.log && c.commandAckReceiver.queue == pending
      case Executing => c.commandSender.log == writer.log + [Command] && c.commandAckReceiver.queue == pending
      case Completed => c.commandSender.log == writer.log + [Command] && |pending| >= 1 && c.commandAckReceiver.queue == pending[1..]
      case _ => false
  }

  lemma StepKeepsInv(c: Snapshot, writer: Sender<SimpleCommand>, reader: Receiver<SimpleCommandAck>,
                     arrived: seq<SimpleCommandAck>, tick: Tick)
    requires Inv(c, writer, reader, arrived)
    ensures Consistent(Deliver(c, tick.arrivals))
    ensures Inv(Step(Deliver(c, tick.arrivals), tick.read), writer, reader, arrived + tick.arrivals)
  {
    var before := reader.queue + arrived;
    var all := reader.queue + (arrived + tick.arrivals);
    assert all == before + tick.arrivals;
    if c.currentState == Completed {
      assert all[1..] == before[1..] + tick.arrivals;
    } else if c.currentState == Executing && all != [] {
      assert all[1..] == Deliver(c, tick.arrivals).commandAckReceiver.queue[1..];
    }
  }

  lemma {:induction false} RunKeepsInv(writer: Sender<SimpleCommand>, reader: Receiver<SimpleCommandAck>, ticks: seq<Tick>)
    ensures Inv(Run(Initial(writer, reader), ticks), writer, reader, Arrivals(ticks))
    decreases |ticks|
  {
    if ticks != [] {
      var init := ticks[..|ticks| - 1];
      RunKeepsInv(writer, reader, init);
      StepKeepsInv(Run(Initial(writer, reader), init), writer, reader, Arrivals(init), ticks[|ticks| - 1]);
    }
  }

  /**
   * Over any run of a new publisher: only CREATED, EXECUTING and COMPLETED
   * are reached, it adds at most one command to its writer, and COMPLETED
   * comes only after exactly one ack was taken.
   */
  lemma RunWritesAtMostOnce(writer: Sender<SimpleCommand>, reader: Receiver<SimpleCommandAck>, ticks: seq<Tick>)
    ensures var c := Run(Initial(writer, reader), ticks); var pending := reader.queue + Arrivals(ticks);
      && c.currentState in {Created, Executing, Completed}
      && c.commandSender.log == writer.log + (if c.currentState == Created then [] else [SimpleCommand(50)])
      && (c.currentState == Completed <==> |c.commandAckReceiver.queue| + 1 == |pending|)
      && (c.currentState != Completed ==> c.commandAckReceiver.queue == pending)
  {
    RunKeepsInv(writer, reader, ticks);
  }

  // ---------------------------------------------------------------------
  // The publisher object
  // ---------------------------------------------------------------------

  class PublisherBase {
    var currentState: State
    var commandSender: Sender<SimpleCommand>
    var commandAckReceiver: Receiver<SimpleCommandAck>

    function View(): Snapshot
      reads this
    {
      Snapshot(currentState, commandSender, commandAckReceiver)
    }

    ghost predicate Valid()
      reads this
    {
      Consistent(View())
    }

    constructor (commandSender: Sender<SimpleCommand>, commandAckReceiver: Receiver<SimpleCommandAck>)
      ensures Valid() && View() == Initial(commandSender, commandAckReceiver)
    {
      currentState := Created;
      this.commandSender := commandSender;
      this.commandAckReceiver := commandAckReceiver;
    }

    function CheckCompleted(): (b: bool)
      reads this
      ensures b <==> currentState == Completed
    {
      currentState.Completed?
    }

    method Cycle(read: ReadOutcome)
      requires Valid()
      modifies this
      ensures Valid()
      ensures View() == Step(old(View()), read)
    {
      match currentState
      case Created => SendMsg();
      case Executing => AttemptReceiveAck(read);
      case Completed =>
      case Failed(_) =>
    }

    method SendMsg()
      modifies this
      ensures View() == StepCreated(old(View()))
    {
      currentState := Executing;
      var data := SimpleCommand(50);
      commandSender := commandSender.Publish(data);
    }

    method AttemptReceiveAck(read: ReadOutcome)
      modifies this
      ensures View() == StepExecuting(old(View()), read)
    {
      var (sample, rx) := commandAckReceiver.TryReceive(read);
      commandAckReceiver := rx;
      match sample
      case Success(Some(_)) => currentState := Completed;
      case Success(None) =>
      case Failure(_) =>
    }
  }
}
