/**
 * The head chef's control service: sends one SimpleCommand, then polls for
 * its acknowledgement and completes when one arrives.  It never enters
 * ISSUED, whose handler is unimplemented, and never fails.
 */
module ExecutionControl {
  import opened Wrappers
  import opened ServiceState
  import opened Msgs
  import opened Io
  import opened Recipes

  /** The command the service sends. */
  const Command: SimpleCommand := SimpleCommand(50)

  /** The fields of the service. */
  datatype Snapshot = Snapshot(
    commandSender: Sender<SimpleCommand>,
    commandAckReceiver: Receiver<SimpleCommandAck>,
    currentState: State,
    recipe: Recipe)

  /** The service is not in ISSUED, whose handler would panic. */
  predicate Consistent(c: Snapshot) {
    c.currentState != Issued
  }

  function Initial(recipe: Recipe): (c: Snapshot)
    ensures Consistent(c)
    ensures c.currentState == Created && c.recipe == recipe
    ensures c.commandSender.log == [] && c.commandAckReceiver.queue == []
  {
    Snapshot(Sender("simple_command", []), Receiver("simple_command_ack", []), Created, recipe)
  }

  /** Moves to EXECUTING and publishes the command. */
  function StepCreated(c: Snapshot): Snapshot {
    c.(currentState := Executing, commandSender := c.commandSender.Publish(Command))
  }

  /** Polls once for an ack; one moves the service to COMPLETED. */
  function StepExecuting(c: Snapshot): Snapshot {
    var (m, rx) := c.commandAckReceiver.Receive();
    if m.Some? then c.(currentState := Completed, commandAckReceiver := rx)
    else c.(commandAckReceiver := rx)
  }

  /** One cycle. */
  function Step(c: Snapshot): (t: Snapshot)
    requires Consistent(c)
    ensures Consistent(t)
    ensures t.recipe == c.recipe
  {
    match c.currentState
    case Created => StepCreated(c)
    case Executing => StepExecuting(c)
    case Completed => c
    case Failed(_) => c
  }

  /** Acks the transport delivers before one cycle. */
  datatype Tick = Tick(arrivals: seq<SimpleCommandAck>)

  function Deliver(c: Snapshot, msgs: seq<SimpleCommandAck>): Snapshot {
    c.(commandAckReceiver := c.commandAckReceiver.Deliver(msgs))
  }

  function Run(c: Snapshot, ticks: seq<Tick>): (t: Snapshot)
    requires Consistent(c)
    ensures Consistent(t)
    decreases |ticks|
  {
    if ticks == [] then c
    else Step(Deliver(Run(c, ticks[..|ticks| - 1]), ticks[|ticks| - 1].arrivals))
  }

  function Arrivals(ticks: seq<Tick>): seq<SimpleCommandAck>
    decreases |ticks|
  {
    if ticks == [] then [] else Arrivals(ticks[..|ticks| - 1]) + ticks[|ticks| - 1].arrivals
  }

  // ---------------------------------------------------------------------
  // One cycle, state by state
  // ---------------------------------------------------------------------

  /** CREATED publishes exactly one command with value 50 and moves to EXECUTING. */
  lemma CreatedSendsCommand(c: Snapshot)
    requires c.currentState == Created
    ensures var t := Step(c);
      && t.currentState == Executing
      && t.commandSender.log == c.commandSender.log + [SimpleCommand(50)]
      && t.commandAckReceiver == c.commandAckReceiver && t.recipe == c.recipe
  {
  }

  /** EXECUTING consumes exactly one ack and completes when one is queued, and otherwise changes nothing. */
  lemma ExecutingAwaitsAck(c: Snapshot)
    requires c.currentState == Executing
    ensures c.commandAckReceiver.queue == [] ==> Step(c) == c
    ensures c.commandAckReceiver.queue != [] ==>
      var t := Step(c);
      && t.currentState == Completed
      && [c.commandAckReceiver.queue[0]] + t.commandAckReceiver.queue == c.commandAckReceiver.queue
      && t.commandSender == c.commandSender && t.recipe == c.recipe
  {
  }

  /** COMPLETED and FAILED are fixed points. */
  lemma TerminalIsFixedPoint(c: Snapshot)
    requires c.currentState == Completed || c.currentState.Failed?
    ensures Step(c) == c
  {
  }

  // ---------------------------------------------------------------------
  // Whole runs
  // ---------------------------------------------------------------------

  ghost predicate Inv(c: Snapshot, recipe: Recipe, arrived: seq<SimpleCommandAck>) {
    && c.recipe == recipe
    && c.commandSender.topic == "simple_command"
    && c.commandAckReceiver.topic == "simple_command_ack"
    && match c.currentState
      case Created => c.commandSender.log == [] && c.commandAckReceiver.queue == arrived
      case Executing => c.commandSender.log == [Command] && c.commandAckReceiver.queue == arrived
      case Completed => c.commandSender.log == [Command] && |arrived| >= 1 && c.commandAckReceiver.queue == arrived[1..]
      case _ => false
  }

  lemma StepKeepsInv(c: Snapshot, recipe: Recipe, arrived: seq<SimpleCommandAck>, tick: Tick)
    requires Inv(c, recipe, arrived)
    ensures Consistent(Deliver(c, tick.arrivals))
    ensures Inv(Step(Deliver(c, tick.arrivals)), recipe, arrived + tick.arrivals)
  {
    var all := arrived + tick.arrivals;
    if c.currentState == Completed {
      assert all[1..] == arrived[1..] + tick.arrivals;
    } else if c.currentState == Executing && all != [] {
      assert all[1..] == Deliver(c, tick.arrivals).commandAckReceiver.queue[1..];
    }
  }

  lemma {:induction false} RunKeepsInv(recipe: Recipe, ticks: seq<Tick>)
    ensures Inv(Run(Initial(recipe), ticks), recipe, Arrivals(ticks))
    decreases |ticks|
  {
    if ticks != [] {
      var init := ticks[..|ticks| - 1];
      RunKeepsInv(recipe, init);
      StepKeepsInv(Run(Initial(recipe), init), recipe, Arrivals(init), ticks[|ticks| - 1]);
    }
  }

  /**
   * Over any run of a new service: only CREATED, EXECUTING and COMPLETED
   * are reached, at most one command is sent, COMPLETED comes only after
   * exactly one ack was consumed, and the recipe is the one it was given.
   */
  lemma RunSummary(recipe: Recipe, ticks: seq<Tick>)
    ensures var c := Run(Initial(recipe), ticks);
      && c.currentState in {Created, Executing, Completed}
      && c.recipe == recipe
      && |c.commandSender.log| <= 1
      && (c.currentState != Created ==> c.commandSender.log == [SimpleCommand(50)])
      && (c.currentState == Completed <==> |c.commandAckReceiver.queue| + 1 == |Arrivals(ticks)|)
      && (c.currentState != Completed ==> c.commandAckReceiver.queue == Arrivals(ticks))
  {
    RunKeepsInv(recipe, ticks);
  }

  // ---------------------------------------------------------------------
  // The service object
  // ---------------------------------------------------------------------

  class HeadChefControlService {
    var commandSender: Sender<SimpleCommand>
    var commandAckReceiver: Receiver<SimpleCommandAck>
    var currentState: State
    const recipe: Recipe

    function View(): Snapshot
      reads this
    {
      Snapshot(commandSender, commandAckReceiver, currentState, recipe)
    }

    ghost predicate Valid()
      reads this
    {
      Consistent(View())
    }

    constructor (recipe: Recipe)
      ensures Valid() && View() == Initial(recipe)
    {
      commandSender := Sender("simple_command", []);
      commandAckReceiver := Receiver("simple_command_ack", []);
      currentState := Created;
      this.recipe := recipe;
    }

    function CheckCompleted(): (b: bool)
      reads this
      ensures b <==> currentState == Completed
    {
      currentState.Completed?
    }

    method Cycle()
      requires Valid()
      modifies this
      ensures Valid()
      ensures View() == Step(old(View()))
    {
      match currentState
      case Created => SendMsg();
      case Executing => AttemptReceiveAck();
      case Completed =>
      case Failed(_) =>
    }

    method SendMsg()
      modifies this
      ensures View() == StepCreated(old(View()))
    {
      currentState := Executing;
      var data := SimpleCommand(50);
      commandSender := commandSender.Publish(data);
    }

    method AttemptReceiveAck()
      modifies this
      ensures View() == StepExecuting(old(View()))
    {
      var (ack, rx) := commandAckReceiver.Receive();
      commandAckReceiver := rx;
      if ack.Some? {
        currentState := Completed;
      }
    }
  }
}
