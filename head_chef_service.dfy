/**
 * The head chef: studies its recipe when created, then waits for an
 * acknowledgement and completes when one arrives.  Its command-sending
 * handler exists but no state of its cycle calls it.
 */
module HeadChef {
  import opened Wrappers
  import opened ServiceState
  import opened Msgs
  import opened Io
  import opened Recipes

  /** The fields of the service. */
  datatype Snapshot = Snapshot(
    commandSender: Sender<SimpleCommand>,
    commandAckReceiver: Receiver<SimpleCommandAck>,
    currentState: State,
    recipe: Recipe)

  function Initial(recipe: Recipe): (c: Snapshot)
    ensures c.currentState == Created && c.recipe == recipe
    ensures c.commandSender.log == [] && c.commandAckReceiver.queue == []
  {
    Snapshot(Sender("simple_command", []), Receiver("simple_command_ack", []), Created, recipe)
  }

  /** Studying the recipe reads its title and description and moves to EXECUTING. */
  function StepCreated(c: Snapshot): Snapshot {
    c.(currentState := Executing)
  }

  /** Polls once for an ack; one moves the service to COMPLETED. */
  function StepExecuting(c: Snapshot): Snapshot {
    var (m, rx) := c.commandAckReceiver.Receive();
    if m.Some? then c.(currentState := Completed, commandAckReceiver := rx)
    else c.(commandAckReceiver := rx)
  }

  /** The unused handler: moves to EXECUTING and publishes a command with value 50. */
  function SendMsgStep(c: Snapshot): (t: Snapshot)
    ensures t.currentState == Executing
    ensures t.commandSender.log == c.commandSender.log + [SimpleCommand(50)]
  {
    c.(currentState := Executing, commandSender := c.commandSender.Publish(SimpleCommand(50)))
  }

  /** One cycle. */
  function Step(c: Snapshot): (t: Snapshot)
    ensures t.recipe == c.recipe
    ensures t.commandSender == c.commandSender
  {
    match c.currentState
    case Created => StepCreated(c)
    case Issued => c
    case Executing => StepExecuting(c)
    case Completed => c
    case Failed(_) => c
  }

  /** Acks the transport delivers before one cycle. */
  datatype Tick = Tick(arrivals: seq<SimpleCommandAck>)

  function Deliver(c: Snapshot, msgs: seq<SimpleCommandAck>): Snapshot {
    c.(commandAckReceiver := c.commandAckReceiver.Deliver(msgs))
  }

  function Run(c: Snapshot, ticks: seq<Tick>): (t: Snapshot)
    decreases |ticks|
  {
    if ticks == [] then c
    else Step(Deliver(Run(c, ticks[..|ticks| - 1]), ticks[|ticks| - 1].arrivals))
  }

  function Arrivals(ticks: seq<Tick>): seq<SimpleCommandAck>
    decreases |ticks|
  {
    if ticks == [] then [] else Arrivals(ticks[..|ticks| - 1]) + ticks[|ticks| - 1].arrivals
  }

  // ---------------------------------------------------------------------
  // One cycle, state by state
  // ---------------------------------------------------------------------

  /** CREATED moves to EXECUTING and neither sends nor receives. */
  lemma CreatedStudiesRecipe(c: Snapshot)
    requires c.currentState == Created
    ensures Step(c) == c.(currentState := Executing)
  {
  }

  /** EXECUTING consumes one ack and completes when one is queued, and otherwise changes nothing. */
  lemma ExecutingAwaitsAck(c: Snapshot)
    requires c.currentState == Executing
    ensures c.commandAckReceiver.queue == [] ==> Step(c) == c
    ensures c.commandAckReceiver.queue != [] ==>
      var t := Step(c);
      && t.currentState == Completed
      && [c.commandAckReceiver.queue[0]] + t.commandAckReceiver.queue == c.commandAckReceiver.queue
      && t.commandSender == c.commandSender && t.recipe == c.recipe
  {
  }

  /** ISSUED, COMPLETED and FAILED are no-op fixed points. */
  lemma OtherStatesAreFixedPoints(c: Snapshot)
    requires c.currentState == Issued || c.currentState == Completed || c.currentState.Failed?
    ensures Step(c) == c
  {
  }

  // ---------------------------------------------------------------------
  // Whole runs
  // ---------------------------------------------------------------------

  ghost predicate Inv(c: Snapshot, recipe: Recipe, arrived: seq<SimpleCommandAck>) {
    && c.recipe == recipe
    && c.commandSender == Sender("simple_command", [])
    && c.commandAckReceiver.topic == "simple_command_ack"
    && match c.currentState
      case Created => c.commandAckReceiver.queue == arrived
      case Executing => c.commandAckReceiver.queue == arrived
      case Completed => |arrived| >= 1 && c.commandAckReceiver.queue == arrived[1..]
      case _ => false
  }

  lemma StepKeepsInv(c: Snapshot, recipe: Recipe, arrived: seq<SimpleCommandAck>, tick: Tick)
    requires Inv(c, recipe, arrived)
    ensures Inv(Step(Deliver(c, tick.arrivals)), recipe, arrived + tick.arrivals)
  {
    var all := arrived + tick.arrivals;
    if c.currentState == Completed {
      assert all[1..] == arrived[1..] + tick.arrivals;
    } else if c.currentState == Executing && all != [] {
      assert all[1..] == Deliver(c, tick.arrivals).commandAckReceiver.queue[1..];
    }
  }

  lemma {:induction false} RunKeepsInv(recipe: Recipe, ticks: seq<Tick>)
    ensures Inv(Run(Initial(recipe), ticks), recipe, Arrivals(ticks))
    decreases |ticks|
  {
    if ticks != [] {
      var init := ticks[..|ticks| - 1];
      RunKeepsInv(recipe, init);
      StepKeepsInv(Run(Initial(recipe), init), recipe, Arrivals(init), ticks[|ticks| - 1]);
    }
  }

  /**
   * Over any run of a new head chef: nothing is ever sent, ISSUED and FAILED
   * are never reached, COMPLETED comes only after one ack was consumed, and
   * the recipe is the one it was given.
   */
  lemma RunNeverSends(recipe: Recipe, ticks: seq<Tick>)
    ensures var c := Run(Initial(recipe), ticks);
      && c.commandSender.log == []
      && c.currentState in {Created, Executing, Completed}
      && c.recipe == recipe
      && (c.currentState == Completed <==> |c.commandAckReceiver.queue| + 1 == |Arrivals(ticks)|)
      && (c.currentState != Completed ==> c.commandAckReceiver.queue == Arrivals(ticks))
  {
    RunKeepsInv(recipe, ticks);
  }

  // ---------------------------------------------------------------------
  // The service object
  // ---------------------------------------------------------------------

  class HeadChefService {
    var commandSender: Sender<SimpleCommand>
    var commandAckReceiver: Receiver<SimpleCommandAck>
    var currentState: State
    const recipe: Recipe

    function View(): Snapshot
      reads this
    {
      Snapshot(commandSender, commandAckReceiver, currentState, recipe)
    }

    constructor (recipe: Recipe)
      ensures View() == Initial(recipe)
    {
      commandSender := Sender("simple_command", []);
      commandAckReceiver := Receiver("simple_command_ack", []);
      currentState := Created;
      this.recipe := recipe;
    }

    function CheckCompleted(): (b: bool)
      reads this
      ensures b <==> currentState == Completed
    {
      currentState.Completed?
    }

    method Cycle()
      modifies this
      ensures View() == Step(old(View()))
    {
      match currentState
      case Created => HandleCreated();
      case Issued =>
      case Executing => AttemptReceiveAck();
      case Completed =>
      case Failed(_) =>
    }

    /** Reads the recipe's title and description (which the service prints) and moves to EXECUTING. */
    method HandleCreated()
      modifies this
      ensures View() == StepCreated(old(View()))
    {
      var title := recipe.GetTitle();
      var description := recipe.GetDescription();
      currentState := Executing;
    }

    method SendMsg()
      modifies this
      ensures View() == SendMsgStep(old(View()))
    {
      currentState := Executing;
      var data := SimpleCommand(50);
      commandSender := commandSender.Publish(data);
    }

    method AttemptReceiveAck()
      modifies this
      ensures View() == StepExecuting(old(View()))
    {
      var (ack, rx) := commandAckReceiver.Receive();
      commandAckReceiver := rx;
      if ack.Some? {
        currentState := Completed;
      }
    }
  }
}
