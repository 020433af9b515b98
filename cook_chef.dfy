/**
 * The cook chef: waits for one cook command, acknowledges it, heats the
 * pan or the oven, cooks for the commanded time and reports that it is done.
 * A rejected acknowledgement or done message ends it in a failed state.
 */
module CookChef {
  import opened Wrappers
  import Steps
  import opened ServiceState
  import opened Msgs
  import opened Io
  import Topics

  const AckFailurePrefix: string := "Failed to send ack: "
  const DoneFailurePrefix: string := "Failed to send done: "

  /** Seconds of heating before cooking: the pan for chicken, the oven for salmon. */
  function PreheatSeconds(item: Steps.FoodItem): (s: nat)
    ensures s == 5 || s == 15
    ensures s == 5 <==> item == Steps.Chicken
  {
    match item
    case Chicken => 5
    case Salmon => 15
  }

  /** The fields of the service. */
  datatype Snapshot = Snapshot(
    cookingItem: Option<Steps.FoodItem>,
    cookingTime: Option<nat>,
    serviceState: State,
    commandReceiver: Receiver<CookCommand>,
    commandAckSender: Sender<CookCommandAck>,
    commandDoneSender: Sender<CommandDone>)

  /** Past CREATED the item and the time are stored, so the handlers can unwrap them. */
  predicate Consistent(c: Snapshot) {
    c.serviceState != Created ==> c.cookingItem.Some? && c.cookingTime.Some?
  }

  /** A freshly created service: nothing stored, nothing received, nothing sent. */
  function Initial(): (c: Snapshot)
    ensures Consistent(c)
    ensures c.serviceState == Created && c.cookingItem == None && c.cookingTime == None
    ensures c.commandReceiver.queue == [] && c.commandAckSender.log == [] && c.commandDoneSender.log == []
  {
    Snapshot(None, None, Created,
      Receiver("cook_command", []), Sender("cook_command_ack", []), Sender("cook_command_done", []))
  }

  /** CREATED: take at most one command; on one, store it, move to ISSUED and acknowledge it. */
  function StepCreated(c: Snapshot, send: SendOutcome): Snapshot {
    var (m, rx) := c.commandReceiver.Receive();
    match m
    case None => c.(commandReceiver := rx)
    case Some(command) =>
      var (res, tx) := c.commandAckSender.Send(CookCommandAck, send);
      c.(cookingItem := Some(command.item), cookingTime := Some(command.duration),
         serviceState := if res.Pass? then Issued else Failed(AckFailurePrefix + res.error),
         commandReceiver := rx, commandAckSender := tx)
  }

  /** ISSUED: after preheating, move to EXECUTING. */
  function StepIssued(c: Snapshot): Snapshot {
    c.(serviceState := Executing)
  }

  /** EXECUTING: after cooking, move to COMPLETED and report done. */
  function StepExecuting(c: Snapshot, send: SendOutcome): Snapshot {
    var (res, tx) := c.commandDoneSender.Send(CommandDone, send);
    c.(serviceState := if res.Pass? then Completed else Failed(DoneFailurePrefix + res.error),
       commandDoneSender := tx)
  }

  /** One cycle; `send` is what the transport does with the send this cycle attempts, if any. */
  function Step(c: Snapshot, send: SendOutcome): (t: Snapshot)
    ensures Consistent(c) ==> Consistent(t)
  {
    match c.serviceState
    case Created => StepCreated(c, send)
    case Issued => StepIssued(c)
    case Executing => StepExecuting(c, send)
    case Completed => c
    case Failed(_) => c
  }

  /** How long one cycle sleeps: the preheat in ISSUED, the stored cooking time in EXECUTING. */
  function Delay(c: Snapshot): nat
    requires Consistent(c)
  {
    match c.serviceState
    case Issued => PreheatSeconds(c.cookingItem.value)
    case Executing => c.cookingTime.value
    case _ => 0
  }

  /** What happens around one cycle: commands the transport delivers, then the cycle itself. */
  datatype Tick = Tick(arrivals: seq<CookCommand>, send: SendOutcome)

  function Deliver(c: Snapshot, msgs: seq<CookCommand>): Snapshot {
    c.(commandReceiver := c.commandReceiver.Deliver(msgs))
  }

  /** The service after a sequence of ticks, the last tick applied last. */
  function Run(c: Snapshot, ticks: seq<Tick>): (t: Snapshot)
    ensures Consistent(c) ==> Consistent(t)
    decreases |ticks|
  {
    if ticks == [] then c
    else
      var last := ticks[|ticks| - 1];
      Step(Deliver(Run(c, ticks[..|ticks| - 1]), last.arrivals), last.send)
  }

  /** Every command delivered over a sequence of ticks, in delivery order. */
  function Arrivals(ticks: seq<Tick>): seq<CookCommand>
    decreases |ticks|
  {
    if ticks == [] then [] else Arrivals(ticks[..|ticks| - 1]) + ticks[|ticks| - 1].arrivals
  }

  // ---------------------------------------------------------------------
  // One cycle, state by state
  // ---------------------------------------------------------------------

  /** With no command queued, a cycle in CREATED changes nothing and sends nothing. */
  lemma CreatedIdle(c: Snapshot, send: SendOutcome)
    requires c.serviceState == Created && c.commandReceiver.queue == []
    ensures Step(c, send) == c
  {
  }

  /**
   * With a command queued, a cycle in CREATED consumes exactly that command,
   * stores its item and duration, and attempts exactly one ack: ISSUED when
   * it is delivered, failed with the transport's reason when it is not.
   */
  lemma CreatedTakesCommand(c: Snapshot, send: SendOutcome)
    requires c.serviceState == Created && c.commandReceiver.queue != []
    ensures var t := Step(c, send); var command := c.commandReceiver.queue[0];
      && [command] + t.commandReceiver.queue == c.commandReceiver.queue
      && t.cookingItem == Some(command.item) && t.cookingTime == Some(command.duration)
      && t.commandAckSender.log == c.commandAckSender.log + (if send.Delivered? then [CookCommandAck] else [])
      && t.commandDoneSender == c.commandDoneSender
      && (send.Delivered? ==> t.serviceState == Issued)
      && (send.Rejected? ==> t.serviceState == Failed(AckFailurePrefix + send.error))
  {
  }

  /** ISSUED always moves to EXECUTING after the item's preheat, touching nothing else. */
  lemma IssuedPreheats(c: Snapshot, send: SendOutcome)
    requires Consistent(c) && c.serviceState == Issued
    ensures Step(c, send) == c.(serviceState := Executing)
    ensures Delay(c) == PreheatSeconds(c.cookingItem.value)
    ensures c.cookingItem == Some(Steps.Chicken) ==> Delay(c) == 5
    ensures c.cookingItem == Some(Steps.Salmon) ==> Delay(c) == 15
  {
  }

  /**
   * EXECUTING cooks for the stored time and attempts exactly one done:
   * COMPLETED when it is delivered, failed with the transport's reason when not.
   */
  lemma ExecutingCooks(c: Snapshot, send: SendOutcome)
    requires Consistent(c) && c.serviceState == Executing
    ensures var t := Step(c, send);
      && Delay(c) == c.cookingTime.value
      && t.commandDoneSender.log == c.commandDoneSender.log + (if send.Delivered? then [CommandDone] else [])
      && t == c.(serviceState := t.serviceState, commandDoneSender := t.commandDoneSender)
      && (send.Delivered? ==> t.serviceState == Completed)
      && (send.Rejected? ==> t.serviceState == Failed(DoneFailurePrefix + send.error))
  {
  }

  /** COMPLETED and FAILED are fixed points: nothing is read, sent, changed or waited for. */
  lemma TerminalIsFixedPoint(c: Snapshot, send: SendOutcome)
    requires c.serviceState == Completed || c.serviceState.Failed?
    ensures Step(c, send) == c
    ensures Consistent(c) ==> Delay(c) == 0
  {
  }

  /** The command queue is read only in CREATED. */
  lemma PopsOnlyWhileCreated(c: Snapshot, send: SendOutcome)
    requires c.serviceState != Created
    ensures Step(c, send).commandReceiver == c.commandReceiver
  {
  }

  // ---------------------------------------------------------------------
  // Whole runs
  // ---------------------------------------------------------------------

  predicate TookFirst(c: Snapshot, arrived: seq<CookCommand>) {
    && |arrived| >= 1
    && c.cookingItem == Some(arrived[0].item)
    && c.cookingTime == Some(arrived[0].duration)
    && c.commandReceiver.queue == arrived[1..]
  }

  /** What a run from a new service has done, given the commands delivered to it. */
  ghost predicate Inv(c: Snapshot, arrived: seq<CookCommand>) {
    && c.commandReceiver.topic == "cook_command"
    && c.commandAckSender.topic == "cook_command_ack"
    && c.commandDoneSender.topic == "cook_command_done"
    && match c.serviceState
      case Created =>
        && c.cookingItem == None && c.cookingTime == None
        && c.commandReceiver.queue == arrived
        && c.commandAckSender.log == [] && c.commandDoneSender.log == []
      case Issued =>
        TookFirst(c, arrived) && c.commandAckSender.log == [CookCommandAck] && c.commandDoneSender.log == []
      case Executing =>
        TookFirst(c, arrived) && c.commandAckSender.log == [CookCommandAck] && c.commandDoneSender.log == []
      case Completed =>
        TookFirst(c, arrived) && c.commandAckSender.log == [CookCommandAck] && c.commandDoneSender.log == [CommandDone]
      case Failed(reason) =>
        && TookFirst(c, arrived) && c.commandDoneSender.log == []
        && ((c.commandAckSender.log == [] && StartsWith(reason, AckFailurePrefix))
            || (c.commandAckSender.log == [CookCommandAck] && StartsWith(reason, DoneFailurePrefix)))
  }

  lemma StepKeepsInv(c: Snapshot, arrived: seq<CookCommand>, tick: Tick)
    requires Inv(c, arrived)
    ensures Inv(Step(Deliver(c, tick.arrivals), tick.send), arrived + tick.arrivals)
  {
    var d := Deliver(c, tick.arrivals);
    var all := arrived + tick.arrivals;
    if c.serviceState == Created {
      assert d.commandReceiver.queue == all;
      if all != [] {
        assert all[1..] == d.commandReceiver.queue[1..];
        match tick.send
        case Delivered =>
        case Rejected(e) => StartsWithConcat(AckFailurePrefix, e);
      }
    } else {
      assert all[1..] == arrived[1..] + tick.arrivals;
      if c.serviceState == Executing && tick.send.Rejected? {
        StartsWithConcat(DoneFailurePrefix, tick.send.error);
      }
    }
  }

  lemma {:induction false} RunKeepsInv(ticks: seq<Tick>)
    ensures Inv(Run(Initial(), ticks), Arrivals(ticks))
    decreases |ticks|
  {
    if ticks != [] {
      var init := ticks[..|ticks| - 1];
      RunKeepsInv(init);
      StepKeepsInv(Run(Initial(), init), Arrivals(init), ticks[|ticks| - 1]);
    }
  }

  /**
   * Over any run of a new service: at most one ack and one done are sent,
   * a done only together with an ack, the service leaves CREATED exactly when
   * it has consumed a command, it consumes no more than that one, and the
   * item and time it cooks are those of the first command delivered.
   */
  lemma RunSendsAtMostOnce(ticks: seq<Tick>)
    ensures var c := Run(Initial(), ticks); var arrived := Arrivals(ticks);
      && |c.commandAckSender.log| <= 1
      && |c.commandDoneSender.log| <= 1
      && (|c.commandDoneSender.log| == 1 ==> |c.commandAckSender.log| == 1)
      && (c.serviceState == Created ==> c.commandReceiver.queue == arrived)
      && (c.serviceState != Created ==>
            |arrived| >= 1 && c.commandReceiver.queue == arrived[1..]
            && c.cookingItem == Some(arrived[0].item) && c.cookingTime == Some(arrived[0].duration))
      && (c.serviceState == Completed ==> |c.commandAckSender.log| == 1 && |c.commandDoneSender.log| == 1)
  {
    RunKeepsInv(ticks);
  }

  /** A run ends failed only with one of the two reasons the handlers produce. */
  lemma RunFailureReasons(ticks: seq<Tick>)
    ensures var c := Run(Initial(), ticks);
      c.serviceState.Failed? ==>
        StartsWith(c.serviceState.reason, AckFailurePrefix) || StartsWith(c.serviceState.reason, DoneFailurePrefix)
  {
    RunKeepsInv(ticks);
  }

  /** The ack is sent in an earlier cycle than the done: before the cycle that sends a done, an ack was already sent. */
  lemma AckBeforeDone(ticks: seq<Tick>, k: nat)
    requires k < |ticks|
    ensures |Run(Initial(), ticks[..k + 1]).commandDoneSender.log| > 0 ==>
            |Run(Initial(), ticks[..k]).commandAckSender.log| > 0
  {
    var before := Run(Initial(), ticks[..k]);
    assert ticks[..k + 1][..k] == ticks[..k];
    assert Run(Initial(), ticks[..k + 1]) == Step(Deliver(before, ticks[k].arrivals), ticks[k].send);
    RunKeepsInv(ticks[..k]);
  }

  /** The channel names are the cook channels of the topic table. */
  lemma ChannelsMatchTopics()
    ensures Initial().commandReceiver.topic == Topics.ToString(Topics.CookCommand)
    ensures Initial().commandAckSender.topic == Topics.ToString(Topics.CookCommandAck)
    ensures Initial().commandDoneSender.topic == Topics.ToString(Topics.CookCommandDone)
  {
  }

  // ---------------------------------------------------------------------
  // The service object
  // ---------------------------------------------------------------------

  class CookChefService {
    var cookingItem: Option<Steps.FoodItem>
    var cookingTime: Option<nat>
    var serviceState: State
    var commandReceiver: Receiver<CookCommand>
    var commandAckSender: Sender<CookCommandAck>
    var commandDoneSender: Sender<CommandDone>

    function View(): Snapshot
      reads this
    {
      Snapshot(cookingItem, cookingTime, serviceState, commandReceiver, commandAckSender, commandDoneSender)
    }

    ghost predicate Valid()
      reads this
    {
      Consistent(View())
    }

    constructor ()
      ensures Valid() && View() == Initial()
    {
      cookingItem := None;
      cookingTime := None;
      serviceState := Created;
      commandReceiver := Receiver("cook_command", []);
      commandAckSender := Sender("cook_command_ack", []);
      commandDoneSender := Sender("cook_command_done", []);
    }

    function CheckCompleted(): (b: bool)
      reads this
      ensures b <==> serviceState == Completed
    {
      serviceState.Completed?
    }

    function CheckFailed(): (b: bool)
      reads this
      ensures b ==> !CheckCompleted()
    {
      serviceState.Failed?
    }

    /** The reason of the failure, present exactly when the service has failed. */
    function GetFailureMsg(): (m: Option<string>)
      reads this
      ensures m.Some? <==> CheckFailed()
      ensures m.Some? ==> serviceState == Failed(m.value)
    {
      serviceState.FailureMsg()
    }

    /** Runs the handler of the current state and returns how long it slept. */
    method Cycle(send: SendOutcome) returns (slept: nat)
      requires Valid()
      modifies this
      ensures Valid()
      ensures View() == Step(old(View()), send)
      ensures slept == Delay(old(View()))
    {
      match serviceState
      case Created =>
        OnCreated(send);
        slept := 0;
      case Issued =>
        slept := OnIssued();
      case Executing =>
        slept := OnExecuting(send);
      case Completed =>
        slept := 0;
      case Failed(_) =>
        slept := 0;
    }

    method OnCreated(send: SendOutcome)
      requires serviceState == Created
      modifies this
      ensures View() == StepCreated(old(View()), send)
    {
      var (m, rx) := commandReceiver.Receive();
      commandReceiver := rx;
      if m.Some? {
        var command := m.value;
        cookingItem := Some(command.item);
        cookingTime := Some(command.duration);
        serviceState := Issued;
        var (res, tx) := commandAckSender.Send(CookCommandAck, send);
        commandAckSender := tx;
        if res.Fail? {
          serviceState := Failed(AckFailurePrefix + res.error);
        }
      }
    }

    method OnIssued() returns (slept: nat)
      requires serviceState == Issued && cookingItem.Some?
      modifies this
      ensures View() == StepIssued(old(View()))
      ensures slept == PreheatSeconds(cookingItem.value)
    {
      match cookingItem.value {
        case Chicken => slept := 5;
        case Salmon => slept := 15;
      }
      serviceState := Executing;
    }

    method OnExecuting(send: SendOutcome) returns (slept: nat)
      requires serviceState == Executing && cookingItem.Some? && cookingTime.Some?
      modifies this
      ensures View() == StepExecuting(old(View()), send)
      ensures slept == old(cookingTime).value
    {
      match cookingItem.value {
        case Chicken => slept := cookingTime.value;
        case Salmon => slept := cookingTime.value;
      }
      serviceState := Completed;
      var (res, tx) := commandDoneSender.Send(CommandDone, send);
      commandDoneSender := tx;
      if res.Fail? {
        serviceState := Failed(DoneFailurePrefix + res.error);
      }
    }
  }
}
