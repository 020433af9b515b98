# dds-chef: the service state machines, in Dafny

dds-chef splits cooking a recipe across separate processes that talk over
DDS publish/subscribe topics. The repository has six small services. Each one
owns its fields and is driven by a `cycle()` call. Five of the six are
modelled; the sixth, the prep chef, has a `cycle` that is only `todo!()`:

- the **cook chef** (`CookChefService`) waits for a cook command, acknowledges it, heats the pan or the oven, cooks, and reports done;
- the head chef's **control service** (`HeadChefControlService`) and the **publisher prototype** (`PublisherBase`) send one `SimpleCommand` and wait for its acknowledgement;
- the **head chef** (`HeadChefService`) studies its recipe, then waits for an acknowledgement without sending anything;
- the **subscriber prototype** (`SubscriberBase`) takes a command and acknowledges it.

Around them are the topic-name table, the recipe file guards and the
driver's `-f` argument scan.

The transport is replaced by two abstract endpoints (module `Io`):
- a `Receiver` is a FIFO of delivered messages. One poll takes at most the oldest of them.
- a `Sender` is the log of published messages. A send either delivers or is rejected with an error.

What the transport does on a given cycle enters as a parameter: a
`SendOutcome`, or a `ReadOutcome` for the services that handle read errors.

Each service module has:
- a `Snapshot` datatype holding the service's fields;
- pure per-state transition functions, and `Step` for one whole cycle;
- a `Run` over a sequence of `Tick`s. Each tick first delivers messages to the receive queue and then runs one cycle;
- an invariant `Inv`, relating the fields after any run from a new service to the messages delivered so far;
- a class with the source's fields. Its `Cycle` method and handlers are proved to take the object from `View()` to the matching transition function of `old(View())`.

Sleeps become the `slept` durations that the cook chef's handlers return.

Where the code is unfinished or inconsistent with itself, the model follows
the calling code:
- There is no step-walking coordinator: the head chef's recipe processing is a TODO (driver/src/head_chef_service.rs:50). The head chef goes from CREATED straight to EXECUTING, not through ISSUED.
- `State` (common/src/state.rs:3-8) has no `FAILED` variant, but the cook chef uses `State::FAILED(String)`. The model's `State` has `Failed(reason)`, and the driver services treat it as a no-op.
- `Sender::send` in common/src/io.rs:46-48 returns nothing, but cook-chef/src/cook_chef.rs:73-77 handles a send error. The cook chef's sends are therefore fallible.
- `CookCommand`, `CookCommandAck` and `CommandDone` are not defined in common/src/msgs.rs. They are modelled as `CookCommand(item, duration)` and two unit markers.

## Model

| member | source | states |
|---|---|---|
| `Io.Receiver.Receive` | common/src/io.rs:88-94 | a poll yields nothing exactly when the queue is empty; otherwise it yields the oldest message, and that message followed by the new queue is the old queue; the topic is kept |
| `Io.Receiver.TryReceive` | common/src/io.rs:88-94 | a read error is returned and consumes nothing; a readable poll behaves as `Receive` |
| `Io.Sender.Send` | cook-chef/src/cook_chef.rs:73-77 | the send passes exactly when the transport delivers; a delivered message is appended to the log; a rejected one leaves the log as it was and returns the transport's error |
| `Io.Sender.Publish` | common/src/io.rs:46-48 | a publish whose result the caller does not see appends the message to the log |
| `Topics.ToStringInjective` | common/src/topics.rs:12-21 | two channels with the same transport name are the same channel |
| `Topics.AckAndDoneExtendCommand` | common/src/topics.rs:14-19 | for both roles, the ack name is the command name plus `_ack`, and the done name is the command name plus `_done` |
| `Topics.ToString` | common/src/topics.rs:12-21 | every prepare channel's name starts with `prepare_`, and every cook channel's name starts with `cook_` |
| `ServiceState.State.FailureMsg` | cook-chef/src/cook_chef.rs:44-49 | a reason is present exactly in a failed state, and it is that state's reason |
| `Recipes.GettersDetermineRecipe` | common/src/recipe.rs:19-27 | the title, description and steps getters return the stored fields: two recipes agree on all three exactly when they are equal |
| `Recipes.Recipe.GetTitle` | common/src/recipe.rs:19-21 | returns the stored title: putting it back changes nothing |
| `Recipes.Recipe.GetDescription` | common/src/recipe.rs:22-24 | returns the stored description: putting it back changes nothing |
| `Recipes.Recipe.GetSteps` | common/src/recipe.rs:25-27 | returns the stored steps, in order: putting them back changes nothing |
| `Recipes.IsYaml` | common/src/recipe.rs:64-66 | a path is YAML exactly when it is some stem followed by `.yaml` or `.yml` |
| `Recipes.FromFile` | common/src/recipe.rs:30-44 | a non-YAML name is refused with "Provided recipe file must be a YAML file" whatever the file system holds; a YAML name with no file gives "Unable to locate file at: " + path; loading succeeds exactly when the file holds a parsable recipe, and then returns that recipe; parse and read errors are passed on |
| `Recipes.Disk.ToFile` | common/src/recipe.rs:47-61 | a non-YAML name and an occupied path are refused with their messages, and so is a failed write; every refusal leaves the file system unchanged; saving succeeds exactly for a free YAML path when the write goes through; success changes only `path`, and loading it afterwards gives the recipe back |
| `DriverMain.RetrieveFilename` | driver/src/main.rs:7-19 | nothing is found exactly when no "-f" has a value after it; otherwise the result is the value after the last such "-f", so a later flag overrides an earlier one; a trailing "-f" never counts; the result is always `args[j]` for some `j >= 1` |
| `CookChef.PreheatSeconds` | cook-chef/src/cook_chef.rs:83-92 | the preheat is 5 s or 15 s, and it is 5 s exactly for chicken |
| `CookChef.Initial` | cook-chef/src/cook_chef.rs:21-30 | a new cook chef is CREATED, stores no item and no time, has received nothing and has sent nothing |
| `CookChef.CookChefService.constructor` | cook-chef/src/cook_chef.rs:21-30 | the new object's fields are `Initial()`, and its invariant holds |
| `CookChef.ChannelsMatchTopics` | cook-chef/src/cook_chef.rs:26-28 | the cook chef's three channel names are the `to_string` of `CookCommand`, `CookCommandAck` and `CookCommandDone` |
| `CookChef.Step` | cook-chef/src/cook_chef.rs:53-63 | a cycle keeps the invariant that every state past CREATED has both an item and a time stored, so the unwraps at lines 83, 99, 102 and 106 always succeed |
| `CookChef.Run` | cook-chef/src/cook_chef.rs:53-63 | that invariant also holds after any number of cycles |
| `CookChef.CreatedIdle` | cook-chef/src/cook_chef.rs:66-67 | in CREATED with no command queued, a cycle changes no field and sends nothing |
| `CookChef.CreatedTakesCommand` | cook-chef/src/cook_chef.rs:66-78 | in CREATED with a command queued, a cycle consumes exactly that command and stores its item and duration; it makes exactly one ack attempt and leaves the done channel alone; it ends ISSUED when the ack is delivered, and `Failed("Failed to send ack: " + error)` when it is not |
| `CookChef.IssuedPreheats` | cook-chef/src/cook_chef.rs:82-95 | ISSUED always moves to EXECUTING and changes nothing else; it waits the item's preheat, 5 s for chicken and 15 s for salmon |
| `CookChef.ExecutingCooks` | cook-chef/src/cook_chef.rs:98-117 | EXECUTING waits the stored cooking time and makes exactly one done attempt; it changes only the state and the done log; it ends COMPLETED when the done is delivered, and `Failed("Failed to send done: " + error)` when it is not |
| `CookChef.TerminalIsFixedPoint` | cook-chef/src/cook_chef.rs:58-61 | COMPLETED and FAILED cycles read nothing, send nothing, change nothing and do not wait |
| `CookChef.PopsOnlyWhileCreated` | cook-chef/src/cook_chef.rs:53-67 | outside CREATED a cycle leaves the command queue untouched |
| `CookChef.RunKeepsInv` | cook-chef/src/cook_chef.rs:53-117 | after any run of a new cook chef, each state fixes the fields: CREATED has consumed and sent nothing; every later state has consumed exactly the first delivered command and stores its item and time; ISSUED and EXECUTING have sent one ack and no done; COMPLETED has sent one of each; FAILED has sent no done and carries the reason of the send that failed |
| `CookChef.RunSendsAtMostOnce` | cook-chef/src/cook_chef.rs:53-117 | over any run at most one ack and at most one done are sent, and a done only together with an ack; the service leaves CREATED exactly when it has consumed one command, never consumes a second, and cooks the first command delivered |
| `CookChef.RunFailureReasons` | cook-chef/src/cook_chef.rs:66-117 | a failed run carries a reason starting with "Failed to send ack: " or "Failed to send done: " |
| `CookChef.AckBeforeDone` | cook-chef/src/cook_chef.rs:66-117 | when cycle k+1 has sent a done, an ack had already been sent during the first k cycles |
| `CookChef.CookChefService.CheckCompleted` | cook-chef/src/cook_chef.rs:33-35 | true exactly in COMPLETED |
| `CookChef.CookChefService.CheckFailed` | cook-chef/src/cook_chef.rs:37-39 | a failed service is never also completed |
| `CookChef.CookChefService.GetFailureMsg` | cook-chef/src/cook_chef.rs:44-49 | a message is returned exactly when `CheckFailed` holds, and it is the failure's reason |
| `CookChef.CookChefService.Cycle` | cook-chef/src/cook_chef.rs:53-63 | dispatching on the state keeps the invariant, takes the fields to `Step` of the old fields, and returns the `Delay` of the old state |
| `CookChef.CookChefService.OnCreated` | cook-chef/src/cook_chef.rs:66-79 | the fields become `StepCreated` of the old fields |
| `CookChef.CookChefService.OnIssued` | cook-chef/src/cook_chef.rs:82-95 | the fields become `StepIssued` of the old fields, and the handler sleeps the item's preheat |
| `CookChef.CookChefService.OnExecuting` | cook-chef/src/cook_chef.rs:98-117 | the fields become `StepExecuting` of the old fields, and the handler sleeps the stored cooking time |
| `ExecutionControl.Initial` | driver/src/execution_control_service.rs:19-30 | a new control service is CREATED, holds the given recipe, and has sent and received nothing |
| `ExecutionControl.HeadChefControlService.constructor` | driver/src/execution_control_service.rs:19-30 | the new object's fields are `Initial(recipe)` |
| `ExecutionControl.Step` | driver/src/execution_control_service.rs:36-44 | a cycle never enters ISSUED, so the `todo!()` cannot fire, and it never changes the recipe |
| `ExecutionControl.Run` | driver/src/execution_control_service.rs:36-44 | no run enters ISSUED |
| `ExecutionControl.CreatedSendsCommand` | driver/src/execution_control_service.rs:38-58 | a cycle in CREATED sends exactly one `SimpleCommand` with value 50, moves to EXECUTING and touches neither the ack queue nor the recipe |
| `ExecutionControl.ExecutingAwaitsAck` | driver/src/execution_control_service.rs:63-69 | in EXECUTING, a queued ack is consumed, exactly one, and the service completes; with no ack queued nothing changes |
| `ExecutionControl.TerminalIsFixedPoint` | driver/src/execution_control_service.rs:42 | COMPLETED, and the unused FAILED, are fixed points of a cycle |
| `ExecutionControl.RunKeepsInv` | driver/src/execution_control_service.rs:36-69 | after any run of a new control service: CREATED has sent nothing and consumed nothing; EXECUTING has sent exactly the command and consumed nothing; COMPLETED has sent the command and consumed exactly the first ack delivered |
| `ExecutionControl.RunSummary` | driver/src/execution_control_service.rs:36-69 | over any run only CREATED, EXECUTING and COMPLETED are reached; at most one command is sent, and it has value 50; COMPLETED holds exactly when one ack has been consumed, and never without it; the recipe is never modified |
| `ExecutionControl.HeadChefControlService.CheckCompleted` | driver/src/execution_control_service.rs:32-34 | true exactly in COMPLETED |
| `ExecutionControl.HeadChefControlService.Cycle` | driver/src/execution_control_service.rs:36-44 | keeps the object out of ISSUED and takes the fields to `Step` of the old fields |
| `ExecutionControl.HeadChefControlService.SendMsg` | driver/src/execution_control_service.rs:49-58 | the fields become `StepCreated` of the old fields |
| `ExecutionControl.HeadChefControlService.AttemptReceiveAck` | driver/src/execution_control_service.rs:63-69 | the fields become `StepExecuting` of the old fields |
| `HeadChef.Initial` | driver/src/head_chef_service.rs:20-27 | a new head chef is CREATED, holds the given recipe, and has sent and received nothing |
| `HeadChef.HeadChefService.constructor` | driver/src/head_chef_service.rs:20-27 | the new object's fields are `Initial(recipe)` |
| `HeadChef.Step` | driver/src/head_chef_service.rs:35-42 | no cycle changes the recipe or the command sender, so a cycle never sends |
| `HeadChef.SendMsgStep` | driver/src/head_chef_service.rs:59-68 | the unused handler would move to EXECUTING and append one `SimpleCommand` with value 50 |
| `HeadChef.CreatedStudiesRecipe` | driver/src/head_chef_service.rs:45-53 | a cycle in CREATED moves to EXECUTING and changes nothing else: no message is sent or consumed |
| `HeadChef.ExecutingAwaitsAck` | driver/src/head_chef_service.rs:73-79 | in EXECUTING, a queued ack is consumed and the head chef completes; with no ack queued nothing changes |
| `HeadChef.OtherStatesAreFixedPoints` | driver/src/head_chef_service.rs:38-40 | ISSUED, COMPLETED and the unused FAILED are no-op fixed points |
| `HeadChef.RunKeepsInv` | driver/src/head_chef_service.rs:35-79 | after any run of a new head chef, the command log is empty and the recipe is the given one; CREATED and EXECUTING have consumed nothing, and COMPLETED has consumed exactly the first ack delivered |
| `HeadChef.RunNeverSends` | driver/src/head_chef_service.rs:35-79 | over any run nothing is ever sent, only CREATED, EXECUTING and COMPLETED are reached, COMPLETED holds exactly when one ack has been consumed, and the recipe is never modified |
| `HeadChef.HeadChefService.CheckCompleted` | driver/src/head_chef_service.rs:30-32 | true exactly in COMPLETED |
| `HeadChef.HeadChefService.Cycle` | driver/src/head_chef_service.rs:35-42 | the fields become `Step` of the old fields |
| `HeadChef.HeadChefService.HandleCreated` | driver/src/head_chef_service.rs:45-53 | the fields become `StepCreated` of the old fields |
| `HeadChef.HeadChefService.SendMsg` | driver/src/head_chef_service.rs:59-68 | the fields become `SendMsgStep` of the old fields |
| `HeadChef.HeadChefService.AttemptReceiveAck` | driver/src/head_chef_service.rs:73-79 | the fields become `StepExecuting` of the old fields |
| `Publisher.Initial` | driver/src/some_publisher.rs:12-21 | a new publisher is CREATED and holds exactly the writer and reader it was given |
| `Publisher.PublisherBase.constructor` | driver/src/some_publisher.rs:12-21 | the new object's fields are `Initial(writer, reader)` |
| `Publisher.Step` | driver/src/some_publisher.rs:27-35 | a cycle never enters ISSUED, so the `todo!()` cannot fire |
| `Publisher.Run` | driver/src/some_publisher.rs:27-35 | no run enters ISSUED |
| `Publisher.CreatedWritesCommand` | driver/src/some_publisher.rs:29-48 | a cycle in CREATED writes exactly one `SimpleCommand` with value 50, moves to EXECUTING and leaves the reader alone |
| `Publisher.ExecutingTakesSample` | driver/src/some_publisher.rs:53-61 | in EXECUTING, a sample completes the publisher and is consumed; no sample, or a read error, changes nothing |
| `Publisher.TerminalIsFixedPoint` | driver/src/some_publisher.rs:33 | COMPLETED, and the unused FAILED, are fixed points |
| `Publisher.RunKeepsInv` | driver/src/some_publisher.rs:27-61 | after any run, the writer's log is the given writer's log, plus the one command once the publisher has left CREATED; the reader holds what it was given plus the acks delivered since, minus the first one once COMPLETED |
| `Publisher.RunWritesAtMostOnce` | driver/src/some_publisher.rs:27-61 | over any run only CREATED, EXECUTING and COMPLETED are reached; at most one command is added to the writer; COMPLETED holds exactly when one ack has been taken |
| `Publisher.PublisherBase.CheckCompleted` | driver/src/some_publisher.rs:23-25 | true exactly in COMPLETED |
| `Publisher.PublisherBase.Cycle` | driver/src/some_publisher.rs:27-35 | keeps the object out of ISSUED and takes the fields to `Step` of the old fields |
| `Publisher.PublisherBase.SendMsg` | driver/src/some_publisher.rs:40-48 | the fields become `StepCreated` of the old fields |
| `Publisher.PublisherBase.AttemptReceiveAck` | driver/src/some_publisher.rs:53-61 | the fields become `StepExecuting` of the old fields |
| `Subscriber.Initial` | sub/src/some_subscriber.rs:16-23 | a new subscriber is not completed, stores no command, and has received and sent nothing |
| `Subscriber.SubscriberBase.constructor` | sub/src/some_subscriber.rs:16-23 | the new object's fields are `Initial()` |
| `Subscriber.Step` | sub/src/some_subscriber.rs:29-51 | completion never reverts to false, and completion always comes with a stored command |
| `Subscriber.Run` | sub/src/some_subscriber.rs:29-51 | completion comes with a stored command after any run |
| `Subscriber.NothingToTake` | sub/src/some_subscriber.rs:31-50 | with no message, or on a read error, a cycle changes nothing and sends nothing |
| `Subscriber.TakesCommand` | sub/src/some_subscriber.rs:31-47 | a received command is consumed and becomes the last command; exactly one ack is sent; the subscriber is completed |
| `Subscriber.RunKeepsInv` | sub/src/some_subscriber.rs:29-51 | after any run, if n commands have been consumed, the queue is the delivered commands minus the first n, n acks have been sent, completion holds exactly when n > 0, and the last command is the n-th delivered |
| `Subscriber.RunAcksEachCommand` | sub/src/some_subscriber.rs:29-51 | over any run the number of acks sent equals the number of commands consumed; the queue holds exactly the commands not yet consumed; completion holds exactly when something was consumed; the last command is the most recently consumed one |
| `Subscriber.LoopRun` | sub/src/main.rs:10-12 | the driver loop keeps the subscriber's invariant, and it stops cycling once the subscriber has completed: completion is kept, and neither the last command nor the ack log changes again |
| `Subscriber.LoopAcksAtMostOnce` | sub/src/main.rs:10-12 | under the driver loop, which cycles only until completion, at most one command (the first delivered) is consumed and acknowledged |
| `Subscriber.SubscriberBase.CheckCompleted` | sub/src/some_subscriber.rs:25-27 | a completed subscriber always holds a command |
| `Subscriber.SubscriberBase.Cycle` | sub/src/some_subscriber.rs:29-51 | the fields become `Step` of the old fields, and the invariant is kept |

## Left out

- The DDS machinery behind common/src/io.rs (domain participants, topics, QoS, CDR adapters): it is replaced by the abstract `Receiver` queue and `Sender` log. Messages arrive only between cycles, through a tick's deliveries.
- Io.Sender.Publish: a rejected write panics and ends the process, inside `Sender::send` (common/src/io.rs:47) or at the `unwrap` in driver/src/some_publisher.rs:45. The control service, the head chef's unused `send_msg`, the publisher and the subscriber are therefore modelled only for deliveries that succeed.
- Io.Receiver.TryReceive: a failed take is assumed to remove nothing from the queue. common/src/io.rs:89-92 only passes on the transport's error, and whether a sample was lost with it is not visible there. The queue equations of `Subscriber.RunKeepsInv`, `Subscriber.RunAcksEachCommand`, `Publisher.RunKeepsInv` and `Publisher.RunWritesAtMostOnce` rest on this assumption.
- `Receiver::receive` returns a `Result` in common/src/io.rs:88. The cook chef, the control service and the head chef match on an `Option` directly, so their polls never fail in the model. Only the publisher and the subscriber see read errors.
- `std::thread::sleep` and every `println!`: a cook-chef handler returns how long it would sleep, as a whole number of seconds. Nothing waits, and nothing is printed.
- YAML (de)serialisation and `std::fs` in common/src/recipe.rs: a file is an abstract document holding a recipe, a parse error or a read error. The save-then-load round trip relies on serde reading back what it wrote, which is assumed, not proved.
- Recipes.Disk.ToFile: a failed `std::fs::write` is taken to leave the file system as it was; a partly written file is not modelled.
- `Path::exists` and `read_to_string` are one lookup in the abstract map. A file that appears or disappears between the two calls is not modelled.
- The `f32 version` of `SimpleCommand` and the literal 4.4: floating point is not modelled; only the integer `value` is kept.
- `Duration` is a whole number of seconds; sub-second durations are not modelled.
- prep-chef (its `cycle` is `todo!()`), main/src/main.rs (one DDS write), common/src/mission_plan.rs (an unavailable crate) and `BeginPreparationCommand`: they have no behaviour to model.
- The driver loops of driver/src/main.rs:21-49 and cook-chef/src/main.rs: process start-up and busy polling. Only the subscriber's loop (sub/src/main.rs:10-12) is modelled, as `Subscriber.LoopRun`.
- Concurrency between processes, message loss or duplication, and timeouts: none of these is implemented in the code.
- The multi-step recipe walk that a head chef would carry out is not implemented in the code (driver/src/head_chef_service.rs:50 is a TODO), so it is not modelled.
