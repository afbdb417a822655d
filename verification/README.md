# Command processor: a Dafny model

This project models the core of an event-sourced command processor.

- **Rule-outcome algebra** (`src/command-rules.ts`). A business rule never reads the read-model itself. It returns an outcome: `Fetch` (read an object, then continue with a success continuation `sk` or a failure continuation `fk`), `Succeeded(events)` or `Failed(reason)`. The rules sit in a table keyed by command type. Each entry is a `Command` wrapper that hands its `{ handler }` record to an inspector. Two concrete handlers are modelled: `register` and `change_email`.
- **Processor** (`src/processor.ts`). It holds the event-log position `event_t`, which the read-model has caught up to and which is unknown at first. It also holds a buffer `pending_commands`.
  - While the position is unknown, commands are buffered.
  - The first catch-up signal sets the position, processes the buffered commands and clears the buffer.
  - Every later signal must report exactly one more than the known position.
  - Processing a command evaluates it and registers its terminal outcome with the event database. A failure goes to `fail_command`. A success goes to `succeed_command` with expected position `event_t + 1`. The reply status is read as a `reprocess` flag: 409 gives true, 200 gives false, anything else is retried.

Modules, one per concern:

- `Wrappers` (`wrappers.dfy`): `Option`.
- `CommandRules` (`command_rules.dfy`): `Outcome`, `FetchDesc`, the `Command` wrapper, the table, the two handlers and dispatch. `Outcome` is a three-constructor datatype, so an outcome is exactly one of fetch, succeeded or failed. `FetchDesc` carries the object type, the id and the two continuations, and each continuation yields another `Outcome`.
- `Registration` (`registration.dfy`): queued commands, terminal outcomes, and the requests posted to the event database. It covers the choice between `fail_command` and `succeed_command`, the status→`reprocess` mapping, and the retry loop of those calls. The loop runs over a finite stream of replies.
- `Sequencing` (`sequencing.dfy`): the processor's state machine as functions on a `State` (position, buffer, log of posted requests), with lemmas over whole traces of inputs.
- `Processing` (`processing.dfy`): the class `Processor`, whose methods update `eventT`, `pending` and the request log in place. It also holds the driver loops of `start_processing` and `poll_commands`. Each method is proved to change the state exactly as the `Sequencing` functions say.

On a 409 reply the code only logs the `reprocess` flag (`src/processor.ts:193-198`); nothing re-runs the command, and neither does the model. The code processes buffered commands and the commands of a fetched queue with `Promise.all`; the model processes them one by one, in order.

## Model

| member | source | states |
|---|---|---|
| CommandRules.TypeName | src/command-rules.ts:29-31 | the table key of a command is "register" exactly for register commands and "change_email" exactly for change_email commands |
| CommandRules.CommandHandsOverArgs | src/command-rules.ts:41-45 | `Command(args)` applied to an inspector `f` is `f(args)` |
| CommandRules.RegisterHandler | src/command-rules.ts:48-54 | `register` always succeeds with exactly one event, of type "user_registered", whose value has exactly the keys user_id, email, salted_hash and decodes back to the input unchanged |
| CommandRules.ChangeEmailHandler | src/command-rules.ts:56-57 | `change_email` always fails with reason "not implemented" |
| CommandRules.ChangeEmailIgnoresInput | src/command-rules.ts:56-57 | the `change_email` outcome is the same whatever its input |
| CommandRules.Dispatch | src/command-rules.ts:61-63 | when the entry keyed by the command's type is the `Command` wrapper of a handler record, the outcome is that handler applied to the command's value; `DispatchAppliesHandler` and `DispatchConcreteRules` state it for built tables |
| CommandRules.CommandRulesTable | src/command-rules.ts:47-59 | the `register` key dispatches every register command to the register handler and the `change_email` key every change_email command to the change-email handler; `DispatchConcreteRules` and `Registration.ConcreteRulesAreTerminal` build on it |
| CommandRules.DispatchAppliesHandler | src/command-rules.ts:61-63 | dispatch on a table built with `Command` applies the handler keyed by the command's type to the command's value |
| CommandRules.DispatchConcreteRules | src/command-rules.ts:47-63 | on the concrete table, dispatch never asks for a fetch; the `register` key dispatches to the register handler and the `change_email` key fails with "not implemented" |
| Registration.AsTerminal | src/command-rules.ts:20-23 | a rule outcome has a terminal reading exactly when it is not `fetch`, and that reading, embedded back by `FromTerminal`, is the outcome itself |
| Registration.TerminalRoundTrip | src/command-rules.ts:20-23 | every terminal outcome embeds as a non-fetch rule outcome that reads back as itself |
| Registration.ConcreteRulesAreTerminal | src/command-rules.ts:47-63 | the concrete table yields a terminal outcome for every command: register its one `user_registered` event, change_email the failure "not implemented" |
| Registration.RequestFor | src/processor.ts:141-157 | a failed outcome becomes a fail_command request and a succeeded one a succeed_command request; the command's uuid and the given position are carried, and the reported outcome equals the input outcome |
| Registration.StatusToReprocess | src/processor.ts:123-133 | a status settles exactly when it is 200 or 409, and then `reprocess` is true exactly for 409; every other status is retried |
| Registration.Answer | src/processor.ts:93-138 | a post that gets no answer is retried; a fail_command post settles with `reprocess: false` exactly on a 2xx status (the client's default status check) and is retried otherwise; a succeed_command post is read through the status mapping |
| Registration.Deliver | src/processor.ts:93-138 | the same request is posted until an attempt settles: the result is the first settled answer and every earlier attempt was retried, or every reply asked for a retry |
| Registration.RegisterOutcome | src/processor.ts:141-157 | the first reply that settles the routed request decides the result and every earlier one was retried; a failed outcome settles only on a 2xx reply and never asks for reprocessing; a succeeded outcome settles only on 200 or 409 and asks for reprocessing exactly on 409 |
| Sequencing.Process | src/processor.ts:183-197 | processing a command posts a request with the command's uuid, reporting its evaluated outcome, with expected position one past the current position |
| Sequencing.ProcessAll | src/processor.ts:163-168 | processing a buffer yields one request per buffered command, in buffer order |
| Sequencing.Enqueue | src/processor.ts:175-181 | the position is unchanged; while it is unknown the command is buffered and nothing is posted, once known exactly one request is posted and the buffer is untouched; an empty buffer stays empty once ready; `BufferKeepsArrivalOrder` and `ReadyProcessesArrivals` give the exact contents |
| Sequencing.EventHandled | src/processor.ts:162-173 | a report is accepted exactly when the position is unknown or it is one past the known position; an accepted report becomes the position, the first one empties the buffer and appends to the log exactly the requests of the buffered commands, in buffer order, at the new position (`ProcessAll`), a later one changes nothing else; a rejected one names the expected and the reported position; `ReadyRunIff` and `UninitializedRunIff` lift this to traces |
| Sequencing.RunKeepsConsistent | src/processor.ts:159-181 | over any trace, once the position is known the buffer stays empty |
| Sequencing.BufferKeepsArrivalOrder | src/processor.ts:175-178 | while the position is unknown, enqueued commands are appended to the buffer in arrival order and nothing is posted |
| Sequencing.ReadyProcessesArrivals | src/processor.ts:175-180 | once the position is known, enqueued commands are processed at once, in order, and the buffer is untouched |
| Sequencing.EnqueueAllAppend | src/processor.ts:214-219 | enqueuing one fetched queue after another is enqueuing their concatenation |
| Sequencing.BufferedCommandsProcessedOnFirstSignal | src/processor.ts:162-178 | from a fresh processor, commands that arrive before the first signal `t` are each processed exactly once, in arrival order, at position `t`; the buffer ends empty and the position is `t` |
| Sequencing.ReadyRunIff | src/processor.ts:169-172 | with the position known, a trace runs without violation exactly when its signals report the following positions one by one; the position then stays known and has advanced by one per signal |
| Sequencing.UninitializedRunIff | src/processor.ts:162-172 | from an unknown position, a trace runs without violation exactly when its signals report consecutive positions; the position stays unknown until the first signal and is the last reported one afterwards |
| Sequencing.StepKeepsUuids | src/processor.ts:162-180 | one input adds the uuid of the command it brings, if any, after the uuids already posted or buffered |
| Sequencing.NothingDroppedOrReordered | src/processor.ts:159-181 | over any trace without violation, the posted uuids followed by the buffered uuids grow by exactly the arriving commands' uuids, in arrival order |
| Processing.Processor.constructor | src/processor.ts:159-161 | a new processor has no position, an empty buffer and has posted nothing |
| Processing.Processor.ProcessCommand | src/processor.ts:183-197 | requires a known position and appends exactly the request for the command at that position to the log |
| Processing.Processor.EventHandled | src/processor.ts:162-173 | the first call sets the position, posts one request per buffered command in buffer order and empties the buffer; later calls succeed exactly when they report the next position, and a rejected call changes nothing |
| Processing.Processor.EnqueueCommand | src/processor.ts:175-181 | buffers the command while the position is unknown, otherwise processes it; the empty-buffer-once-ready invariant is kept |
| Processing.EnqueueQueue | src/processor.ts:214-219 | enqueuing a fetched queue enqueues its commands in queue order |
| Processing.StartProcessing | src/processor.ts:223-233 | on a fresh processor, reporting the fetched position and each following one is always accepted; the buffered commands are processed at the first position, and the position ends at the last one reported |
| Processing.PollCommands | src/processor.ts:210-221 | the polled status positions go up by exactly one per iteration from the fetched one, and all fetched queues are enqueued in fetch order |

## Left out

- HTTP calls to the event database and the read-model reducers (`fetch_event_t`, `fetch_status_t`, `fetch_pending_commands`, `poll_command_queue`, `reducers_catchup`) are network I/O. Their results become parameters: the fetched position, the fetched status position, and the fetched queues. The wait for the reducers to catch up is not modelled. Note that its retry loop, unlike the others, does not sleep between attempts.
- Registration.Deliver: the source retries forever. The model only sees a finite stream of replies, and `Retry` means the stream ran out while the call was still retrying.
- Processing.Processor.ProcessCommand: records the request that `register_outcome` posts, once per processed command. The replies to that request and the repeated posts on retry are modelled only by `Registration.RegisterOutcome`, because the source only logs the resulting `reprocess` flag.
- The recursive retry in `process_command` after an exception is not modelled (`src/processor.ts:199-204`). It exists for unbounded retry under I/O failure.
- `Promise.all` concurrency is not modelled. Buffered commands and the commands of a fetched queue are processed one at a time, in order, and each method runs atomically.
- Processing.Processor.EventHandled: the failing assert at `src/processor.ts:170` is modelled as a `false` result that leaves the state unchanged. The model does not capture the resulting crash of the driver loop.
- Processing.StartProcessing and Processing.PollCommands: these model a given number of iterations of loops that never end. Commands arriving between catch-up signals are covered by the trace lemmas in `Sequencing`, not by these methods.
- Positions are unbounded integers. In the source they are JavaScript numbers (doubles), so the `+ 1` at `src/processor.ts:170`, `:196`, `:216` and `:231` is inexact above 2^53; the model does not capture that.
- Re-evaluation of a command on a 409 conflict is not modelled, because the code never does it.
- Evaluating a queued command to a terminal outcome is not modelled. That is the `process_command` and `terminal_command_outcome` imported by `src/processor.ts`, and neither is defined in the files modelled here. The processor is given the evaluation as a fixed function of the command's type and data. It ignores the read-model's state, so the model evaluates the same command the same way every time. In the source, evaluation reads the read-model, which moves on between evaluations, and `poll_commands` can fetch a still-pending command again (`src/processor.ts:218-219`). The loop that resolves `Fetch` outcomes against the read-model is not part of this model.
- `parse_command_type` and the generated schema types are not part of this model. Payloads are opaque string maps, and the failure of an unknown or malformed command is not modelled.
- `src/main.ts` (an HTTP server), `src/verify.ts` (signature verification), `src/objects.ts` (types only), the sleep helper and console logging are not modelled.
