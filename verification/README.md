# Verified model of the shakespeare actor library

Three parts of the repository are modelled, and theorems about all their inputs, runs or reachable states are proved.

**The actor runtime** (`Types`, `ActorSteps`, `Runtime`) is a transition system over any number of actors, roles,
messages, callers and helper tasks. An actor has one FIFO mailbox per role, the strong count of its shell, the
Context's `running` flag, a watchdog deadline, a user state, and a phase: not yet polled, at the top of the loop,
waiting in `select!` with the guards read at its entry, in a handler, about to run the return path, in `stop`/`catch`,
closing its receivers, dead. A message is held in an `Envelope`, in a send future, in a spawned helper task, in a
mailbox, in a handler, or in one of its final places. The events are what user code, tasks, handlers and the loop can
do, in any order. User arguments, results and states are opaque; what a handler does and how long a future takes is
arbitrary. `Invariants.Inv` gathers the invariants: exact ownership counting (`Ownership`), the place of each message,
FIFO histories, the state of the loop, the log of handler calls, forwarded results, feeders. `Reachability` shows that
every run from nothing keeps it; the files ending in `Proofs`, with `MessageShapes`, prove it step by step. `Delivery`, `Replies`,
`Lifetime`, `Drain`, `LastHandle`, `Sequential`, `Forwarding`, `Deadlock`, `Aftermath`, `Progress` and `Findings` hold
the theorems about every reachable state and every run.

`Worlds`, `Envelopes` and `EventLoop` give the same code in its imperative form, as classes (`Channel`, `Shell`,
`OneShot`, `Envelope`, `ReturnCaster`, `Context`, `EventLoop`). A world (`Worlds.World`) is a set of shells with their
channels, and the reply channel of each awaited message; it stands for a state of the runtime when counts, mailboxes,
the parcels in them with their return paths, and reply channels are those of the state. The empty world stands for the
state in which nothing has been started (`Worlds.NothingYet`). The methods perform the runtime's steps: afterwards the
world stands for the next state. The event loop works on the channels of its shell and is
proved against `EventLoop.RunLoop`, a function on the actor's record; `EventLoop.LoopIsRun` shows that this is what the
runtime does.

**The chat server** (`Chat`, `ChatServer`): the mutually recursive `broadcast` and `remove_client` over the map of
users, with an arbitrary answer to each client send, and whole runs of the server's handlers.

**The macros as a compiler** (`Signatures`, `Generated`, `MacroProofs`): a list of method signatures is compiled into
payload variants, sending methods, dispatch arms, `Accepts` and `Emits` impls, held as data with an interpreter.

Modelling decisions:

- Reading all guards of one `select!` is one step, and so is each poll of a future, as on a single-threaded scheduler.
  `select!` may take any ready branch; `else` fires only when every branch is disabled.
- The clock counts milliseconds. The timer branch can be taken once the deadline has passed; bounds in time assume
  that it is then taken promptly, and say so.
- All receivers of an actor close together, when `stop` or `catch` has returned. Until then sends are accepted; what
  is still queued is dropped afterwards.
- The value returned with a refused send is dropped in the same step.
- A handler awaits at most one reply at a time; whatever else it waits for is a delay before its next event.

Where the code and its documentation differ, the model follows the code:

- `src/lib.rs:151` says that after `Context::stop` no further messages are processed and calls return an error. The
  guards keep receiving from every non-empty mailbox, so queued messages, and those that arrive meanwhile, are still
  handled: `Drain.StopDrains` for every run, `Findings.HandledAfterStop` a run with a call made after stop.
- `src/lib.rs:152` says that an actor without handles stops when no message is waiting. The timer branch can be
  taken when a message is waiting as well; `Findings.LeavesBehindExactly` says exactly when, and
  `Findings.LosesAcceptedMessage` is a run in which an accepted message is never handled.
- `src/lib.rs:150` says that sends fail after a panic. `Findings.SendAfterPanic` is a run in which one succeeds.
  A send is refused exactly when the receivers are closed, which is only after `catch` (`Aftermath.AcceptedExactly`);
  one accepted before that is never handled (`Aftermath.NeverHandled`), whatever `ignore_return` told its sender.
- `src/core/returnval.rs:212-213` says that `Hangup` means a panic or a call of stop. An exit by the timer gives it as
  well (`Findings.LosesAcceptedMessage`), and nothing else does: the comment holds of a `Hangup` exactly if the actor
  was not ended by its timer (`Aftermath.HangupMeans`), and those whom it misleads are exactly the callers whose message
  was queued when the timer branch was taken (`Findings.UndocumentedHangup`).
- Removing the context from a signature twice, as happens for a canonical performance's role, is not the same as
  removing it once if the parameter after the context is a non-static reference too
  (`Signatures.RemovalIdempotent`, `Signatures.TraitMatchesShell`).

## Model

| member | source | states |
|---|---|---|
| Reachability.ReachableInv | shakespeare-macro/src/outputs/actor/spawning_function.rs:90-147 | every state of every run from nothing satisfies all invariants together |
| Reachability.StepKeepsInv | shakespeare-macro/src/outputs/actor/spawning_function.rs:104-142 | every enabled event of any party keeps all invariants |
| OwnershipProofs.KeepsCounts | src/core/context.rs:30-38 | through every event each actor's strong count is exactly Context's share + user handles + unsent messages + Mailbox closures + live feeders |
| MessageProofs.KeepsMsgs | src/core/returnval.rs:19-26 | return path, reply channel, caster and place of a message agree after every event |
| LaneProofs.KeepsLanes | src/tokio.rs:6-22 | every mailbox's history stays duplicate-free, and splits into taken, dropped and queued as its messages' places say |
| LoopProofs.KeepsLoops | shakespeare-macro/src/outputs/actor/spawning_function.rs:105-122 | deadline at most one period ahead; with the timer off, every enabled receive has a message; nothing dropped before the task ends |
| LoopProofs.KeepsHistories | shakespeare-macro/src/outputs/performance/dispatch_core_fn.rs:47-58 | the log of handler calls stays a chain of states over the order in which messages were taken |
| HandlerProofs.KeepsHandlers | shakespeare-macro/src/outputs/actor/spawning_function.rs:64-67 | a message is in a handler iff it is its actor's current one; a handled message is in the log with its value; a crashed one is the last taken |
| ForwardProofs.KeepsForwards | src/core/returnval.rs:129-155 | each carried-on result stays tied to exactly its forwarded message, and the other way round |
| Delivery.OnePlace | src/core/returnval.rs:92-96 | a message occurs in a mailbox's queue and histories exactly as often (0 or 1) as its place says, and in no other mailbox |
| Delivery.OneHandler | shakespeare-macro/src/outputs/actor/spawning_function.rs:60-69 | a message is in a handler iff it is the current message of its own actor, and of no other actor |
| Delivery.StepForward | src/core/returnval.rs:104-114 | a message moves only forward: never back to a caller, never out of a final place; recipient and payload never change |
| Delivery.RunForward | src/core/returnval.rs:167-198 | the same over whole runs: an accepted message stays accepted, a final place is final |
| Delivery.Fifo | src/tokio.rs:6-22 | while the task has not ended, enqueued == taken ++ queued for each role, and the handling order restricted to the role is the taken sequence |
| Delivery.HappensBefore | src/lib.rs:141-144 | a message accepted before a later same-role message is taken out before it, over every run |
| Delivery.DeadSettles | shakespeare-macro/src/outputs/actor/spawning_function.rs:104-143 | all that a dead actor ever accepted is handled, crashed or discarded, and arrivals == taken ++ dropped for each role |
| Replies.TakenOnce | shakespeare-macro/src/outputs/actor/spawning_function.rs:60-69 | no message is taken out of a mailbox twice |
| Replies.LoggedOnce | shakespeare-macro/src/outputs/performance/dispatch_core_fn.rs:47-58 | no message is handled to completion twice |
| Replies.ReplyIsTruth | src/core/returnval.rs:201-215 | Ok(v) iff the handler returned v, SendingError iff refused, Hangup iff accepted but crashed or discarded; without Ok no handler returned anything |
| Replies.NotLogged | shakespeare-macro/src/outputs/performance/dispatch_core_fn.rs:47-58 | a refused, discarded or crashed message has no completed handler call |
| Replies.PollOutcome | src/core/returnval.rs:275-295 | what each poll of a caster yields, in terms of where its message is |
| Replies.DeadActorAnswers | src/core/returnval.rs:289-294 | every poll of a caster for a dead actor yields an answer |
| Replies.AnswerIsFinal | src/core/returnval.rs:275-295 | no later step of any run contradicts an answer |
| Replies.OutcomeMeans | src/core/actor.rs:75-77 | the answer is Panic iff a handler of the actor panicked, and that was the last message taken |
| Aftermath.ExitAnswers | src/core/actor.rs:73-77 | in every run the exit handle answers from the end of the task on, and only then: not while `stop` or `catch` runs |
| Progress.ShutsDown | shakespeare-macro/src/outputs/actor/spawning_function.rs:137-146 | from `stop` or `catch` the actor's own task can always complete by itself, and the exit handle then answers with the exit taken |
| Progress.ActorCanStep | shakespeare-macro/src/outputs/actor/spawning_function.rs:104-143 | an actor's task can always step, unless it waits with nothing to receive until its timer is due, its handler awaits a reply, or it is dead |
| Progress.MessageCanGo | src/core/returnval.rs:61-65 | an unsent message can always be sent by whoever holds it; while undecided it can be awaited, forwarded or dropped |
| Progress.HandleCanBeUsed | src/core/context.rs:30-32 | every handle can be called through, fed to, cloned and dropped; a clone adds one owner, and dropping it undoes exactly that |
| Progress.AwaitEnds | src/lib.rs:87 | a handler that awaits goes on exactly when its caster is resolved, with nothing of its actor changed by the wait |
| Lifetime.RunningMeans | src/core/context.rs:30-32 | is_running iff stop was not called and somebody other than the Context owns a handle |
| Lifetime.ReceiveNeverNone | shakespeare-macro/src/outputs/actor/spawning_function.rs:64 | in no reachable state can recv yield None |
| Lifetime.ExitStep | shakespeare-macro/src/outputs/actor/spawning_function.rs:109-122 | which step takes which exit; `else` only with every mailbox empty and stop called or no owner; timer only when due and no owner; state handed on unchanged |
| Lifetime.Isolated | src/core/context.rs:30-38 | an actor whose count is 1 outside a handler is changed by nothing but its own loop |
| Lifetime.AloneStep | shakespeare-macro/src/outputs/actor/spawning_function.rs:109-119 | an actor waiting alone with empty mailboxes stays as it is or is ended by its timer when due |
| Lifetime.ExitedForGood | shakespeare-macro/src/outputs/actor/spawning_function.rs:133-141 | once out of the loop, an actor never handles anything again and keeps its state and exit |
| Lifetime.WatchdogBound | src/lib.rs:156 | once alone, the deadline never moves; with a prompt timer the loop has ended within IDLE_TIMEOUT |
| Lifetime.TimerPeriod | shakespeare-macro/src/outputs/actor/spawning_function.rs:65-66 | in every run the timer can go off exactly 1000 ms after the loop was entered, a message was last received or the timer last went on, and never earlier |
| Lifetime.GuardsDecide | shakespeare-macro/src/outputs/actor/spawning_function.rs:64 | whatever others do while the loop waits, a mailbox can be received from iff it has a message and had one, or the actor was running, when select! was entered; the timer is polled iff the actor was running then |
| Lifetime.NoWait | src/lib.rs:156 | from the top of the loop with empty mailboxes and no owner, every run leaves the actor unchanged with its guards readable, or has ended it through `else`, never through the timer |
| LastHandle.AloneDrains | src/lib.rs:152 | with any number of messages queued when the last handle goes: nothing more arrives, own steps are bounded by what is queued, and the timer is on only in a select! entered before |
| LastHandle.AloneEnds | src/lib.rs:156 | such an actor ends through `else` after exactly the queued messages, without the timer, or by the timer of the select! it was in when the last handle went, with nothing changed since |
| Drain.Balance | shakespeare-macro/src/outputs/actor/spawning_function.rs:60-69 | over all roles together, arrived == taken + queued |
| Drain.StoppingStep | src/core/context.rs:41-43 | after stop: running stays false, the timer stays off, and each step's effect on phase and order |
| Drain.DrainBound | shakespeare-macro/src/outputs/actor/spawning_function.rs:64 | after stop, own steps taken + own steps left == the budget of what was queued + 4 for each arrival |
| Drain.StoppingCanStep | shakespeare-macro/src/outputs/actor/spawning_function.rs:60-69 | a stopping loop always has a next own step unless its handler awaits a reply |
| Drain.StopDrains | shakespeare-macro/src/outputs/actor/spawning_function.rs:109-122 | with k queued at stop and j later arrivals, without panic exactly k + j more handlers begin; they and the one in progress complete, and the loop breaks through `else` with every mailbox handled in order |
| Sequential.LogIsRun | shakespeare-macro/src/outputs/actor/spawning_function.rs:66 | the k-th handler started from the state of running the first k alone, one at a time |
| Sequential.SequentialState | shakespeare-macro/src/outputs/actor/spawning_function.rs:133-140 | the state given to `stop` or `catch` is the fold of the handlers over all messages taken, an interleaving of the mailboxes; `catch` iff the last of them, started on the fold of the others, panics there |
| Sequential.SequentialReply | src/core/returnval.rs:289-294 | Ok(v): v is what the message's handler returns when run on the fold of those before it |
| Sequential.AlwaysExplained | src/lib.rs:135-139 | for every schedule there is one behaviour of the handlers whose one-at-a-time run gives the actor's state, every Ok reply at its place, and the panic if there was one |
| Sequential.StartRecorded | src/lib.rs:133 | in every later state an actor's history begins with the state given to `start`, and it has the roles it was started with |
| Sequential.CallRecorded | shakespeare-macro/src/outputs/performance/dispatch_core_fn.rs:54-57 | a completed handler call is on record in every later state with the state it was called on, the state it left and what it returned |
| Sequential.PanicRecorded | src/lib.rs:124 | `catch`, and everybody who looks later, gets the state the panicking handler left |
| Forwarding.ForwardedOnce | src/core/returnval.rs:139-154 | one message with the handler's value and a Discard path is offered to the recipient iff the forwarded message's handler completed; none otherwise |
| Forwarding.AnsweredBeforeNext | shakespeare-macro/src/outputs/performance/dispatch_core_fn.rs:54-57 | in every reachable state, every completed handler call but one whose return path is about to run has been answered: reply channel filled, or forwarded value offered once |
| Forwarding.RecipientKept | src/core/returnval.rs:124 | the recipient's count stays above the Context's share until the forwarded message is answered or lost |
| Forwarding.StreamPrefix | src/sendable.rs:51-63 | what a feeder enqueued is the in-order, duplicate-free stream it pulled, less the last item if that was refused |
| Forwarding.FeederKeepsAlive | src/sendable.rs:44 | an actor cannot run out of handles while a feeder for it lives |
| Forwarding.FinishedForGood | src/sendable.rs:59-61 | after its stream ended or a send failed, a feeder never sends again |
| Forwarding.StreamEnds | src/sendable.rs:44 | at the end of its stream a feeder is finished and its actor's count one lower, every other owner unchanged; if it was the only one, the actor has none any more |
| Forwarding.RefusedFeedEnds | src/sendable.rs:59-61 | a refused item ends the feeder and gives up its handle |
| Forwarding.FedWhereAsked | src/sendable.rs:45-58 | in every later state all that a feeder sent went to the actor and role it was given for |
| Forwarding.SentWhereAsked | src/sendable.rs:19-31 | in every later state a call or send_when_ready is addressed to the actor and role it was made for, with its arguments |
| Forwarding.DroppedIsSent | src/core/returnval.rs:192-197 | a dropped Envelope, or future of forward_to, can be sent by its helper until it has been offered; it is never forwarded, and its recipient is released |
| Forwarding.DroppedCaster | src/core/returnval.rs:177-185 | a ReturnCaster dropped before its first poll sends nothing in any later state and gives up its handle; afterwards nothing changes but the caster |
| Forwarding.DeadHelper | src/sendable.rs:24-26 | a helper whose future panics sends nothing in any later state and gives up its handle |
| Deadlock.CircleIsPermanent | src/lib.rs:87 | handlers that await messages queued at each other never end, and no member ever begins another, in any run |
| Deadlock.LoopCanGoOn | src/lib.rs:87 | a loop with a message waiting, whose handler is not blocked on a reply, has an enabled step |
| Deadlock.LoopAlwaysGoesOn | src/core/returnval.rs:120-122 | over every run in which an actor's handlers never block on a reply, its loop has a next step whenever a message waits |
| Findings.CircleReachable | src/core/returnval.rs:120 | a run that reaches such a circle: the handlers of two actors await calls of each other |
| Findings.LeavesBehindExactly | shakespeare-macro/src/outputs/actor/spawning_function.rs:111-115 | a graceful exit leaves a message queued iff the timer branch can be polled, nobody else owns a handle, and a message is queued |
| Findings.LosesAcceptedMessage | shakespeare-macro/src/outputs/actor/spawning_function.rs:111-115 | a run in which the last owner calls and drops its handle just as the timer is due: the actor exits and dies with the accepted message unhandled, its exit handle answers Exit, and the caller gets Hangup |
| Findings.SendAfterPanic | src/lib.rs:150 | a run in which a message sent after a handler panicked is accepted |
| Findings.PanicsAndDies | src/lib.rs:150 | a run from nothing to an exit handle that answers Panic, with the message sent during `catch` discarded |
| Findings.HandledAfterStop | src/lib.rs:151 | a run in which a message only made after stop was called is handled |
| Aftermath.AcceptedExactly | src/tokio.rs:9-11 | a message offered to an actor is accepted iff the actor has not closed its receivers, whether or not it has left its loop; otherwise refused |
| Aftermath.OnlyOffers | src/core/returnval.rs:104-155 | no other event puts a message into a mailbox or has it refused |
| Aftermath.NeverHandled | shakespeare-macro/src/outputs/actor/spawning_function.rs:135-142 | a message queued at an actor that has left its loop is never handled in any later state; awaited, it can only yield Hangup |
| Aftermath.HangupMeans | src/core/returnval.rs:210-214 | after Hangup, the documented meaning (the actor panicked or was stopped) holds iff the actor was not ended by its timer |
| Findings.LostExactly | shakespeare-macro/src/outputs/actor/spawning_function.rs:111-115 | in every run, the messages lost by an actor that its timer ended are exactly those queued when that timer branch was taken |
| Findings.UndocumentedHangup | src/core/returnval.rs:210-214 | in every run, a caller is told Hangup by an actor that neither panicked nor was stopped iff its message was queued when the timer branch was taken |
| EventLoop.EventLoop.constructor | shakespeare-macro/src/outputs/actor/spawning_function.rs:98-106 | a loop over the channels of a shell just started is the runtime's new actor after its first poll |
| EventLoop.EventLoop.Enter | shakespeare-macro/src/outputs/actor/spawning_function.rs:109-120 | reading the guards is the runtime's guard step, `else` included |
| EventLoop.EventLoop.Dispatch | shakespeare-macro/src/outputs/actor/spawning_function.rs:64-67 | a receive branch takes the oldest parcel out of its channel, restarts the timer's period (`Lifetime.TimerPeriod`) and runs the handler |
| EventLoop.EventLoop.PollTimer | shakespeare-macro/src/outputs/actor/spawning_function.rs:111-119 | the timer branch is the runtime's timer step |
| EventLoop.EventLoop.Run | shakespeare-macro/src/outputs/actor/spawning_function.rs:108-122 | the loop computes RunLoop on the actor's whole record, for every schedule of arrivals, ready branches and handler calls |
| EventLoop.PassIsRun | shakespeare-macro/src/outputs/actor/spawning_function.rs:108-122 | from every reachable state, with any events of the rest of the system around it, a pass is a valid sequence of the runtime's events that ends with the record Pass computes |
| EventLoop.LoopIsRun | shakespeare-macro/src/outputs/actor/spawning_function.rs:108-122 | the same for any number of passes and RunLoop |
| EventLoop.CallIsRun | shakespeare-macro/src/outputs/performance/dispatch_core_fn.rs:47-58 | the same for one handler call with everything that happens during it, and its reply |
| EventLoop.StoppedLoopBreaks | src/core/context.rs:41-43 | with nothing arriving, a stopped loop handles exactly what was queued and breaks through `else` |
| EventLoop.Context.RunningIs | src/core/context.rs:30-32 | is_running of the object is that of the actor it stands for |
| EventLoop.Context.GetShell | src/core/context.rs:36-38 | performs the runtime's GetShell on the actors the shells stand for; unless stop was called, is_running holds afterwards |
| EventLoop.Context.Stop | src/core/context.rs:41-43 | performs the runtime's StopCalled; is_running is false whatever handles there are |
| Worlds.Channel.Send | src/tokio.rs:9-11 | appended at the end iff the receiver is open |
| Worlds.Channel.Receive | src/tokio.rs:15-17 | performs the runtime's Received: the parcel is that of the message the runtime takes, its return path the message's own |
| Worlds.Start | shakespeare-macro/src/outputs/actor/spawning_function.rs:98-102 | performs the runtime's Start: afterwards the world with the new shell, its channels and its two handles stands for the next state |
| Worlds.Close | shakespeare-macro/src/outputs/actor/spawning_function.rs:137-143 | performs the runtime's HookReturned: every receiver of the actor closes |
| Worlds.DropOldest | src/core/returnval.rs:207-214 | performs the runtime's QueueDropped: a dropped parcel breaks its own caller's reply channel, or releases its recipient |
| Worlds.EndTask | shakespeare-macro/src/outputs/actor/spawning_function.rs:99-104 | performs the runtime's TaskEnded: the Context's handle goes with the task |
| Worlds.DropInPanic | src/core/returnval.rs:210-214 | performs the runtime's Panics: the parcel of the panicking handler breaks its caller's reply channel, or releases its recipient |
| Worlds.CloneHandle | src/core/context.rs:30-32 | performs the runtime's CloneHandle |
| Worlds.DropHandle | src/core/context.rs:30-32 | performs the runtime's DropHandle |
| Envelopes.SendReturn | src/core/returnval.rs:44-54 | performs the runtime's Replied for each path: counts and mailboxes of every actor, and the reply channel of every awaited message, are those of the next state |
| Envelopes.Envelope.Unpack | src/core/returnval.rs:92-96 | both takes succeed on a valid Envelope and invalidate it |
| Envelopes.Envelope.constructor | src/core/returnval.rs:84-90 | performs the runtime's Call: the Envelope holds the new message and a handle of its own |
| Worlds.Shell.EnqueueAndDrop | src/core/returnval.rs:109-113 | performs the runtime's Submit, on every actor: accepted iff the receivers are open, a refused parcel releases what it owns |
| Envelopes.Envelope.IgnoreReturn | src/core/returnval.rs:104-114 | performs the runtime's PollSend: Ok iff the message is then queued |
| Envelopes.Envelope.ForwardTo | src/core/returnval.rs:129-155 | performs the runtime's ForwardTo and then its PollSend, the recipient's count included: Ok iff the message is then queued |
| Envelopes.Envelope.IntoFuture | src/core/returnval.rs:167-185 | performs the runtime's IntoFuture: the caster awaits the message with a fresh reply channel; nothing is sent |
| Envelopes.Envelope.Drop | src/core/returnval.rs:192-197 | performs the runtime's DropEnvelope: the helper task it leaves is one that runs the message from that state |
| Envelopes.ReturnCaster.Poll | src/core/returnval.rs:275-295 | performs the runtime's PollCaster: the parcel sent carries this caster's own reply channel; same counts, mailboxes and caster, same answer |
| Envelopes.ReturnCaster.Drop | src/core/returnval.rs:177-185 | performs the runtime's DropCaster: before the first poll the parcel and its handle go, afterwards nothing |
| Envelopes.StillAwaits | src/core/returnval.rs:286-294 | whatever the rest of the system does between two polls, the second is again the runtime's, on the same reply channel |
| Envelopes.AwaitedCall | src/core/returnval.rs:167-185 | the whole way over the objects: await, first poll sends, the loop receives, the dispatcher sends v along the parcel's path, and the next poll yields Ok(v) |
| Envelopes.PollRefines | src/core/returnval.rs:275-295 | in every reachable state CasterAfterPoll is what the runtime's poll event does |
| Envelopes.SpawnHelper | src/sendable.rs:19-24 | performs the runtime's SendWhenReady: the helper has the message's destination, role and payload, and user code's handle |
| Envelopes.SendWhenReady | src/sendable.rs:24-32 | performs the runtime's HelperSends |
| Envelopes.HelperPanics | src/sendable.rs:24-26 | performs the runtime's HelperDies |
| Envelopes.BeginFeed | src/sendable.rs:45-51 | performs the runtime's FeedTo: a live feeder of that actor and role with user code's handle |
| Envelopes.FeedOne | src/sendable.rs:53-61 | performs the runtime's FeedItem |
| Envelopes.FeedTo | src/sendable.rs:51-63 | the whole task is a run of the runtime: an item event each, up to the first one refused, else FeedEnds; the mailbox gets the stream in order up to there, and the handle is released |
| ChatServer.ServerState.SendToAll | examples/chat.rs:161-189 | one send to each user, each outcome recorded being the answer to that send; `dead` is exactly those whose answer was a failure |
| ChatServer.ServerState.Broadcast | examples/chat.rs:161-195 | terminates for every pattern of answers; the users left are exactly those no send failed to, each other announced as gone once |
| Chat.AnswersDecide | examples/chat.rs:186-193 | a user is removed by a sweep iff the answer to one of the sends made to it was a failure |
| ChatServer.ServerState.RemoveClient | examples/chat.rs:199-205 | nothing for an absent client; otherwise a complete sweep without it, begun by its departure |
| ChatServer.ServerState.SendMsg | examples/chat.rs:212-215 | keeps the server's history in order; the line is the first thing broadcast |
| ChatServer.ServerState.ClientLeaves | examples/chat.rs:219-224 | for every id: afterwards it is of no user, and if it ever was announced, its departure was announced exactly once |
| ChatServer.ServerState.Next | examples/chat.rs:99-103 | a leave request taken out of the mailbox is of a client whose arrival was announced, though it may have come in while that client was being set up |
| ChatServer.ServerState.Listen | examples/chat.rs:234-249 | the id was never announced before; the client is found under it, no other user changes, and everyone including it is told; leave requests may arrive between its start and its insert |
| ChatServer.ServerState.Step | examples/chat.rs:208-250 | while anything waits in either mailbox, a step of the server serves exactly one thing |
| ChatServer.ServerState.Serve | examples/chat.rs:208-250 | any run serves both mailboxes in order and loses nothing; every line taken out was broadcast, every client joined under its own id, every leave request came after its client's arrival and left it gone and announced once; nobody gone is a user again |
| Chat.SweepCost | examples/chat.rs:177-204 | n users of which r end up removed: r + 1 broadcasts and 2 * sends == (r + 1)(2n - r) |
| Chat.RoundSize | examples/chat.rs:177-189 | the k-th broadcast of a sweep (from 0) makes exactly n - k sends |
| Chat.SweepConcat | examples/chat.rs:190-194 | a nested removal of a client still present continues the sweep, each departure announced once |
| Chat.SurvivorsFailedNothing | examples/chat.rs:186-193 | a user remains iff it was there and no send to it failed |
| Chat.HistorySweep | examples/chat.rs:199-224 | a sweep keeps: one join each, one leave iff joined and gone, joins first |
| Chat.HistoryJoin | examples/chat.rs:240-248 | an arrival with an unused id keeps the same |
| Chat.GoneForGood | examples/chat.rs:199-205 | a client announced as gone is never a user again, and is announced no second time |
| Signatures.RemovalIdempotent | shakespeare-macro/src/data/signature_ext.rs:20-38 | removing the context twice is removing it once iff there are not two leading non-static references |
| Signatures.InterfaceAsWritten | shakespeare-macro/src/interfacerewriter.rs:18-42 | for `[async] fn f([mut] self, [context,] params) [-> T]` as written, trait method and shell method are both `fn f(&self, params) -> Envelope<T or ()>` |
| Signatures.TraitMatchesShell | shakespeare-macro/src/interfacerewriter.rs:22-42 | the trait method (context removed twice) is the shell's (removed once) iff the same condition holds |
| Signatures.Signature.RemoveContextParam | shakespeare-macro/src/data/signature_ext.rs:32-38 | the in-place removal is the one that ArgumentIsPassed and ContextIsInserted describe |
| Signatures.Signature.FoldSignature | shakespeare-macro/src/interfacerewriter.rs:18-42 | the in-place rewriting gives the trait method's signature |
| Signatures.StripAll | shakespeare-macro/src/declarations/role.rs:20-24 | every signature of the role loses its context, and nothing else |
| MacroProofs.Sends | shakespeare-macro/src/outputs/performance/actor_role_perf.rs:56-84 | the generated method sends the method's own variant with exactly its arguments, in order |
| MacroProofs.Dispatches | shakespeare-macro/src/outputs/performance/dispatch_core_fn.rs:47-95 | a payload of a method runs that method, the context inserted iff declared, and returns its value in its variant |
| MacroProofs.EvaluatesCall | shakespeare-macro/src/data/signature_ext.rs:58-74 | the names bound by the payload pattern and used by the call pattern give the arguments in order |
| MacroProofs.ShellCallIsDirectCall | shakespeare-macro/src/outputs/performance/actor_role_perf.rs:75-84 | calling the shell's method, dispatching and converting the reply is calling the method directly: same state, same result |
| MacroProofs.ArgumentIsPassed | shakespeare-macro/src/data/signature_ext.rs:20-30 | a second parameter written as a 'static borrow or no borrow is sent by the shell, is a field of the variant, and is handed to the method first |
| MacroProofs.ContextIsInserted | shakespeare-macro/src/data/signature_ext.rs:20-38 | a second parameter written as any other borrow is not sent; the method gets the context, then the arguments |
| MacroProofs.NothingIsPassed | shakespeare-macro/src/data/signature_ext.rs:58-74 | a method of its receiver alone is called with nothing |
| MacroProofs.ResultAsWritten | shakespeare-macro/src/data/signature_ext.rs:40-46 | the Envelope's result is the written return type, or unit, and a reply converts to it and no other |
| MacroProofs.RoleFitsPerformance | shakespeare-macro/src/outputs/role/payload_enum.rs:70-76 | the role's variants have the names, field counts and types the performance's senders and arms use |
| MacroProofs.EmitsGroups | shakespeare-macro/src/outputs/role/payload_enum.rs:113-135 | the group of a return type holds exactly the variants of the methods returning it |
| MacroProofs.EmitsExactly | shakespeare-macro/src/outputs/role/payload_enum.rs:137-161 | converting a method's reply yields its value for its own return type, and reaches the `unimplemented!` arm for every other |
| MacroProofs.AcceptsExactly | shakespeare-macro/src/outputs/role/payload_enum.rs:33-51 | there is an Accepts impl for a parameter list iff it is non-empty and exactly one method has it, and it makes that method's variant |
| MacroProofs.AcceptedValueRuns | shakespeare-macro/src/outputs/role/payload_enum.rs:53-68 | a value sent through Accepts runs the one method that takes it, with it as arguments |

## Left out

- Lifetime.WatchdogBound: the bound in time assumes that time does not pass while the actor's timer branch is ready; without that only the order of events is bounded.
- Drain.StopDrains: a handler need not terminate, so the loop's end after `stop` is stated as a bound on its own steps and their availability, not as a bound in time.
- Deadlock.LoopCanGoOn: waiting of a handler for anything other than a reply (files, sockets, timers) is not modelled as blocking.
- Envelopes.FeedTo: nothing but the closing of the receivers happens between two items here; with anything in between, its turns are `Envelopes.FeedOne`, and what holds of them over every run is `Forwarding.StreamPrefix`.
- Envelopes.AwaitedCall: the actor waits with an empty mailbox and nothing happens in between; any other order is covered by the contracts of the single methods and `Envelopes.StillAwaits`.
- EventLoop.EventLoop.Run: what other tasks do during a handler call is summed up by its effect on the actor's record; which events it consists of is in `EventLoop.CallIsRun`.
- EventLoop.LoopIsRun: one direction only, because the runtime has more runs: it also lets other tasks act between a reply and the next reading of the guards, where the loop does not await.
- ChatServer.ServerState.Listen: the id counter is unbounded; its wrap-around after 2^64 clients is not modelled.
- MacroProofs.AcceptsExactly: types are compared as written, over parameter lists; a single tuple parameter coinciding with a longer list is not modelled.
- Reordering between the guards of one `select!` entry and other threads: guards are read in one step.
- Panics inside `stop` and `catch`, the abort of an actor's task, and runtime shutdown.
- The internals of tokio: channels, one-shot channels, timers, task scheduling and join handles are the axioms of the model.
- Token syntax, spans, attributes, documentation text and case conversion in the macros; only distinctness of the names is used.
- Rust's type checking, object safety and lifetimes beyond "static or not".
- Sockets, codecs, printing and `main` of the chat example, and its client actor; sends to clients have arbitrary outcomes.
- `xtask`, the tests, `Debug` and `PartialEq` impls, and the sorting of items into an actor declaration: they would only add easy members.
