/** The values the actor runtime moves about: messages, mailboxes, actors and their helper tasks. */
module Types {
  type ActorId = nat
  type RoleId = nat
  type MsgId = nat
  type FeederId = nat

  /** The arguments, results and states of user code are opaque to the runtime. */
  type Data(==, !new)
  type Value(==, !new)
  type UserState(==, !new)

  /** Watchdog period in milliseconds. */
  const IDLE_TIMEOUT: nat := 1000

  datatype Option<+T> = None | Some(value: T)

  /** What is put in a mailbox: a call's arguments, or a forwarded return value. */
  datatype Payload = Arguments(data: Data) | Converted(value: Value)

  /** Where a handler's return value goes. A `Mailbox` closure owns a handle of its recipient. */
  datatype Path = Discard | Immediate | Mailbox(to: ActorId, role: RoleId)

  /** Where a message is. `Held`, `Casting` and `Spawned` own a handle of the destination. */
  datatype Stage =
    | Held                    // in an Envelope, or in an unpolled ignore_return/forward_to future
    | Casting                 // unpacked, in the send future of an unpolled ReturnCaster
    | Spawned(ready: bool)    // in a send_when_ready task; `ready` for a dropped Envelope
    | Queued
    | InHandler
    | Handled(value: Value)   // the handler completed and the return path was run
    | Refused                 // enqueue failed
    | Discarded               // still queued when the receivers were dropped
    | Crashed                 // its handler panicked
    | Abandoned               // never sent: caster dropped unpolled, or its future panicked
  {
    predicate OwnsDestination() {
      Held? || Casting? || Spawned?
    }

    predicate Accepted() {
      Queued? || InHandler? || Handled? || Discarded? || Crashed?
    }
  }

  /** The one-shot reply channel. */
  datatype Cell = NoCell | Open | Filled(value: Value) | Broken

  datatype Reply = Ok(value: Value) | SendingError | Hangup

  datatype Caster = NoCaster | Unsent | Waiting | Resolved(reply: Reply) | Dropped

  datatype Msg = Msg(
    to: ActorId, role: RoleId, payload: Payload, path: Path, stage: Stage,
    caster: Caster, cell: Cell, origin: Option<MsgId>, child: Option<MsgId>)

  datatype Exit = Drained | TimedOut | Panicked

  datatype Phase =
    | Starting                                        // the task is spawned but not yet polled
    | LoopTop                                         // about to enter select!
    | Select(enabled: set<RoleId>, timer: bool)       // polling, with the guards read at entry
    | Handling(msg: MsgId)
    | Replying(msg: MsgId, value: Value)              // handler done, return path not yet run
    | Finalizing(exit: Exit)                          // in stop or catch
    | Closing(exit: Exit)                             // receivers closed, queued messages being dropped
    | Dead(exit: Exit)
  {
    predicate InLoop() {
      LoopTop? || Select? || Handling? || Replying?
    }

    predicate Ended() {
      Closing? || Dead?
    }

    function Current(): Option<MsgId> {
      if Handling? || Replying? then Some(msg) else None
    }
  }

  /** One mailbox. Only `queue` exists at run time; the rest is its history. */
  datatype Lane = Lane(queue: seq<MsgId>, enqueued: seq<MsgId>, began: seq<MsgId>, dropped: seq<MsgId>)

  /** A completed handler call. */
  datatype Done = Done(msg: MsgId, before: UserState, after: UserState, value: Value)

  /** A handler call that panicked. */
  datatype Fault = Fault(before: UserState, after: UserState)

  /** An actor. `external` counts the handles user code holds; the fields from `initial` on are history. */
  datatype Actor = Actor(
    strong: int, external: nat, running: bool, phase: Phase, lanes: map<RoleId, Lane>, deadline: nat,
    state: UserState, awaiting: Option<MsgId>, initial: UserState, order: seq<(RoleId, MsgId)>, log: seq<Done>,
    fault: Option<Fault>)

  /** A feed_to task. `pulled`, `sent` and `positions` are history. */
  datatype Feeder = Feeder(
    to: ActorId, role: RoleId, live: bool, broke: bool,
    pulled: seq<Payload>, sent: seq<MsgId>, positions: seq<nat>)

  datatype System = System(
    now: nat, actors: map<ActorId, Actor>, msgs: map<MsgId, Msg>, feeders: map<FeederId, Feeder>)
}
