/** What each step of one actor's event loop does to that actor. */
module ActorSteps {
  import opened Types

  function NewActor(roles: set<RoleId>, init: UserState): Actor {
    // One handle is returned by `start`, the other is stored in the Context.
    Actor(2, 1, true, Starting, map r | r in roles :: Lane([], [], [], []), 0, init, None, init, [], [], None)
  }

  /** Context::is_running */
  predicate IsRunning(x: Actor) {
    x.strong > 1 && x.running
  }

  /** The receivers exist, so a send is accepted. */
  predicate Accepting(x: Actor) {
    !x.phase.Ended()
  }

  /** Context's share of the strong count. */
  function ContextShare(x: Actor): nat {
    if x.phase.Dead? then 0 else 1
  }

  predicate AllEmpty(x: Actor) {
    forall r <- x.lanes :: x.lanes[r].queue == []
  }

  /** The timer is created when the task is first polled. */
  function FirstPoll(x: Actor, now: nat): Actor {
    x.(phase := LoopTop, deadline := now + IDLE_TIMEOUT)
  }

  /** The receive guards, read at the entry of select!. */
  function EnabledRoles(x: Actor): set<RoleId> {
    set r | r in x.lanes && (x.lanes[r].queue != [] || IsRunning(x))
  }

  /** Reads every guard; with no branch enabled the `else` branch breaks the loop. */
  function Guards(x: Actor): Actor {
    if EnabledRoles(x) == {} && !IsRunning(x) then
      x.(phase := Finalizing(Drained))
    else
      x.(phase := Select(EnabledRoles(x), IsRunning(x)))
  }

  predicate ReceiveEnabled(x: Actor, r: RoleId) {
    x.phase.Select? && r in x.phase.enabled && r in x.lanes && x.lanes[r].queue != []
  }

  function Pop(l: Lane): Lane
    requires l.queue != []
  {
    l.(queue := l.queue[1..], began := l.began + [l.queue[0]])
  }

  function Receive(x: Actor, r: RoleId, now: nat): Actor
    requires ReceiveEnabled(x, r)
  {
    var m := x.lanes[r].queue[0];
    x.(lanes := x.lanes[r := Pop(x.lanes[r])], deadline := now + IDLE_TIMEOUT,
       phase := Handling(m), order := x.order + [(r, m)])
  }

  /** `recv` yields None once the queue is empty and every sender is gone. */
  predicate ReceiveNoneEnabled(x: Actor, r: RoleId) {
    x.phase.Select? && r in x.phase.enabled && r in x.lanes && x.lanes[r].queue == [] && x.strong <= 0
  }

  function ReceiveNone(x: Actor, r: RoleId): Actor
    requires ReceiveNoneEnabled(x, r)
  {
    var enabled := x.phase.enabled - {r};
    if enabled == {} && !x.phase.timer then x.(phase := Finalizing(Drained))
    else x.(phase := Select(enabled, x.phase.timer))
  }

  predicate TimerEnabled(x: Actor, now: nat) {
    x.phase.Select? && x.phase.timer && now >= x.deadline
  }

  function Timer(x: Actor, now: nat): Actor {
    if !IsRunning(x) then x.(phase := Finalizing(TimedOut))
    else x.(phase := LoopTop, deadline := now + IDLE_TIMEOUT)
  }

  /** The handler may act only while it is not blocked on a reply. */
  predicate HandlerFree(x: Actor) {
    x.phase.Handling? && x.awaiting.None?
  }

  function Return(x: Actor, st: UserState, v: Value): Actor
    requires HandlerFree(x)
  {
    x.(phase := Replying(x.phase.msg, v), state := st, log := x.log + [Done(x.phase.msg, x.state, st, v)])
  }

  function Crash(x: Actor, st: UserState): Actor
    requires HandlerFree(x)
  {
    x.(phase := Finalizing(Panicked), state := st, fault := Some(Fault(x.state, st)))
  }

  function Push(x: Actor, r: RoleId, m: MsgId): Actor
    requires r in x.lanes
  {
    var l := x.lanes[r];
    x.(lanes := x.lanes[r := l.(queue := l.queue + [m], enqueued := l.enqueued + [m])])
  }

  predicate DropFrontEnabled(x: Actor, r: RoleId) {
    x.phase.Closing? && r in x.lanes && x.lanes[r].queue != []
  }

  /** A closed receiver drops its oldest message. */
  function DropFront(x: Actor, r: RoleId): Actor
    requires DropFrontEnabled(x, r)
  {
    var l := x.lanes[r];
    x.(lanes := x.lanes[r := l.(queue := l.queue[1..], dropped := l.dropped + [l.queue[0]])])
  }
}
