/** The actor runtime as a transition system: events, when each may happen, and what it does. */
module Runtime {
  import opened Types
  import opened ActorSteps

  /** What user code does with handles. */
  datatype HandleEvent =
    | Start(a: ActorId, roles: set<RoleId>, init: UserState)
    | CloneHandle(a: ActorId)
    | DropHandle(a: ActorId)
    | Call(a: ActorId, r: RoleId, m: MsgId, data: Data)          // a shell method makes an Envelope
    | SendWhenReady(a: ActorId, r: RoleId, m: MsgId, data: Data) // data: what the future will yield
    | FeedTo(f: FeederId, a: ActorId, r: RoleId)

  /** What user code does with an Envelope and with the futures made from it. */
  datatype EnvelopeEvent =
    | IntoFuture(m: MsgId)                                       // `.await` makes a ReturnCaster
    | ForwardTo(m: MsgId, b: ActorId, br: RoleId)                // forward_to(recipient), unpolled
    | PollSend(m: MsgId)                                         // ignore_return or forward_to
    | DropEnvelope(m: MsgId)
    | PollCaster(m: MsgId)
    | DropCaster(m: MsgId)

  /** What the spawned helper tasks do. */
  datatype TaskEvent =
    | HelperSends(m: MsgId)
    | HelperDies(m: MsgId)
    | FeedItem(f: FeederId, m: MsgId, data: Data)
    | FeedEnds(f: FeederId)

  /** What a running handler does to its own actor, and its completion. */
  datatype HandlerEvent =
    | GetShell                                                   // Context::get_shell
    | StopCalled                                                 // Context::stop
    | Awaits(m: MsgId)                                           // blocks on a reply
    | Resumes
    | Returned(st: UserState, v: Value)
    | Panics(st: UserState)
    | Replied(n: MsgId)                                          // n: id of a forwarded message

  /** What the event loop itself does. */
  datatype LoopEvent =
    | FirstPolled
    | ReadGuards
    | Received(r: RoleId)
    | ReceivedNone(r: RoleId)
    | TimerFired
    | HookReturned                                               // stop or catch is over
    | QueueDropped(r: RoleId)
    | TaskEnded

  datatype Event =
    | Tick
    | Handle(u: HandleEvent)
    | Envelope(v: EnvelopeEvent)
    | Task(t: TaskEvent)
    | Handler(a: ActorId, h: HandlerEvent)
    | Loop(a: ActorId, l: LoopEvent)

  predicate Exists(s: System, a: ActorId, r: RoleId) {
    a in s.actors && r in s.actors[a].lanes
  }

  predicate HasHandle(s: System, a: ActorId) {
    a in s.actors && s.actors[a].external > 0
  }

  /** A message's own parts refer to existing mailboxes. */
  predicate Rooted(s: System, m: MsgId) {
    m in s.msgs
    && Exists(s, s.msgs[m].to, s.msgs[m].role)
    && (s.msgs[m].path.Mailbox? ==> Exists(s, s.msgs[m].path.to, s.msgs[m].path.role))
  }

  /** A caster that has not yet yielded and was not dropped. */
  predicate Pollable(s: System, m: MsgId) {
    Rooted(s, m) && (s.msgs[m].caster.Unsent? || s.msgs[m].caster.Waiting?)
  }

  predicate At(s: System, m: MsgId, stage: Stage) {
    Rooted(s, m) && s.msgs[m].stage == stage
  }

  predicate HandleEnabled(s: System, u: HandleEvent) {
    match u
    case Start(a, roles, _) => a !in s.actors && roles != {}
    case CloneHandle(a) => HasHandle(s, a)
    case DropHandle(a) => HasHandle(s, a)
    case Call(a, r, m, _) => HasHandle(s, a) && Exists(s, a, r) && m !in s.msgs
    case SendWhenReady(a, r, m, _) => HasHandle(s, a) && Exists(s, a, r) && m !in s.msgs
    case FeedTo(f, a, r) => HasHandle(s, a) && Exists(s, a, r) && f !in s.feeders
  }

  predicate EnvelopeEnabled(s: System, v: EnvelopeEvent) {
    match v
    case IntoFuture(m) => At(s, m, Held) && s.msgs[m].path.Discard?
    case ForwardTo(m, b, br) =>
      At(s, m, Held) && s.msgs[m].path.Discard? && HasHandle(s, b) && Exists(s, b, br)
    case PollSend(m) => At(s, m, Held)
    case DropEnvelope(m) => At(s, m, Held)
    case PollCaster(m) => Pollable(s, m)
    case DropCaster(m) => Pollable(s, m) && forall a <- s.actors :: s.actors[a].awaiting != Some(m)
  }

  predicate TaskEnabled(s: System, t: TaskEvent) {
    match t
    case HelperSends(m) => Rooted(s, m) && s.msgs[m].stage.Spawned?
    case HelperDies(m) => At(s, m, Spawned(false))
    case FeedItem(f, m, _) =>
      f in s.feeders && s.feeders[f].live && m !in s.msgs && Exists(s, s.feeders[f].to, s.feeders[f].role)
    case FeedEnds(f) => f in s.feeders && s.feeders[f].live && s.feeders[f].to in s.actors
  }

  predicate HandlerEnabled(s: System, a: ActorId, h: HandlerEvent) {
    a in s.actors
    && var x := s.actors[a];
    match h
    case GetShell => HandlerFree(x)
    case StopCalled => HandlerFree(x)
    case Awaits(m) => HandlerFree(x) && Pollable(s, m) && forall b <- s.actors :: s.actors[b].awaiting != Some(m)
    case Resumes =>
      x.awaiting.Some? && x.awaiting.value in s.msgs && s.msgs[x.awaiting.value].caster.Resolved?
    case Returned(_, _) => HandlerFree(x)
    case Panics(_) => HandlerFree(x) && Rooted(s, x.phase.msg)
    case Replied(n) => x.phase.Replying? && Rooted(s, x.phase.msg) && n !in s.msgs
  }

  predicate LoopEnabled(s: System, a: ActorId, l: LoopEvent) {
    a in s.actors
    && var x := s.actors[a];
    match l
    case FirstPolled => x.phase.Starting?
    case ReadGuards => x.phase.LoopTop?
    case Received(r) => ReceiveEnabled(x, r) && Rooted(s, x.lanes[r].queue[0])
    case ReceivedNone(r) => ReceiveNoneEnabled(x, r)
    case TimerFired => TimerEnabled(x, s.now)
    case HookReturned => x.phase.Finalizing?
    case QueueDropped(r) => DropFrontEnabled(x, r) && Rooted(s, x.lanes[r].queue[0])
    case TaskEnded => x.phase.Closing? && AllEmpty(x)
  }

  predicate Enabled(s: System, e: Event) {
    match e
    case Tick => true
    case Handle(u) => HandleEnabled(s, u)
    case Envelope(v) => EnvelopeEnabled(s, v)
    case Task(t) => TaskEnabled(s, t)
    case Handler(a, h) => HandlerEnabled(s, a, h)
    case Loop(a, l) => LoopEnabled(s, a, l)
  }

  // ---- the primitive updates every event is made of ----

  function SetActor(s: System, a: ActorId, x: Actor): System {
    s.(actors := s.actors[a := x])
  }

  function SetMsg(s: System, m: MsgId, g: Msg): System {
    s.(msgs := s.msgs[m := g])
  }

  function SetFeeder(s: System, f: FeederId, d: Feeder): System {
    s.(feeders := s.feeders[f := d])
  }

  /** Arc clone (+1) or drop (-1). */
  function Count(s: System, a: ActorId, d: int): System
    requires a in s.actors
  {
    SetActor(s, a, s.actors[a].(strong := s.actors[a].strong + d))
  }

  /** User code gains a handle. */
  function GainHandle(s: System, a: ActorId): System
    requires a in s.actors
  {
    var x := s.actors[a];
    SetActor(s, a, x.(strong := x.strong + 1, external := x.external + 1))
  }

  /** User code drops a handle. */
  function LoseHandle(s: System, a: ActorId): System
    requires HasHandle(s, a)
  {
    var x := s.actors[a];
    SetActor(s, a, x.(strong := x.strong - 1, external := x.external - 1))
  }

  /** User code moves a handle into a future or task. */
  function MoveHandle(s: System, a: ActorId): System
    requires HasHandle(s, a)
  {
    SetActor(s, a, s.actors[a].(external := s.actors[a].external - 1))
  }

  function NewMsg(a: ActorId, r: RoleId, p: Payload, stage: Stage, origin: Option<MsgId>): Msg {
    Msg(a, r, p, Discard, stage, NoCaster, NoCell, origin, None)
  }

  /** Drops the closure of a Mailbox return path, if that is what message m has. */
  function ReleaseRecipient(s: System, path: Path): System
    requires path.Mailbox? ==> path.to in s.actors
  {
    if path.Mailbox? then Count(s, path.to, -1) else s
  }

  /** enqueue, after which the sender's own handle of the destination is dropped. */
  function Submit(s: System, m: MsgId): System
    requires Rooted(s, m)
  {
    var g := s.msgs[m];
    var x := s.actors[g.to];
    if Accepting(x) then
      var caster := if g.caster.Unsent? then Waiting else g.caster;
      Count(SetMsg(SetActor(s, g.to, Push(x, g.role, m)), m, g.(stage := Queued, caster := caster)), g.to, -1)
    else
      var caster := if g.caster.Unsent? then Resolved(SendingError) else g.caster;
      ReleaseRecipient(Count(SetMsg(s, m, g.(stage := Refused, caster := caster)), g.to, -1), g.path)
  }

  /** An accepted message is destroyed: its reply sender or closure is dropped with it. */
  function Destroy(s: System, m: MsgId, stage: Stage): System
    requires Rooted(s, m)
  {
    var g := s.msgs[m];
    var cell := if g.path.Immediate? then Broken else g.cell;
    ReleaseRecipient(SetMsg(s, m, g.(stage := stage, cell := cell)), g.path)
  }

  /** A second or later poll of a caster reads the reply cell. */
  function ReadCell(cell: Cell, caster: Caster): Caster {
    match cell
    case Filled(v) => Resolved(Ok(v))
    case Broken => Resolved(Hangup)
    case _ => caster
  }

  /** ReturnPath::send */
  function SendReply(s: System, m: MsgId, v: Value, n: MsgId): System
    requires Rooted(s, m) && n !in s.msgs
  {
    var g := s.msgs[m];
    match g.path
    case Discard => SetMsg(s, m, g.(stage := Handled(v)))
    case Immediate => SetMsg(s, m, g.(stage := Handled(v), cell := Filled(v)))
    case Mailbox(b, br) =>
      // The closure's handle becomes the sending task's handle of its recipient.
      var s' := SetMsg(s, m, g.(stage := Handled(v), child := Some(n)));
      Submit(SetMsg(s', n, NewMsg(b, br, Converted(v), Spawned(true), Some(m))), n)
  }

  /** One turn of the feed_to loop; the feeder keeps its own handle unless the send is refused. */
  function Feed(s: System, f: FeederId, m: MsgId, p: Payload): System
    requires f in s.feeders && m !in s.msgs && Exists(s, s.feeders[f].to, s.feeders[f].role)
  {
    var d := s.feeders[f];
    var x := s.actors[d.to];
    var s' := Submit(Count(SetMsg(s, m, NewMsg(d.to, d.role, p, Spawned(true), None)), d.to, 1), m);
    if Accepting(x) then
      SetFeeder(s', f, d.(pulled := d.pulled + [p], sent := d.sent + [m],
                          positions := d.positions + [|x.lanes[d.role].enqueued|]))
    else
      SetFeeder(Count(s', d.to, -1), f, d.(pulled := d.pulled + [p], live := false, broke := true))
  }

  function ApplyHandle(s: System, u: HandleEvent): System
    requires HandleEnabled(s, u)
  {
    match u
    case Start(a, roles, init) => SetActor(s, a, NewActor(roles, init))
    case CloneHandle(a) => GainHandle(s, a)
    case DropHandle(a) => LoseHandle(s, a)
    case Call(a, r, m, data) => Count(SetMsg(s, m, NewMsg(a, r, Arguments(data), Held, None)), a, 1)
    case SendWhenReady(a, r, m, data) =>
      SetMsg(MoveHandle(s, a), m, NewMsg(a, r, Arguments(data), Spawned(false), None))
    case FeedTo(f, a, r) => SetFeeder(MoveHandle(s, a), f, Feeder(a, r, true, false, [], [], []))
  }

  function ApplyEnvelope(s: System, v: EnvelopeEvent): System
    requires EnvelopeEnabled(s, v)
  {
    match v
    case IntoFuture(m) =>
      SetMsg(s, m, s.msgs[m].(stage := Casting, path := Immediate, caster := Unsent, cell := Open))
    case ForwardTo(m, b, br) => SetMsg(MoveHandle(s, b), m, s.msgs[m].(path := Mailbox(b, br)))
    case PollSend(m) => Submit(s, m)
    case DropEnvelope(m) =>
      ReleaseRecipient(SetMsg(s, m, s.msgs[m].(stage := Spawned(true), path := Discard)), s.msgs[m].path)
    case PollCaster(m) =>
      if s.msgs[m].caster.Unsent? then Submit(s, m)
      else SetMsg(s, m, s.msgs[m].(caster := ReadCell(s.msgs[m].cell, s.msgs[m].caster)))
    case DropCaster(m) =>
      var g := s.msgs[m];
      if g.caster.Unsent? then Count(SetMsg(s, m, g.(stage := Abandoned, caster := Dropped)), g.to, -1)
      else SetMsg(s, m, g.(caster := Dropped))
  }

  function ApplyTask(s: System, t: TaskEvent): System
    requires TaskEnabled(s, t)
  {
    match t
    case HelperSends(m) => Submit(s, m)
    case HelperDies(m) => Count(SetMsg(s, m, s.msgs[m].(stage := Abandoned)), s.msgs[m].to, -1)
    case FeedItem(f, m, data) => Feed(s, f, m, Arguments(data))
    case FeedEnds(f) => SetFeeder(Count(s, s.feeders[f].to, -1), f, s.feeders[f].(live := false))
  }

  function ApplyHandler(s: System, a: ActorId, h: HandlerEvent): System
    requires HandlerEnabled(s, a, h)
  {
    var x := s.actors[a];
    match h
    case GetShell => GainHandle(s, a)
    case StopCalled => SetActor(s, a, x.(running := false))
    case Awaits(m) => SetActor(s, a, x.(awaiting := Some(m)))
    case Resumes => SetActor(s, a, x.(awaiting := None))
    case Returned(st, v) => SetActor(s, a, Return(x, st, v))
    case Panics(st) => Destroy(SetActor(s, a, Crash(x, st)), x.phase.msg, Crashed)
    case Replied(n) => SendReply(SetActor(s, a, x.(phase := LoopTop)), x.phase.msg, x.phase.value, n)
  }

  function ApplyLoop(s: System, a: ActorId, l: LoopEvent): System
    requires LoopEnabled(s, a, l)
  {
    var x := s.actors[a];
    match l
    case FirstPolled => SetActor(s, a, FirstPoll(x, s.now))
    case ReadGuards => SetActor(s, a, Guards(x))
    case Received(r) =>
      var m := x.lanes[r].queue[0];
      SetMsg(SetActor(s, a, Receive(x, r, s.now)), m, s.msgs[m].(stage := InHandler))
    case ReceivedNone(r) => SetActor(s, a, ReceiveNone(x, r))
    case TimerFired => SetActor(s, a, Timer(x, s.now))
    case HookReturned => SetActor(s, a, x.(phase := Closing(x.phase.exit)))
    case QueueDropped(r) => Destroy(SetActor(s, a, DropFront(x, r)), x.lanes[r].queue[0], Discarded)
    case TaskEnded => Count(SetActor(s, a, x.(phase := Dead(x.phase.exit))), a, -1)
  }

  function Apply(s: System, e: Event): System
    requires Enabled(s, e)
  {
    match e
    case Tick => s.(now := s.now + 1)
    case Handle(u) => ApplyHandle(s, u)
    case Envelope(v) => ApplyEnvelope(s, v)
    case Task(t) => ApplyTask(s, t)
    case Handler(a, h) => ApplyHandler(s, a, h)
    case Loop(a, l) => ApplyLoop(s, a, l)
  }

  // ---- runs ----

  predicate Valid(s: System, es: seq<Event>)
    decreases |es|
  {
    es == [] || (Enabled(s, es[0]) && Valid(Apply(s, es[0]), es[1..]))
  }

  function Final(s: System, es: seq<Event>): System
    requires Valid(s, es)
    decreases |es|
  {
    if es == [] then s else Final(Apply(s, es[0]), es[1..])
  }

  /** Before anything is started. */
  predicate Initial(s: System) {
    s.actors == map[] && s.msgs == map[] && s.feeders == map[]
  }
}
