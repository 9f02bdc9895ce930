/** The shape of a step for one message: where it can go, and what never changes. */
module MessageShapes {
  import opened Types
  import opened ActorSteps
  import opened Runtime
  import opened Ownership
  import opened Invariants
  import opened MessageProofs

  /** What identifies a message never changes, nor does its path once it is out of its Envelope. */
  predicate SameMessage(g: Msg, g': Msg) {
    && g'.to == g.to && g'.role == g.role && g'.payload == g.payload && g'.origin == g.origin
    && (!g.stage.Held? ==> g'.path == g.path)
    && (g'.path.Mailbox? ==> g'.path == g.path)
  }

  /** The places a message can be in after one step of a message that owns its destination's handle. */
  predicate Leaves(p: Stage, q: Stage) {
    match p
    case Held => q.Held? || q.Casting? || q == Spawned(true) || q.Queued? || q.Refused?
    case Casting => q.Casting? || q.Queued? || q.Refused? || q.Abandoned?
    case Spawned(ready) => q == p || q.Queued? || q.Refused? || (q.Abandoned? && !ready)
    case _ => q == p
  }

  /** An unsent message may be sent, refused or abandoned; any other stays where it is. */
  predicate Moves(g: Msg, g': Msg) {
    SameMessage(g, g') && g'.child == g.child && Leaves(g.stage, g'.stage)
  }

  ghost predicate AllMove(s: System, t: System) {
    forall m <- s.msgs :: m in t.msgs && Moves(s.msgs[m], t.msgs[m])
  }

  /** A message that did not exist before the step. */
  predicate Fresh(g: Msg, origin: Option<MsgId>) {
    && g.child == None && g.path.Discard? && g.origin == origin
    && (g.stage.Held? || g.stage.Spawned? || g.stage.Queued? || g.stage.Refused?)
  }

  lemma SubmitMoves(s: System, m: MsgId)
    requires Rooted(s, m) && s.msgs[m].stage.OwnsDestination()
    ensures Submit(s, m).msgs.Keys == s.msgs.Keys && AllMove(s, Submit(s, m))
    ensures Submit(s, m).msgs[m].path == s.msgs[m].path
    ensures Submit(s, m).msgs[m].stage == if Accepting(s.actors[s.msgs[m].to]) then Queued else Refused
    ensures Submit(s, m).feeders == s.feeders && Submit(s, m).now == s.now
    ensures forall k <- s.msgs :: k != m ==> Submit(s, m).msgs[k] == s.msgs[k]
  {}

  lemma HandleMoves(s: System, u: HandleEvent)
    requires HandleEnabled(s, u)
    ensures AllMove(s, ApplyHandle(s, u)) && ApplyHandle(s, u).now == s.now
    ensures forall m <- ApplyHandle(s, u).msgs :: m !in s.msgs ==>
              Fresh(ApplyHandle(s, u).msgs[m], None) && !ApplyHandle(s, u).msgs[m].stage.Accepted()
  {}

  lemma EnvelopeMoves(s: System, v: EnvelopeEvent)
    requires EnvelopeEnabled(s, v) && MsgsOk(s)
    ensures !v.ForwardTo? ==> AllMove(s, ApplyEnvelope(s, v))
    ensures v.ForwardTo? ==> ApplyEnvelope(s, v).msgs == s.msgs[v.m := s.msgs[v.m].(path := Mailbox(v.b, v.br))]
    ensures ApplyEnvelope(s, v).msgs.Keys == s.msgs.Keys
    ensures ApplyEnvelope(s, v).feeders == s.feeders && ApplyEnvelope(s, v).now == s.now
  {
    match v
    case PollSend(m) => SubmitMoves(s, m);
    case PollCaster(m) => if s.msgs[m].caster.Unsent? { SubmitMoves(s, m); }
    case _ =>
  }

  lemma FeedMoves(s: System, f: FeederId, m: MsgId, p: Payload)
    requires f in s.feeders && m !in s.msgs && Exists(s, s.feeders[f].to, s.feeders[f].role)
    ensures AllMove(s, Feed(s, f, m, p)) && Feed(s, f, m, p).msgs.Keys == s.msgs.Keys + {m}
    ensures Fresh(Feed(s, f, m, p).msgs[m], None) && Feed(s, f, m, p).now == s.now
    ensures Feed(s, f, m, p).msgs[m].stage == if Accepting(s.actors[s.feeders[f].to]) then Queued else Refused
    ensures Feed(s, f, m, p).msgs[m].payload == p
  {
    var d := s.feeders[f];
    var s1 := Count(SetMsg(s, m, NewMsg(d.to, d.role, p, Spawned(true), None)), d.to, 1);
    assert AllMove(s, s1);
    SubmitMoves(s1, m);
  }

  lemma TaskMoves(s: System, t: TaskEvent)
    requires TaskEnabled(s, t)
    ensures AllMove(s, ApplyTask(s, t)) && ApplyTask(s, t).now == s.now
    ensures forall m <- ApplyTask(s, t).msgs :: m !in s.msgs ==> Fresh(ApplyTask(s, t).msgs[m], None)
  {
    match t
    case HelperSends(m) => SubmitMoves(s, m);
    case HelperDies(m) =>
    case FeedItem(f, m, data) => FeedMoves(s, f, m, Arguments(data));
    case FeedEnds(f) =>
  }

  /** The return path: only the answered message changes, and a forwarded result is sent once. */
  lemma ReplyMoves(s: System, m: MsgId, v: Value, n: MsgId)
    requires Rooted(s, m) && n !in s.msgs
    ensures var t := SendReply(s, m, v, n);
            && t.feeders == s.feeders && t.now == s.now
            && (forall k <- s.msgs :: k in t.msgs && (k != m ==> t.msgs[k] == s.msgs[k]))
            && t.msgs[m].stage == Handled(v) && SameMessage(s.msgs[m], t.msgs[m]) && t.msgs[m].path == s.msgs[m].path
            && (if s.msgs[m].path.Mailbox? then
                  t.msgs.Keys == s.msgs.Keys + {n} && t.msgs[m].child == Some(n)
                  && Fresh(t.msgs[n], Some(m)) && (t.msgs[n].stage.Queued? || t.msgs[n].stage.Refused?)
                  && t.msgs[n].payload == Converted(v)
                  && t.msgs[n].to == s.msgs[m].path.to && t.msgs[n].role == s.msgs[m].path.role
                else t.msgs.Keys == s.msgs.Keys && t.msgs[m].child == s.msgs[m].child)
  {
    var g := s.msgs[m];
    if g.path.Mailbox? {
      var s1 := SetMsg(s, m, g.(stage := Handled(v), child := Some(n)));
      SubmitMoves(SetMsg(s1, n, NewMsg(g.path.to, g.path.role, Converted(v), Spawned(true), Some(m))), n);
    }
  }

  lemma DestroyMoves(s: System, m: MsgId, stage: Stage)
    requires Rooted(s, m)
    ensures var t := Destroy(s, m, stage);
            && t.feeders == s.feeders && t.now == s.now && t.msgs.Keys == s.msgs.Keys
            && (forall k <- s.msgs :: k != m ==> t.msgs[k] == s.msgs[k])
            && SameMessage(s.msgs[m], t.msgs[m]) && t.msgs[m].path == s.msgs[m].path
            && t.msgs[m].stage == stage && t.msgs[m].child == s.msgs[m].child
  {}

  /** The one message a handler or loop event takes on, and where it puts it. */
  function Target(s: System, e: Event): Option<(MsgId, Stage)>
    requires Enabled(s, e)
  {
    match e
    case Handler(a, Panics(_)) => Some((s.actors[a].phase.msg, Crashed))
    case Handler(a, Replied(_)) => Some((s.actors[a].phase.msg, Handled(s.actors[a].phase.value)))
    case Loop(a, Received(r)) => Some((s.actors[a].lanes[r].queue[0], InHandler))
    case Loop(a, QueueDropped(r)) => Some((s.actors[a].lanes[r].queue[0], Discarded))
    case _ => None
  }

  /** How the event changes message m. */
  predicate MsgStep(s: System, e: Event, m: MsgId, g': Msg)
    requires Enabled(s, e) && m in s.msgs
  {
    var g := s.msgs[m];
    if Target(s, e).Some? && Target(s, e).value.0 == m then
      SameMessage(g, g') && g'.path == g.path && g'.stage == Target(s, e).value.1
      && (g'.child == g.child || (g.path.Mailbox? && g'.stage.Handled? && g'.child == Some(e.h.n)))
    else if e.Envelope? && e.v.ForwardTo? && e.v.m == m then
      g' == g.(path := Mailbox(e.v.b, e.v.br))
    else Moves(g, g')
  }

  lemma HandlerSteps(s: System, e: Event)
    requires Enabled(s, e) && e.Handler?
    ensures forall m <- s.msgs :: m in Apply(s, e).msgs && MsgStep(s, e, m, Apply(s, e).msgs[m])
    ensures Apply(s, e).now == s.now && Apply(s, e).feeders == s.feeders
    ensures !e.h.Replied? ==> Apply(s, e).msgs.Keys == s.msgs.Keys
  {
    var x := s.actors[e.a];
    match e.h
    case Panics(st) => DestroyMoves(SetActor(s, e.a, Crash(x, st)), x.phase.msg, Crashed);
    case Replied(n) => ReplyMoves(SetActor(s, e.a, x.(phase := LoopTop)), x.phase.msg, x.phase.value, n);
    case _ =>
  }

  lemma LoopSteps(s: System, e: Event)
    requires Enabled(s, e) && e.Loop?
    ensures forall m <- s.msgs :: m in Apply(s, e).msgs && MsgStep(s, e, m, Apply(s, e).msgs[m])
    ensures Apply(s, e).now == s.now && Apply(s, e).feeders == s.feeders
    ensures Apply(s, e).msgs.Keys == s.msgs.Keys
  {
    if e.l.QueueDropped? {
      DestroyMoves(SetActor(s, e.a, DropFront(s.actors[e.a], e.l.r)), s.actors[e.a].lanes[e.l.r].queue[0], Discarded);
    }
  }

  lemma MsgShape(s: System, e: Event, m: MsgId)
    requires Enabled(s, e) && MsgsOk(s) && m in s.msgs
    ensures m in Apply(s, e).msgs && MsgStep(s, e, m, Apply(s, e).msgs[m])
  {
    match e
    case Tick =>
    case Handle(u) => HandleMoves(s, u);
    case Envelope(v) => EnvelopeMoves(s, v);
    case Task(t) => TaskMoves(s, t);
    case Handler(a, h) => HandlerSteps(s, e);
    case Loop(a, l) => LoopSteps(s, e);
  }

  /** A new message: sent by a reply to a forwarded one, or made by user code or a task. */
  lemma NewShape(s: System, e: Event, n: MsgId)
    requires Enabled(s, e) && MsgsOk(s) && n in Apply(s, e).msgs && n !in s.msgs
    ensures if e.Handler? then
              e.h.Replied? && e.h.n == n && s.msgs[s.actors[e.a].phase.msg].path.Mailbox?
              && Fresh(Apply(s, e).msgs[n], Some(s.actors[e.a].phase.msg))
            else Fresh(Apply(s, e).msgs[n], None)
  {
    match e
    case Tick =>
    case Handle(u) => HandleMoves(s, u);
    case Envelope(v) => EnvelopeMoves(s, v);
    case Task(t) => TaskMoves(s, t);
    case Handler(a, h) =>
      HandlerSteps(s, e);
      var x := s.actors[a];
      ReplyMoves(SetActor(s, a, x.(phase := LoopTop)), x.phase.msg, x.phase.value, h.n);
    case Loop(a, l) => LoopSteps(s, e);
  }

  /** Time only runs forward, and only a tick moves it. */
  lemma TimeGrows(s: System, e: Event)
    requires Enabled(s, e) && MsgsOk(s)
    ensures Apply(s, e).now == s.now + if e.Tick? then 1 else 0
  {
    match e
    case Tick =>
    case Handle(u) => HandleMoves(s, u);
    case Envelope(v) => EnvelopeMoves(s, v);
    case Task(t) => TaskMoves(s, t);
    case Handler(a, h) => HandlerSteps(s, e);
    case Loop(a, l) => LoopSteps(s, e);
  }
}
