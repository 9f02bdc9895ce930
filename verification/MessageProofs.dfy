/** Every step keeps the parts of every message in agreement. */
module MessageProofs {
  import opened Types
  import opened ActorSteps
  import opened Runtime
  import opened Ownership
  import opened Invariants

  lemma SubmitKeepsMsgs(s: System, m: MsgId)
    requires MsgsOk(s) && Rooted(s, m) && s.msgs[m].stage.OwnsDestination()
    ensures MsgsOk(Submit(s, m))
  {}

  lemma DestroyKeepsMsgs(s: System, m: MsgId, stage: Stage)
    requires MsgsOk(s) && Rooted(s, m) && (s.msgs[m].stage.Queued? || s.msgs[m].stage.InHandler?)
    requires stage.Crashed? || stage.Discarded?
    ensures MsgsOk(Destroy(s, m, stage))
  {}

  lemma ReplyKeepsMsgs(s: System, m: MsgId, v: Value, n: MsgId)
    requires MsgsOk(s) && Rooted(s, m) && s.msgs[m].stage.InHandler? && n !in s.msgs
    ensures MsgsOk(SendReply(s, m, v, n))
  {
    var g := s.msgs[m];
    if g.path.Mailbox? {
      var s' := SetMsg(s, m, g.(stage := Handled(v), child := Some(n)));
      SubmitKeepsMsgs(SetMsg(s', n, NewMsg(g.path.to, g.path.role, Converted(v), Spawned(true), Some(m))), n);
    }
  }

  lemma FeedKeepsMsgs(s: System, f: FeederId, m: MsgId, p: Payload)
    requires MsgsOk(s) && f in s.feeders && m !in s.msgs && Exists(s, s.feeders[f].to, s.feeders[f].role)
    ensures MsgsOk(Feed(s, f, m, p))
  {
    var d := s.feeders[f];
    var g := NewMsg(d.to, d.role, p, Spawned(true), None);
    SubmitKeepsMsgs(Count(SetMsg(s, m, g), d.to, 1), m);
  }

  lemma HandleKeepsMsgs(s: System, u: HandleEvent)
    requires MsgsOk(s) && HandleEnabled(s, u)
    ensures MsgsOk(ApplyHandle(s, u))
  {}

  lemma EnvelopeKeepsMsgs(s: System, v: EnvelopeEvent)
    requires MsgsOk(s) && EnvelopeEnabled(s, v)
    ensures MsgsOk(ApplyEnvelope(s, v))
  {
    match v
    case PollSend(m) => SubmitKeepsMsgs(s, m);
    case PollCaster(m) => if s.msgs[m].caster.Unsent? { SubmitKeepsMsgs(s, m); }
    case _ =>
  }

  lemma TaskKeepsMsgs(s: System, t: TaskEvent)
    requires MsgsOk(s) && TaskEnabled(s, t)
    ensures MsgsOk(ApplyTask(s, t))
  {
    match t
    case HelperSends(m) => SubmitKeepsMsgs(s, m);
    case FeedItem(f, m, data) => FeedKeepsMsgs(s, f, m, Arguments(data));
    case _ =>
  }

  /** The handler that completes or panics is that of a message of this actor. */
  predicate ActsOnCurrent(s: System, a: ActorId, h: HandlerEvent)
    requires HandlerEnabled(s, a, h)
  {
    (h.Panics? || h.Replied?) ==>
      s.msgs[s.actors[a].phase.msg].stage.InHandler? && s.msgs[s.actors[a].phase.msg].to == a
  }

  lemma HandlerActsOnCurrent(s: System, a: ActorId, h: HandlerEvent)
    requires HandlersOk(s) && HandlerEnabled(s, a, h)
    ensures ActsOnCurrent(s, a, h)
  {}

  lemma HandlerKeepsMsgs(s: System, a: ActorId, h: HandlerEvent)
    requires MsgsOk(s) && HandlerEnabled(s, a, h) && ActsOnCurrent(s, a, h)
    ensures MsgsOk(ApplyHandler(s, a, h))
  {
    var x := s.actors[a];
    match h
    case Panics(st) => DestroyKeepsMsgs(SetActor(s, a, Crash(x, st)), x.phase.msg, Crashed);
    case Replied(n) => ReplyKeepsMsgs(SetActor(s, a, x.(phase := LoopTop)), x.phase.msg, x.phase.value, n);
    case _ =>
  }

  /** The oldest queued message is one of the mailbox's own. */
  lemma Front(s: System, a: ActorId, r: RoleId)
    requires LanesOk(s) && Exists(s, a, r) && s.actors[a].lanes[r].queue != []
    ensures var m := s.actors[a].lanes[r].queue[0];
            m in s.msgs && s.msgs[m].to == a && s.msgs[m].role == r && s.msgs[m].stage.Queued?
  {
    var l := s.actors[a].lanes[r];
    assert LaneOk(s, a, r, l);
    assert l.queue[0] == l.enqueued[|l.began| + |l.dropped|];
    assert l.queue[0] in l.enqueued;
  }

  /** A loop event that takes a message out of a mailbox takes a queued one of that mailbox. */
  predicate TakesQueued(s: System, a: ActorId, l: LoopEvent)
    requires LoopEnabled(s, a, l)
  {
    (l.Received? || l.QueueDropped?) ==>
      var m := s.actors[a].lanes[l.r].queue[0];
      s.msgs[m].stage.Queued? && s.msgs[m].to == a && s.msgs[m].role == l.r
  }

  lemma LoopTakesQueued(s: System, a: ActorId, l: LoopEvent)
    requires LanesOk(s) && LoopEnabled(s, a, l)
    ensures TakesQueued(s, a, l)
  {
    if l.Received? || l.QueueDropped? { Front(s, a, l.r); }
  }

  lemma LoopKeepsMsgs(s: System, a: ActorId, l: LoopEvent)
    requires MsgsOk(s) && LoopEnabled(s, a, l) && TakesQueued(s, a, l)
    ensures MsgsOk(ApplyLoop(s, a, l))
  {
    var x := s.actors[a];
    match l
    case QueueDropped(r) =>
      DestroyKeepsMsgs(SetActor(s, a, DropFront(x, r)), x.lanes[r].queue[0], Discarded);
    case _ =>
  }

  lemma KeepsMsgs(s: System, e: Event)
    requires MsgsOk(s) && HandlersOk(s) && LanesOk(s) && Enabled(s, e)
    ensures MsgsOk(Apply(s, e))
  {
    match e
    case Tick =>
    case Handle(u) => HandleKeepsMsgs(s, u);
    case Envelope(v) => EnvelopeKeepsMsgs(s, v);
    case Task(t) => TaskKeepsMsgs(s, t);
    case Handler(a, h) => HandlerActsOnCurrent(s, a, h); HandlerKeepsMsgs(s, a, h);
    case Loop(a, l) => LoopTakesQueued(s, a, l); LoopKeepsMsgs(s, a, l);
  }
}
