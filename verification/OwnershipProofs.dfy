/** Every step keeps every strong count equal to the number of owners. */
module OwnershipProofs {
  import opened Types
  import opened ActorSteps
  import opened Runtime
  import opened Ownership
  import opened Invariants
  import opened MessageProofs
  import opened StructureProofs

  /** A change of one actor's record moves only that actor's excess. */
  lemma ActorExcess(s: System, a: ActorId, x: Actor, b: ActorId)
    requires a in s.actors && b in s.actors
    ensures Excess(SetActor(s, a, x), b) == Excess(s, b) +
      if a == b then (x.strong - x.external - ContextShare(x))
                     - (s.actors[a].strong - s.actors[a].external - ContextShare(s.actors[a])) else 0
  {}

  lemma CountExcess(s: System, a: ActorId, d: int, b: ActorId)
    requires a in s.actors && b in s.actors
    ensures b in Count(s, a, d).actors
    ensures Excess(Count(s, a, d), b) == Excess(s, b) + if a == b then d else 0
  {
    ActorExcess(s, a, s.actors[a].(strong := s.actors[a].strong + d), b);
  }

  lemma ReleaseExcess(s: System, path: Path, b: ActorId)
    requires (path.Mailbox? ==> path.to in s.actors) && b in s.actors
    ensures b in ReleaseRecipient(s, path).actors
    ensures Excess(ReleaseRecipient(s, path), b) == Excess(s, b) - Bit(path.Mailbox? && path.to == b)
  {
    if path.Mailbox? { CountExcess(s, path.to, -1, b); }
  }

  lemma SubmitExcess(s: System, m: MsgId, b: ActorId)
    requires Rooted(s, m) && b in s.actors
    requires s.msgs[m].stage.OwnsDestination() && MsgOk(s.msgs[m])
    ensures b in Submit(s, m).actors && Excess(Submit(s, m), b) == Excess(s, b)
  {
    hide Excess;
    var g := s.msgs[m];
    var x := s.actors[g.to];
    if Accepting(x) {
      var s1 := SetActor(s, g.to, Push(x, g.role, m));
      ActorExcess(s, g.to, Push(x, g.role, m), b);
      var g' := g.(stage := Queued, caster := if g.caster.Unsent? then Waiting else g.caster);
      MsgExcess(s1, m, g', b);
      CountExcess(SetMsg(s1, m, g'), g.to, -1, b);
    } else {
      var g' := g.(stage := Refused, caster := if g.caster.Unsent? then Resolved(SendingError) else g.caster);
      MsgExcess(s, m, g', b);
      CountExcess(SetMsg(s, m, g'), g.to, -1, b);
      ReleaseExcess(Count(SetMsg(s, m, g'), g.to, -1), g.path, b);
    }
  }

  lemma DestroyExcess(s: System, m: MsgId, stage: Stage, b: ActorId)
    requires Rooted(s, m) && b in s.actors
    requires s.msgs[m].stage.Queued? || s.msgs[m].stage.InHandler?
    requires stage.Crashed? || stage.Discarded?
    ensures b in Destroy(s, m, stage).actors && Excess(Destroy(s, m, stage), b) == Excess(s, b)
  {
    var g := s.msgs[m];
    var g' := g.(stage := stage, cell := if g.path.Immediate? then Broken else g.cell);
    MsgExcess(s, m, g', b);
    ReleaseExcess(SetMsg(s, m, g'), g.path, b);
  }

  /** The closure's handle passes to the message it sends, and is then dropped. */
  lemma ReplyExcess(s: System, m: MsgId, v: Value, n: MsgId, b: ActorId)
    requires Rooted(s, m) && n !in s.msgs && b in s.actors && s.msgs[m].stage.InHandler?
    ensures b in SendReply(s, m, v, n).actors && Excess(SendReply(s, m, v, n), b) == Excess(s, b)
  {
    var g := s.msgs[m];
    match g.path
    case Discard => MsgExcess(s, m, g.(stage := Handled(v)), b);
    case Immediate => MsgExcess(s, m, g.(stage := Handled(v), cell := Filled(v)), b);
    case Mailbox(c, cr) =>
      var g' := g.(stage := Handled(v), child := Some(n));
      var sent := NewMsg(c, cr, Converted(v), Spawned(true), Some(m));
      MsgExcess(s, m, g', b);
      MsgExcess(SetMsg(s, m, g'), n, sent, b);
      SubmitExcess(SetMsg(SetMsg(s, m, g'), n, sent), n, b);
  }

  lemma FeedExcess(s: System, f: FeederId, m: MsgId, p: Payload, b: ActorId)
    requires f in s.feeders && s.feeders[f].live && m !in s.msgs && b in s.actors
    requires Exists(s, s.feeders[f].to, s.feeders[f].role)
    ensures b in Feed(s, f, m, p).actors && Excess(Feed(s, f, m, p), b) == Excess(s, b)
  {
    var d := s.feeders[f];
    var x := s.actors[d.to];
    var g := NewMsg(d.to, d.role, p, Spawned(true), None);
    var s1 := Count(SetMsg(s, m, g), d.to, 1);
    MsgExcess(s, m, g, b);
    CountExcess(SetMsg(s, m, g), d.to, 1, b);
    SubmitExcess(s1, m, b);
    var s2 := Submit(s1, m);
    assert s2.feeders == s.feeders;
    if Accepting(x) {
      FeederExcess(s2, f, d.(pulled := d.pulled + [p], sent := d.sent + [m],
                             positions := d.positions + [|x.lanes[d.role].enqueued|]), b);
    } else {
      CountExcess(s2, d.to, -1, b);
      FeederExcess(Count(s2, d.to, -1), f, d.(pulled := d.pulled + [p], live := false, broke := true), b);
    }
  }

  lemma StartExcess(s: System, a: ActorId, x: Actor, b: ActorId)
    requires a !in s.actors && b in s.actors
    ensures b in SetActor(s, a, x).actors && Excess(SetActor(s, a, x), b) == Excess(s, b)
  {}

  lemma HandleExcess(s: System, u: HandleEvent, b: ActorId)
    requires MsgsOk(s) && HandleEnabled(s, u) && b in s.actors
    ensures b in ApplyHandle(s, u).actors && Excess(ApplyHandle(s, u), b) == Excess(s, b)
  {
    hide Excess, MsgsOk;
    match u
    case Start(a, roles, init) => StartExcess(s, a, NewActor(roles, init), b);
    case CloneHandle(a) =>
      var x := s.actors[a]; ActorExcess(s, a, x.(strong := x.strong + 1, external := x.external + 1), b);
    case DropHandle(a) =>
      var x := s.actors[a]; ActorExcess(s, a, x.(strong := x.strong - 1, external := x.external - 1), b);
    case Call(a, r, m, data) =>
      var g := NewMsg(a, r, Arguments(data), Held, None);
      MsgExcess(s, m, g, b); CountExcess(SetMsg(s, m, g), a, 1, b);
    case SendWhenReady(a, r, m, data) =>
      ActorExcess(s, a, s.actors[a].(external := s.actors[a].external - 1), b);
      MsgExcess(MoveHandle(s, a), m, NewMsg(a, r, Arguments(data), Spawned(false), None), b);
    case FeedTo(f, a, r) =>
      ActorExcess(s, a, s.actors[a].(external := s.actors[a].external - 1), b);
      FeederExcess(MoveHandle(s, a), f, Feeder(a, r, true, false, [], [], []), b);
  }

  lemma EnvelopeExcess(s: System, v: EnvelopeEvent, b: ActorId)
    requires MsgsOk(s) && EnvelopeEnabled(s, v) && b in s.actors
    ensures b in ApplyEnvelope(s, v).actors && Excess(ApplyEnvelope(s, v), b) == Excess(s, b)
  {
    match v
    case IntoFuture(m) =>
      MsgExcess(s, m, s.msgs[m].(stage := Casting, path := Immediate, caster := Unsent, cell := Open), b);
    case ForwardTo(m, c, cr) =>
      ActorExcess(s, c, s.actors[c].(external := s.actors[c].external - 1), b);
      MsgExcess(MoveHandle(s, c), m, s.msgs[m].(path := Mailbox(c, cr)), b);
    case PollSend(m) => SubmitExcess(s, m, b);
    case DropEnvelope(m) =>
      var g := s.msgs[m].(stage := Spawned(true), path := Discard);
      MsgExcess(s, m, g, b); ReleaseExcess(SetMsg(s, m, g), s.msgs[m].path, b);
    case PollCaster(m) =>
      if s.msgs[m].caster.Unsent? { SubmitExcess(s, m, b); }
      else { MsgExcess(s, m, s.msgs[m].(caster := ReadCell(s.msgs[m].cell, s.msgs[m].caster)), b); }
    case DropCaster(m) =>
      var g := s.msgs[m];
      if g.caster.Unsent? {
        MsgExcess(s, m, g.(stage := Abandoned, caster := Dropped), b);
        CountExcess(SetMsg(s, m, g.(stage := Abandoned, caster := Dropped)), g.to, -1, b);
      } else {
        MsgExcess(s, m, g.(caster := Dropped), b);
      }
  }

  lemma TaskExcess(s: System, t: TaskEvent, b: ActorId)
    requires MsgsOk(s) && TaskEnabled(s, t) && b in s.actors
    ensures b in ApplyTask(s, t).actors && Excess(ApplyTask(s, t), b) == Excess(s, b)
  {
    match t
    case HelperSends(m) => SubmitExcess(s, m, b);
    case HelperDies(m) =>
      var g := s.msgs[m].(stage := Abandoned);
      MsgExcess(s, m, g, b); CountExcess(SetMsg(s, m, g), g.to, -1, b);
    case FeedItem(f, m, data) => FeedExcess(s, f, m, Arguments(data), b);
    case FeedEnds(f) =>
      CountExcess(s, s.feeders[f].to, -1, b);
      FeederExcess(Count(s, s.feeders[f].to, -1), f, s.feeders[f].(live := false), b);
  }

  lemma HandlerExcess(s: System, a: ActorId, h: HandlerEvent, b: ActorId)
    requires HandlersOk(s) && HandlerEnabled(s, a, h) && b in s.actors
    ensures b in ApplyHandler(s, a, h).actors && Excess(ApplyHandler(s, a, h), b) == Excess(s, b)
  {
    hide Excess, SendReply, Destroy;
    var x := s.actors[a];
    match h
    case GetShell => ActorExcess(s, a, x.(strong := x.strong + 1, external := x.external + 1), b);
    case StopCalled => ActorExcess(s, a, x.(running := false), b);
    case Awaits(m) => ActorExcess(s, a, x.(awaiting := Some(m)), b);
    case Resumes => ActorExcess(s, a, x.(awaiting := None), b);
    case Returned(st, v) => ActorExcess(s, a, Return(x, st, v), b);
    case Panics(st) =>
      ActorExcess(s, a, Crash(x, st), b);
      DestroyExcess(SetActor(s, a, Crash(x, st)), x.phase.msg, Crashed, b);
    case Replied(n) =>
      ActorExcess(s, a, x.(phase := LoopTop), b);
      ReplyExcess(SetActor(s, a, x.(phase := LoopTop)), x.phase.msg, x.phase.value, n, b);
  }

  lemma LoopExcess(s: System, a: ActorId, l: LoopEvent, b: ActorId)
    requires LoopEnabled(s, a, l) && TakesQueued(s, a, l) && b in s.actors
    ensures b in ApplyLoop(s, a, l).actors && Excess(ApplyLoop(s, a, l), b) == Excess(s, b)
  {
    hide Excess, Destroy;
    var x := s.actors[a];
    match l
    case FirstPolled => ActorExcess(s, a, FirstPoll(x, s.now), b);
    case ReadGuards => ActorExcess(s, a, Guards(x), b);
    case Received(r) =>
      var m := x.lanes[r].queue[0];
      ActorExcess(s, a, Receive(x, r, s.now), b);
      MsgExcess(SetActor(s, a, Receive(x, r, s.now)), m, s.msgs[m].(stage := InHandler), b);
    case ReceivedNone(r) => ActorExcess(s, a, ReceiveNone(x, r), b);
    case TimerFired => ActorExcess(s, a, Timer(x, s.now), b);
    case HookReturned => ActorExcess(s, a, x.(phase := Closing(x.phase.exit)), b);
    case QueueDropped(r) =>
      ActorExcess(s, a, DropFront(x, r), b);
      DestroyExcess(SetActor(s, a, DropFront(x, r)), x.lanes[r].queue[0], Discarded, b);
    case TaskEnded =>
      ActorExcess(s, a, x.(phase := Dead(x.phase.exit)), b);
      CountExcess(SetActor(s, a, x.(phase := Dead(x.phase.exit))), a, -1, b);
  }

  /** A freshly started actor is owned by its Context and by the handle `start` returned. */
  lemma StartCounted(s: System, a: ActorId, roles: set<RoleId>, init: UserState)
    requires WellFormed(s) && a !in s.actors
    ensures CountExact(SetActor(s, a, NewActor(roles, init)), a)
  {
    assert Senders(s.msgs, a) == {} by {
      assert forall m <- s.msgs :: Rooted(s, m);
    }
    assert Closures(s.msgs, a) == {} by {
      assert forall m <- s.msgs :: Rooted(s, m);
    }
    assert LiveFeeders(s.feeders, a) == {};
  }

  lemma StepExcess(s: System, e: Event, b: ActorId)
    requires MsgsOk(s) && HandlersOk(s) && LanesOk(s) && Enabled(s, e) && b in s.actors
    ensures b in Apply(s, e).actors && Excess(Apply(s, e), b) == Excess(s, b)
  {
    match e
    case Tick =>
    case Handle(u) => HandleExcess(s, u, b);
    case Envelope(v) => EnvelopeExcess(s, v, b);
    case Task(t) => TaskExcess(s, t, b);
    case Handler(a, h) => HandlerExcess(s, a, h, b);
    case Loop(a, l) => LoopTakesQueued(s, a, l); LoopExcess(s, a, l, b);
  }

  lemma KeepsCounts(s: System, e: Event)
    requires WellFormed(s) && MsgsOk(s) && HandlersOk(s) && LanesOk(s) && Counted(s) && Enabled(s, e)
    ensures Counted(Apply(s, e))
  {
    hide WellFormed, MsgsOk, HandlersOk, LanesOk, Owners;
    forall b | b in Apply(s, e).actors ensures CountExact(Apply(s, e), b) {
      ActorSet(s, e);
      if b in s.actors {
        assert CountExact(s, b);
        StepExcess(s, e, b);
      } else {
        StartCounted(s, e.u.a, e.u.roles, e.u.init);
      }
    }
  }
}
