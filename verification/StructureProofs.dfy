/** The shape of a step: what it can change in an actor, a message and a mailbox. */
module StructureProofs {
  import opened Types
  import opened ActorSteps
  import opened Runtime
  import opened Ownership
  import opened Invariants

  // ---- actors ----

  /** Messages may have been added at the end of the mailbox, and nothing else happened to it. */
  predicate Appended(l: Lane, l': Lane) {
    && l'.began == l.began && l'.dropped == l.dropped
    && l.enqueued <= l'.enqueued
    && l'.queue == l.queue + l'.enqueued[|l.enqueued|..]
  }

  /** x' differs from x only by what others can do: counts change, and open mailboxes grow. */
  ghost predicate Outside(x: Actor, x': Actor) {
    && x' == x.(strong := x'.strong, external := x'.external, lanes := x'.lanes)
    && x'.lanes.Keys == x.lanes.Keys
    && (forall r <- x.lanes :: Appended(x.lanes[r], x'.lanes[r]))
    && (!Accepting(x) ==> x'.lanes == x.lanes)
  }

  lemma AppendedTwice(l: Lane, l': Lane, l'': Lane)
    requires Appended(l, l') && Appended(l', l'')
    ensures Appended(l, l'')
  {
    assert l''.enqueued[|l.enqueued|..]
        == l'.enqueued[|l.enqueued|..] + l''.enqueued[|l'.enqueued|..];
  }

  lemma OutsideTwice(x: Actor, x': Actor, x'': Actor)
    requires Outside(x, x') && Outside(x', x'')
    ensures Outside(x, x'')
  {
    forall r | r in x.lanes ensures Appended(x.lanes[r], x''.lanes[r]) {
      AppendedTwice(x.lanes[r], x'.lanes[r], x''.lanes[r]);
    }
  }

  lemma CountOutside(x: Actor, strong: int, external: nat)
    ensures Outside(x, x.(strong := strong, external := external))
  {
    forall r | r in x.lanes ensures Appended(x.lanes[r], x.lanes[r]) {
      var l := x.lanes[r];
      assert l.enqueued[|l.enqueued|..] == [];
    }
  }

  lemma PushOutside(x: Actor, r: RoleId, m: MsgId)
    requires r in x.lanes && Accepting(x)
    ensures Outside(x, Push(x, r, m))
  {
    CountOutside(x, x.strong, x.external);
    var l := x.lanes[r];
    assert (l.enqueued + [m])[|l.enqueued|..] == [m];
    assert Appended(l, Push(x, r, m).lanes[r]);
  }

  /** No actor is touched except from outside. */
  ghost predicate AllOutside(s: System, t: System) {
    s.actors.Keys == t.actors.Keys && forall b <- s.actors :: Outside(s.actors[b], t.actors[b])
  }

  lemma AllOutsideTwice(s: System, t: System, u: System)
    requires AllOutside(s, t) && AllOutside(t, u)
    ensures AllOutside(s, u)
  {
    forall b | b in s.actors ensures Outside(s.actors[b], u.actors[b]) {
      OutsideTwice(s.actors[b], t.actors[b], u.actors[b]);
    }
  }

  lemma SameActors(s: System, t: System)
    requires s.actors == t.actors
    ensures AllOutside(s, t)
  {
    forall b | b in s.actors ensures Outside(s.actors[b], t.actors[b]) {
      CountOutside(s.actors[b], s.actors[b].strong, s.actors[b].external);
    }
  }

  lemma SetOutside(s: System, a: ActorId, x: Actor)
    requires a in s.actors && Outside(s.actors[a], x)
    ensures AllOutside(s, SetActor(s, a, x))
  {
    SameActors(s, s);
  }

  lemma CountsAllOutside(s: System, a: ActorId, strong: int, external: nat)
    requires a in s.actors
    ensures AllOutside(s, SetActor(s, a, s.actors[a].(strong := strong, external := external)))
  {
    CountOutside(s.actors[a], strong, external);
    SetOutside(s, a, s.actors[a].(strong := strong, external := external));
  }

  lemma CountAllOutside(s: System, a: ActorId, d: int)
    requires a in s.actors
    ensures AllOutside(s, Count(s, a, d))
  {
    CountsAllOutside(s, a, s.actors[a].strong + d, s.actors[a].external);
  }

  lemma GainOutside(s: System, a: ActorId)
    requires a in s.actors
    ensures AllOutside(s, GainHandle(s, a))
  {
    CountsAllOutside(s, a, s.actors[a].strong + 1, s.actors[a].external + 1);
  }

  lemma LoseOutside(s: System, a: ActorId)
    requires HasHandle(s, a)
    ensures AllOutside(s, LoseHandle(s, a))
  {
    CountsAllOutside(s, a, s.actors[a].strong - 1, s.actors[a].external - 1);
  }

  lemma MoveOutside(s: System, a: ActorId)
    requires HasHandle(s, a)
    ensures AllOutside(s, MoveHandle(s, a))
  {
    CountsAllOutside(s, a, s.actors[a].strong, s.actors[a].external - 1);
  }

  lemma ReleaseOutside(s: System, path: Path)
    requires path.Mailbox? ==> path.to in s.actors
    ensures AllOutside(s, ReleaseRecipient(s, path))
  {
    if path.Mailbox? { CountAllOutside(s, path.to, -1); } else { SameActors(s, s); }
  }

  lemma SubmitOutside(s: System, m: MsgId)
    requires Rooted(s, m)
    ensures AllOutside(s, Submit(s, m))
  {
    var g := s.msgs[m];
    var x := s.actors[g.to];
    if Accepting(x) {
      var s1 := SetActor(s, g.to, Push(x, g.role, m));
      var s2 := SetMsg(s1, m, g.(stage := Queued, caster := if g.caster.Unsent? then Waiting else g.caster));
      PushOutside(x, g.role, m);
      SetOutside(s, g.to, Push(x, g.role, m));
      SameActors(s1, s2);
      CountAllOutside(s2, g.to, -1);
      AllOutsideTwice(s, s1, s2);
      AllOutsideTwice(s, s2, Submit(s, m));
    } else {
      var g' := g.(stage := Refused, caster := if g.caster.Unsent? then Resolved(SendingError) else g.caster);
      var s1 := SetMsg(s, m, g');
      SameActors(s, s1);
      CountAllOutside(s1, g.to, -1);
      ReleaseOutside(Count(s1, g.to, -1), g.path);
      AllOutsideTwice(s, s1, Count(s1, g.to, -1));
      AllOutsideTwice(s, Count(s1, g.to, -1), Submit(s, m));
    }
  }

  lemma DestroyOutside(s: System, m: MsgId, stage: Stage)
    requires Rooted(s, m)
    ensures AllOutside(s, Destroy(s, m, stage))
  {
    var g := s.msgs[m];
    var s1 := SetMsg(s, m, g.(stage := stage, cell := if g.path.Immediate? then Broken else g.cell));
    SameActors(s, s1);
    ReleaseOutside(s1, g.path);
    AllOutsideTwice(s, s1, Destroy(s, m, stage));
  }

  lemma ReplyOutside(s: System, m: MsgId, v: Value, n: MsgId)
    requires Rooted(s, m) && n !in s.msgs
    ensures AllOutside(s, SendReply(s, m, v, n))
  {
    var g := s.msgs[m];
    SameActors(s, s);
    if g.path.Mailbox? {
      var s1 := SetMsg(s, m, g.(stage := Handled(v), child := Some(n)));
      var s2 := SetMsg(s1, n, NewMsg(g.path.to, g.path.role, Converted(v), Spawned(true), Some(m)));
      SameActors(s, s2);
      SubmitOutside(s2, n);
      AllOutsideTwice(s, s2, Submit(s2, n));
    }
  }

  lemma FeedOutside(s: System, f: FeederId, m: MsgId, p: Payload)
    requires f in s.feeders && m !in s.msgs && Exists(s, s.feeders[f].to, s.feeders[f].role)
    ensures AllOutside(s, Feed(s, f, m, p))
  {
    var d := s.feeders[f];
    var s1 := SetMsg(s, m, NewMsg(d.to, d.role, p, Spawned(true), None));
    var s2 := Count(s1, d.to, 1);
    var s3 := Submit(s2, m);
    SameActors(s, s1);
    CountAllOutside(s1, d.to, 1);
    SubmitOutside(s2, m);
    AllOutsideTwice(s, s1, s2);
    AllOutsideTwice(s, s2, s3);
    CountAllOutside(s3, d.to, -1);
    AllOutsideTwice(s, s3, Count(s3, d.to, -1));
  }

  lemma EnvelopeOutside(s: System, v: EnvelopeEvent)
    requires EnvelopeEnabled(s, v)
    ensures AllOutside(s, ApplyEnvelope(s, v))
  {
    SameActors(s, s);
    match v
    case ForwardTo(m, b, br) => MoveOutside(s, b);
    case PollSend(m) => SubmitOutside(s, m);
    case DropEnvelope(m) =>
      ReleaseOutside(SetMsg(s, m, s.msgs[m].(stage := Spawned(true), path := Discard)), s.msgs[m].path);
    case PollCaster(m) => if s.msgs[m].caster.Unsent? { SubmitOutside(s, m); }
    case DropCaster(m) =>
      var g := s.msgs[m];
      CountAllOutside(SetMsg(s, m, g.(stage := Abandoned, caster := Dropped)), g.to, -1);
    case IntoFuture(m) =>
  }

  lemma TaskOutside(s: System, t: TaskEvent)
    requires TaskEnabled(s, t)
    ensures AllOutside(s, ApplyTask(s, t))
  {
    match t
    case HelperSends(m) => SubmitOutside(s, m);
    case HelperDies(m) => CountAllOutside(SetMsg(s, m, s.msgs[m].(stage := Abandoned)), s.msgs[m].to, -1);
    case FeedItem(f, m, data) => FeedOutside(s, f, m, Arguments(data));
    case FeedEnds(f) => CountAllOutside(s, s.feeders[f].to, -1);
  }

  /** Every actor already there; `start` adds one. */
  lemma HandlesOutside(s: System, u: HandleEvent)
    requires HandleEnabled(s, u)
    ensures forall b <- s.actors :: b in ApplyHandle(s, u).actors && Outside(s.actors[b], ApplyHandle(s, u).actors[b])
    ensures ApplyHandle(s, u).actors.Keys == s.actors.Keys + if u.Start? then {u.a} else {}
  {
    SameActors(s, s);
    match u
    case Start(a, roles, init) =>
    case CloneHandle(a) => GainOutside(s, a);
    case DropHandle(a) => LoseOutside(s, a);
    case Call(a, r, m, data) => CountAllOutside(SetMsg(s, m, NewMsg(a, r, Arguments(data), Held, None)), a, 1);
    case SendWhenReady(a, r, m, data) => MoveOutside(s, a);
    case FeedTo(f, a, r) => MoveOutside(s, a);
  }

  /** What a handler or loop event does to its own actor, before anything reaches it from outside. */
  function OwnHandler(x: Actor, h: HandlerEvent): Actor
    requires h.Returned? || h.Panics? ==> HandlerFree(x)
  {
    match h
    case GetShell => x
    case StopCalled => x.(running := false)
    case Awaits(m) => x.(awaiting := Some(m))
    case Resumes => x.(awaiting := None)
    case Returned(st, v) => Return(x, st, v)
    case Panics(st) => Crash(x, st)
    case Replied(n) => x.(phase := LoopTop)
  }

  function OwnLoop(s: System, a: ActorId, l: LoopEvent): Actor
    requires LoopEnabled(s, a, l)
  {
    var x := s.actors[a];
    match l
    case FirstPolled => FirstPoll(x, s.now)
    case ReadGuards => Guards(x)
    case Received(r) => Receive(x, r, s.now)
    case ReceivedNone(r) => ReceiveNone(x, r)
    case TimerFired => Timer(x, s.now)
    case HookReturned => x.(phase := Closing(x.phase.exit))
    case QueueDropped(r) => DropFront(x, r)
    case TaskEnded => x.(phase := Dead(x.phase.exit))
  }

  lemma HandlerOutside(s: System, a: ActorId, h: HandlerEvent)
    requires HandlerEnabled(s, a, h)
    ensures AllOutside(SetActor(s, a, OwnHandler(s.actors[a], h)), ApplyHandler(s, a, h))
  {
    var x := s.actors[a];
    var s1 := SetActor(s, a, OwnHandler(x, h));
    SameActors(s1, s1);
    match h
    case GetShell => assert s1.actors[a] == x; GainOutside(s, a); assert s1 == s;
    case Panics(st) => DestroyOutside(s1, x.phase.msg, Crashed);
    case Replied(n) => ReplyOutside(s1, x.phase.msg, x.phase.value, n);
    case _ =>
  }

  lemma LoopOutside(s: System, a: ActorId, l: LoopEvent)
    requires LoopEnabled(s, a, l)
    ensures AllOutside(SetActor(s, a, OwnLoop(s, a, l)), ApplyLoop(s, a, l))
  {
    var x := s.actors[a];
    var s1 := SetActor(s, a, OwnLoop(s, a, l));
    SameActors(s1, s1);
    match l
    case Received(r) => SameActors(s1, ApplyLoop(s, a, l));
    case QueueDropped(r) => DestroyOutside(s1, x.lanes[r].queue[0], Discarded);
    case TaskEnded => CountAllOutside(s1, a, -1);
    case _ =>
  }

  /** The record of actor b once its own part of the event is done. */
  function Own(s: System, e: Event, b: ActorId): Actor
    requires Enabled(s, e) && b in s.actors
  {
    if e.Handler? && e.a == b then OwnHandler(s.actors[b], e.h)
    else if e.Loop? && e.a == b then OwnLoop(s, b, e.l)
    else s.actors[b]
  }

  /** The shape of a step, for every actor: its own action if the event is its own, then outside effects. */
  lemma ActorShape(s: System, e: Event, b: ActorId)
    requires Enabled(s, e) && b in s.actors
    ensures b in Apply(s, e).actors && Outside(Own(s, e, b), Apply(s, e).actors[b])
  {
    match e
    case Tick => SameActors(s, Apply(s, e));
    case Handle(u) => HandlesOutside(s, u);
    case Envelope(v) => EnvelopeOutside(s, v);
    case Task(t) => TaskOutside(s, t);
    case Handler(a, h) => HandlerOutside(s, a, h);
    case Loop(a, l) => LoopOutside(s, a, l);
  }

  /** Only `start` makes actors. */
  lemma ActorSet(s: System, e: Event)
    requires Enabled(s, e)
    ensures Apply(s, e).actors.Keys
         == s.actors.Keys + if e.Handle? && e.u.Start? then {e.u.a} else {}
  {
    match e
    case Tick =>
    case Handle(u) => HandlesOutside(s, u);
    case Envelope(v) => EnvelopeOutside(s, v);
    case Task(t) => TaskOutside(s, t);
    case Handler(a, h) => HandlerOutside(s, a, h);
    case Loop(a, l) => LoopOutside(s, a, l);
  }
}
